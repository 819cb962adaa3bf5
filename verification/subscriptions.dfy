/**
 * The subscription table: for each characteristic, the ordered list of app ids
 * that receive its pushes.
 */
module Subscriptions {

  /** No id occurs twice in a subscriber list. */
  predicate DupFree(s: seq<string>) {
    forall i, j :: 0 <= i < j < |s| ==> s[i] != s[j]
  }

  /** The list with every occurrence of `x` taken out, the others in their order. */
  function Without(s: seq<string>, x: string): (r: seq<string>)
    ensures forall y :: y in r <==> y in s && y != x
    ensures |r| <= |s|
    ensures x !in s ==> r == s
  {
    if s == [] then []
    else if s[0] == x then Without(s[1..], x)
    else [s[0]] + Without(s[1..], x)
  }

  /** Taking `x` out distributes over concatenation. */
  lemma {:induction false} WithoutConcat(a: seq<string>, b: seq<string>, x: string)
    ensures Without(a + b, x) == Without(a, x) + Without(b, x)
  {
    if a == [] {
      assert a + b == b;
    } else {
      assert (a + b)[0] == a[0];
      assert (a + b)[1..] == a[1..] + b;
      WithoutConcat(a[1..], b, x);
    }
  }

  /** Taking an id out of a duplicate-free list leaves it duplicate-free. */
  lemma {:induction false} WithoutDupFree(s: seq<string>, x: string)
    requires DupFree(s)
    ensures DupFree(Without(s, x))
  {
    if s != [] {
      assert DupFree(s[1..]) by {
        forall i, j | 0 <= i < j < |s[1..]| ensures s[1..][i] != s[1..][j] {
          assert s[1..][i] == s[i + 1] && s[1..][j] == s[j + 1];
        }
      }
      WithoutDupFree(s[1..], x);
      if s[0] != x {
        var t := Without(s[1..], x);
        assert s[0] !in t by {
          forall k | 0 <= k < |s[1..]| ensures s[1..][k] != s[0] {
            assert s[1..][k] == s[k + 1];
          }
        }
        AppendFrontDupFree(s[0], t);
      }
    }
  }

  /** Putting a new id in front keeps a list duplicate-free. */
  lemma AppendFrontDupFree(x: string, t: seq<string>)
    requires DupFree(t) && x !in t
    ensures DupFree([x] + t)
  {
  }

  /** Appending a new id keeps a list duplicate-free. */
  lemma AppendBackDupFree(t: seq<string>, x: string)
    requires DupFree(t) && x !in t
    ensures DupFree(t + [x])
  {
  }

  /** The position of the first occurrence of `x`. */
  function FirstIndex(s: seq<string>, x: string): (k: nat)
    requires x in s
    ensures k < |s| && s[k] == x && x !in s[..k]
  {
    if s[0] == x then 0
    else
      assert x in s[1..] by { assert s == [s[0]] + s[1..]; }
      var k := 1 + FirstIndex(s[1..], x);
      assert s[..k] == [s[0]] + s[1..][..k - 1];
      k
  }

  /**
   * Python's `list.remove(x)` when `x` is in the list: it takes out the first
   * occurrence only, so it agrees with Without exactly on duplicate-free lists.
   */
  function RemoveFirst(s: seq<string>, x: string): (r: seq<string>)
    requires x in s
    ensures |r| == |s| - 1
    ensures r == s[..FirstIndex(s, x)] + s[FirstIndex(s, x) + 1..]
    ensures multiset(r) == multiset(s) - multiset{x}
    ensures DupFree(s) ==> r == Without(s, x)
  {
    var k := FirstIndex(s, x);
    assert s == s[..k] + [x] + s[k + 1..];
    assert DupFree(s) ==> s[..k] + s[k + 1..] == Without(s, x) by {
      if DupFree(s) {
        var tail := s[k + 1..];
        assert x !in tail by {
          forall i | 0 <= i < |tail| ensures tail[i] != x {
            assert tail[i] == s[k + 1 + i];
          }
        }
        WithoutConcat(s[..k] + [x], s[k + 1..], x);
        WithoutConcat(s[..k], [x], x);
      }
    }
    s[..k] + s[k + 1..]
  }

  /**
   * The table after app `id` is reconfigured with the characteristics named in
   * `services`: `id` taken out of every list, then appended to each named one.
   */
  function Reconfigured(apps: map<string, seq<string>>, id: string, services: seq<string>): (r: map<string, seq<string>>)
    ensures r.Keys == apps.Keys
    ensures forall c :: c in r ==> (id in r[c] <==> c in services)
    ensures forall c, b :: c in r && b != id ==> (b in r[c] <==> b in apps[c])
  {
    map c | c in apps :: Without(apps[c], id) + (if c in services then [id] else [])
  }

  /** Reconfiguring keeps every list duplicate-free. */
  lemma ReconfiguredDupFree(apps: map<string, seq<string>>, id: string, services: seq<string>)
    requires forall c :: c in apps ==> DupFree(apps[c])
    ensures forall c :: c in Reconfigured(apps, id, services) ==> DupFree(Reconfigured(apps, id, services)[c])
  {
    forall c | c in apps ensures DupFree(Reconfigured(apps, id, services)[c]) {
      WithoutDupFree(apps[c], id);
      if c in services {
        AppendBackDupFree(Without(apps[c], id), id);
      }
    }
  }

  /** The other apps stay in every list, in their original relative order. */
  lemma ReconfiguredKeepsOthers(apps: map<string, seq<string>>, id: string, services: seq<string>)
    ensures forall c :: c in apps ==> Without(Reconfigured(apps, id, services)[c], id) == Without(apps[c], id)
  {
    forall c | c in apps ensures Without(Reconfigured(apps, id, services)[c], id) == Without(apps[c], id) {
      var tail: seq<string> := if c in services then [id] else [];
      WithoutConcat(Without(apps[c], id), tail, id);
      assert Without(tail, id) == [];
    }
  }

  /** Only an app's most recent request decides its subscriptions. */
  lemma LastRequestWins(apps: map<string, seq<string>>, id: string, first: seq<string>, second: seq<string>)
    ensures Reconfigured(Reconfigured(apps, id, first), id, second) == Reconfigured(apps, id, second)
  {
    ReconfiguredKeepsOthers(apps, id, first);
  }

  /** Repeating the same request leaves the table as one request made it. */
  lemma ReconfigureIdempotent(apps: map<string, seq<string>>, id: string, services: seq<string>)
    ensures Reconfigured(Reconfigured(apps, id, services), id, services) == Reconfigured(apps, id, services)
  {
    LastRequestWins(apps, id, services, services);
  }

  /** One push per subscriber, in list order. */
  function Deliveries<M>(msg: M, subscribers: seq<string>): (r: seq<(M, string)>)
    ensures |r| == |subscribers|
    ensures forall i :: 0 <= i < |subscribers| ==> r[i] == (msg, subscribers[i])
  {
    if subscribers == [] then []
    else [(msg, subscribers[0])] + Deliveries(msg, subscribers[1..])
  }
}
