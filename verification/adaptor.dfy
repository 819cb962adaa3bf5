/**
 * The boiler-control adaptor: one object per device, bridging the Z-Wave comms
 * service and the apps that subscribe to its characteristics. Everything it
 * sends goes to one of three append-only logs: manager messages, Z-Wave
 * commands, and app messages paired with their recipient.
 */
module BoilerAdaptor {
  import opened Values
  import opened Encoding
  import opened Protocol
  import opened Subscriptions

  /** The characteristics of the subscription table: its keys. */
  const CharacteristicKeys: set<string> := {"binary_sensor", "switch", "connected"}

  predicate IsCharacteristic(c: string) {
    c in CharacteristicKeys
  }

  /**
   * The lifecycle state after `setState(action)`. The "error" branch of the
   * source compares instead of assigning, so only "clear_error" moves the state.
   */
  function NextLifecycle(state: string, action: string): (r: string)
    ensures r == state || r == "running"
    ensures r != state ==> action == "clear_error"
    ensures action == "clear_error" ==> r == "running"
  {
    if action == "error" then state
    else if action == "clear_error" then "running"
    else state
  }

  /**
   * The `connected` value `checkConnected` pushes, if any: it reports the
   * opposite of the stored value, and only when the failure flag says the
   * stored value is out of date.
   */
  function ConnectedPush(connected: bool, isFailed: Scalar): (r: Option<bool>)
    ensures r.Some? <==> Truthy(isFailed) == connected
    ensures r.Some? ==> r.value == !connected
  {
    if Truthy(isFailed) then (if connected then Some(false) else None)
    else if !connected then Some(true)
    else None
  }

  /** What `onAppCommand` does with the `data` field of an app command. */
  datatype CommandOutcome = NoData | BadValue | Unchanged | SwitchTo(target: string)

  function ClassifyCommand(data: Option<Scalar>, switchState: string): (r: CommandOutcome)
    ensures r == NoData <==> data == None
    ensures r == BadValue <==> data.Some? && data.value != StrVal("on") && data.value != StrVal("off")
    ensures r == Unchanged ==> data == Some(StrVal(switchState))
    ensures r.SwitchTo? ==> data == Some(StrVal(r.target)) && r.target != switchState
    ensures r.SwitchTo? ==> r.target == "on" || r.target == "off"
  {
    match data
    case None => NoData
    case Some(v) =>
      if v != StrVal("on") && v != StrVal("off") then BadValue
      else if v == StrVal(switchState) then Unchanged
      else SwitchTo(v.s)
  }

  class Adaptor {
    const id: string
    const addr: string
    const name: string

    var status: string
    var state: string
    var connected: bool
    var switchState: string
    var apps: map<string, seq<string>>

    /** Number of warnings logged. */
    var warnings: nat
    /** Everything sent to the manager, in order. */
    var managerLog: seq<ManagerMessage>
    /** Everything sent to the comms service, in order. */
    var zwaveLog: seq<ZwaveCommand>
    /** Everything sent to apps, in order, with the recipient app id. */
    var appLog: seq<(AppMessage, string)>

    /**
     * The table has exactly the three characteristics, no list holds an app
     * twice, and the lifecycle state is one the code can reach.
     */
    ghost predicate Valid()
      reads this
    {
      && apps.Keys == CharacteristicKeys
      && (forall c :: c in apps ==> DupFree(apps[c]))
      && (state == "stopped" || state == "running")
    }

    /** The pushes `sendCharacteristic(c, data, t)` makes: one per subscriber of `c`. */
    function Fanout(c: string, data: Scalar, t: real): seq<(AppMessage, string)>
      reads this
      requires c in apps
    {
      Deliveries(Characteristic(id, c, data, t), apps[c])
    }

    /** The pushes `checkConnected(isFailed)` makes at time `t`. */
    function ConnectedFanout(isFailed: Scalar, t: real): seq<(AppMessage, string)>
      reads this
      requires "connected" in apps
    {
      match ConnectedPush(connected, isFailed)
      case None => []
      case Some(up) => Fanout("connected", BoolVal(up), t)
    }

    constructor (id: string, addr: string, name: string)
      ensures Valid()
      ensures this.id == id && this.addr == addr && this.name == name
      ensures status == "ok" && state == "stopped"
      ensures connected == false && switchState == "unknown"
      ensures apps == map["binary_sensor" := [], "switch" := [], "connected" := []]
      ensures warnings == 0 && managerLog == [] && zwaveLog == [] && appLog == []
    {
      this.id := id;
      this.addr := addr;
      this.name := name;
      status := "ok";
      state := "stopped";
      connected := false;
      switchState := "unknown";
      apps := map["binary_sensor" := [], "switch" := [], "connected" := []];
      warnings := 0;
      managerLog := [];
      zwaveLog := [];
      appLog := [];
    }

    /** Applies a lifecycle action and reports the resulting state to the manager. */
    method SetState(action: string)
      requires Valid()
      modifies this`state, this`managerLog
      ensures Valid()
      ensures state == NextLifecycle(old(state), action)
      ensures managerLog == old(managerLog) + [StateReport(id, state)]
    {
      if action == "error" {
        // The source evaluates `state == "error"` here and discards the result.
      } else if action == "clear_error" {
        state := "running";
      }
      managerLog := managerLog + [StateReport(id, state)];
    }

    /** Pushes a characteristic update to every app subscribed to it, in list order. */
    method SendCharacteristic(c: string, data: Scalar, timeStamp: real)
      requires c in apps
      modifies this`appLog
      ensures appLog == old(appLog) + Fanout(c, data, timeStamp)
    {
      var msg := Characteristic(id, c, data, timeStamp);
      var subscribers := apps[c];
      var i := 0;
      while i < |subscribers|
        invariant 0 <= i <= |subscribers|
        invariant appLog == old(appLog) + Deliveries(msg, subscribers[..i])
      {
        appLog := appLog + [(msg, subscribers[i])];
        i := i + 1;
      }
      assert subscribers[..i] == subscribers;
    }

    /** One tick of the connection poll: a reachability check, then a mode read. */
    method PollSensors()
      modifies this`zwaveLog
      ensures zwaveLog == old(zwaveLog) + [Check(id, addr), Post(id, addr, "0", "64", "Get", "")]
    {
      zwaveLog := zwaveLog + [Check(id, addr)];
      zwaveLog := zwaveLog + [Post(id, addr, "0", "64", "Get", "")];
    }

    /** Reports a change of reachability to the subscribers of "connected"; `connected` itself is outside the frame. */
    method CheckConnected(isFailed: Scalar, now: real)
      requires Valid()
      modifies this`appLog
      ensures Valid()
      ensures appLog == old(appLog) + ConnectedFanout(isFailed, now)
    {
      if Truthy(isFailed) {
        if connected {
          SendCharacteristic("connected", BoolVal(false), now);
        }
      } else {
        if !connected {
          SendCharacteristic("connected", BoolVal(true), now);
        }
      }
    }

    /**
     * Handles a message from the comms service. `raised` is true when the
     * message has no `content` key, the one lookup the source does not guard.
     */
    method OnZwaveMessage(m: ZwaveMessage, now: real) returns (raised: bool)
      requires Valid()
      modifies this`zwaveLog, this`appLog, this`warnings
      ensures Valid()
      ensures raised <==> m.content == None
      ensures zwaveLog == old(zwaveLog) +
        if Decode(m) == Init then [Get(id, addr, "0", "64", "mode"), GetC(id, addr, "0", "0")] else []
      ensures appLog == old(appLog) +
        match Decode(m)
        case ModeReport(mode) => Fanout("binary_sensor", StrVal(Int2State(mode)), now)
        case FailedReport(isFailed) => ConnectedFanout(isFailed, now)
        case _ => []
      ensures warnings == old(warnings) + if Decode(m) == Malformed then 1 else 0
    {
      raised := false;
      match Decode(m)
      case NoContent =>
        raised := true;
      case Init =>
        zwaveLog := zwaveLog + [Get(id, addr, "0", "64", "mode")];
        zwaveLog := zwaveLog + [GetC(id, addr, "0", "0")];
      case ModeReport(mode) =>
        SendCharacteristic("binary_sensor", StrVal(Int2State(mode)), now);
      case FailedReport(isFailed) =>
        CheckConnected(isFailed, now);
      case Malformed =>
        warnings := warnings + 1;
      case Ignored =>
    }

    /** Sends a Set command on class 64 carrying 1 for "on" and 0 otherwise. */
    method Switch(onOrOff: string)
      modifies this`zwaveLog
      ensures zwaveLog == old(zwaveLog) + [Post(id, addr, "0", "64", "Set", SetValue(onOrOff))]
    {
      zwaveLog := zwaveLog + [Post(id, addr, "0", "64", "Set", SetValue(onOrOff))];
    }

    /** Answers an app's init with the service descriptor, then reports the (unchanged) state. */
    method OnAppInit(appId: string)
      requires Valid()
      modifies this`appLog, this`state, this`managerLog
      ensures Valid()
      ensures appLog == old(appLog) + [(ServiceDescriptor(name, id), appId)]
      ensures state == old(state)
      ensures managerLog == old(managerLog) + [StateReport(id, state)]
    {
      appLog := appLog + [(ServiceDescriptor(name, id), appId)];
      SetState("running");
    }

    /**
     * Replaces the subscriptions of app `appId` by the characteristics named
     * in `services`: the app is taken out of every list, then appended to each
     * named list it is not already in.
     */
    method OnAppRequest(appId: string, services: seq<string>)
      requires Valid()
      requires forall k :: 0 <= k < |services| ==> IsCharacteristic(services[k])
      modifies this`apps
      ensures Valid()
      ensures apps == Reconfigured(old(apps), appId, services)
    {
      ghost var start := apps;
      Unsubscribe(appId);
      Subscribe(appId, services);
      assert apps == Reconfigured(start, appId, services);
      ReconfiguredDupFree(start, appId, services);
    }

    /**
     * The first loop of the request handler: `remove` the app from every list
     * that holds it. The source visits the keys in insertion order; each list
     * is handled on its own, so the order does not affect the result.
     */
    method Unsubscribe(appId: string)
      requires Valid()
      modifies this`apps
      ensures apps.Keys == old(apps).Keys
      ensures forall c :: c in apps ==> apps[c] == Without(old(apps)[c], appId)
    {
      var todo := apps.Keys;
      while todo != {}
        invariant todo <= apps.Keys == old(apps).Keys
        invariant forall c :: c in old(apps) ==> DupFree(old(apps)[c])
        invariant forall c :: c in apps ==>
          apps[c] == if c in todo then old(apps)[c] else Without(old(apps)[c], appId)
        decreases todo
      {
        var c :| c in todo;
        if appId in apps[c] {
          apps := apps[c := RemoveFirst(apps[c], appId)];
        }
        todo := todo - {c};
      }
    }

    /** The second loop of the request handler: append the app to each named list it is not in. */
    method Subscribe(appId: string, services: seq<string>)
      requires forall k :: 0 <= k < |services| ==> services[k] in apps
      requires forall c :: c in apps ==> appId !in apps[c]
      modifies this`apps
      ensures apps.Keys == old(apps).Keys
      ensures forall c :: c in apps ==> apps[c] == old(apps)[c] + (if c in services then [appId] else [])
    {
      var j := 0;
      while j < |services|
        invariant 0 <= j <= |services|
        invariant apps.Keys == old(apps).Keys
        invariant forall c :: c in apps ==> apps[c] == old(apps)[c] + (if c in services[..j] then [appId] else [])
      {
        var c := services[j];
        assert services[..j + 1] == services[..j] + [c];
        if appId !in apps[c] {
          apps := apps[c := apps[c] + [appId]];
        }
        j := j + 1;
      }
      assert services[..j] == services;
    }

    /** Turns an app's switch command into a Set command when it asks for a different state. */
    method OnAppCommand(data: Option<Scalar>)
      requires Valid()
      modifies this`zwaveLog, this`warnings
      ensures Valid()
      ensures zwaveLog == old(zwaveLog) +
        match ClassifyCommand(data, switchState)
        case SwitchTo(target) => [Post(id, addr, "0", "64", "Set", SetValue(target))]
        case _ => []
      ensures warnings == old(warnings) +
        if ClassifyCommand(data, switchState) in {NoData, BadValue} then 1 else 0
    {
      if data.None? {
        warnings := warnings + 1;
      } else if data.value != StrVal("on") && data.value != StrVal("off") {
        warnings := warnings + 1;
      } else if data.value != StrVal(switchState) {
        Switch(data.value.s);
      }
    }

    /** A new configuration: the source asks for "starting", which setState does not recognise. */
    method OnConfigureMessage()
      requires Valid()
      modifies this`state, this`managerLog
      ensures Valid()
      ensures state == old(state)
      ensures managerLog == old(managerLog) + [StateReport(id, state)]
    {
      SetState("starting");
    }
  }

  /**
   * Clients of the adaptor. Their assertions follow from the method contracts
   * alone. Each starts from a fresh adaptor "boiler" at address "12" to which
   * one app has subscribed for one characteristic.
   */
  method NewSubscribed(appId: string, c: string) returns (a: Adaptor)
    requires IsCharacteristic(c)
    ensures fresh(a) && a.Valid()
    ensures a.id == "boiler" && a.addr == "12"
    ensures a.apps[c] == [appId]
    ensures !a.connected && a.switchState == "unknown"
    ensures a.appLog == [] && a.zwaveLog == [] && a.warnings == 0
  {
    a := new Adaptor("boiler", "12", "Boiler Control");
    a.OnAppRequest(appId, [c]);
    assert a.apps[c] == Without([], appId) + [appId];
  }

  /** A mode report of 1 reaches the subscriber of `binary_sensor` as "on". */
  method ModeReportReachesSubscriber()
  {
    var a := NewSubscribed("appA", "binary_sensor");
    var modeOn := ZwaveMessage(Some(StrVal("data")), Some(StrVal("64")), Some(StrVal("mode")), Some(Payload(None, Some(IntVal(1)))));
    assert Decode(modeOn) == ModeReport(IntVal(1));
    var raised := a.OnZwaveMessage(modeOn, 100.0);
    assert !raised;
    assert a.appLog == Deliveries(Characteristic("boiler", "binary_sensor", StrVal("on"), 100.0), ["appA"]);
  }

  /** `connected` is never assigned, so a failure report finds it false and pushes nothing. */
  method FailureReportPushesNothing()
  {
    var a := NewSubscribed("appA", "connected");
    var failed := ZwaveMessage(Some(StrVal("data")), Some(StrVal("0")), None, Some(Payload(Some(StrVal("isFailed")), Some(BoolVal(true)))));
    assert Decode(failed) == FailedReport(BoolVal(true));
    var raised := a.OnZwaveMessage(failed, 101.0);
    assert a.appLog == [];
  }

  /** For the same reason, every report of a reachable device pushes `connected` = true again. */
  method ReachableReportsRepeat()
  {
    var a := NewSubscribed("appA", "connected");
    var alive := ZwaveMessage(Some(StrVal("data")), Some(StrVal("0")), None, Some(Payload(Some(StrVal("isFailed")), Some(BoolVal(false)))));
    assert Decode(alive) == FailedReport(BoolVal(false));
    var raised := a.OnZwaveMessage(alive, 102.0);
    assert a.appLog == Deliveries(Characteristic("boiler", "connected", BoolVal(true), 102.0), ["appA"]);
    raised := a.OnZwaveMessage(alive, 103.0);
    assert |a.appLog| == 2;
  }

  /** A malformed message is logged and dropped; a message without `content` escapes the handler. */
  method MalformedReports()
  {
    var a := new Adaptor("boiler", "12", "Boiler Control");
    var noPayload := ZwaveMessage(Some(StrVal("data")), Some(StrVal("64")), Some(StrVal("mode")), None);
    var raised := a.OnZwaveMessage(noPayload, 104.0);
    assert !raised && a.warnings == 1 && a.appLog == [] && a.zwaveLog == [];
    raised := a.OnZwaveMessage(ZwaveMessage(None, None, None, None), 105.0);
    assert raised && a.warnings == 1 && a.appLog == [] && a.zwaveLog == [];
  }

  /** Commands from an app. */
  method RepeatedCommands()
  {
    var a := new Adaptor("boiler", "12", "Boiler Control");
    // `switchState` stays "unknown", so a repeated command is sent again.
    a.OnAppCommand(Some(StrVal("on")));
    a.OnAppCommand(Some(StrVal("on")));
    assert a.zwaveLog == [Post("boiler", "12", "0", "64", "Set", "1"), Post("boiler", "12", "0", "64", "Set", "1")];
    a.OnAppCommand(Some(StrVal("dim")));
    assert a.warnings == 1 && |a.zwaveLog| == 2;
  }

  /** "error" does not change the state; "clear_error" moves it to running. */
  method LifecycleActions()
  {
    var a := new Adaptor("boiler", "12", "Boiler Control");
    a.SetState("error");
    assert a.state == "stopped";
    a.SetState("clear_error");
    assert a.state == "running";
    assert a.managerLog == [StateReport("boiler", "stopped"), StateReport("boiler", "running")];
  }
}
