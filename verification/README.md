# Boiler-control Z-Wave adaptor, modelled in Dafny

This project models the boiler-control adaptor of the ContinuumBridge platform (`adaptor_a.py`).
The adaptor bridges one Z-Wave boiler relay to the apps registered with the bridge manager. It
translates inbound Z-Wave messages into characteristic pushes to subscribed apps, and app
commands into Z-Wave `Set` commands. It also keeps a subscription table and reports its lifecycle
state to the manager.

Modules, one concern each:

- `values.dfy` (`Values`): `Option`, and the JSON scalars a message field can hold. It also gives
  Python's truth value and Python's comparison with an integer, which the handlers rely on.
- `encoding.dfy` (`Encoding`): `state2int`, `int2state`, and the text `str(state2int(s))` that a
  `Set` command carries.
- `protocol.dfy` (`Protocol`): the inbound Z-Wave message is a record whose keys may each be
  missing. `Decode` turns it into a tagged event, following the handler's lookups in order. A
  lookup that fails inside the guarded block yields `Malformed`. The module also defines the
  outbound messages to the comms service, to apps and to the manager.
- `subscriptions.dfy` (`Subscriptions`): Python's `list.remove`, and `Reconfigured`, the table
  as it stands after an app's request. It holds the lemmas about that table, and `Deliveries`,
  the per-subscriber fan-out.
- `adaptor.dfy` (`BoilerAdaptor`): the class `Adaptor`, with the source's fields (`status`,
  `state`, `connected`, `switchState`, `apps`). It also has three append-only logs for what it
  sends: `managerLog`, `zwaveLog`, and `appLog` with (message, recipient app) pairs. A `warnings`
  counter stands in for warning-level logging. Each handler is a method whose `ensures` gives the
  new fields and logs in terms of the old ones. Client methods at the end replay small
  scenarios against those contracts alone.

## Behaviour as written

The model follows the code as written, also where it departs from what its own comments
suggest (line 45 compares where the comment at `adaptor_a.py:43` means an assignment):

- `setState("error")` changes nothing, because `adaptor_a.py:45` compares instead of assigning.
  `setState` recognises only `"clear_error"`, which sets `"running"`. `onAppInit` asks for
  `"running"` and `onConfigureMessage` asks for `"starting"`, so neither changes the state. The
  state is therefore always `"stopped"` or `"running"`, which `Adaptor.Valid` records.
- `connected` and `switchState` are never assigned after construction. So `checkConnected` never
  pushes `connected = false`, and it pushes `connected = true` on every report of a reachable
  device. Likewise, every valid app command is sent to the device, because `switchState` stays
  `"unknown"`. The client methods `FailureReportPushesNothing`, `ReachableReportsRepeat` and
  `RepeatedCommands` show both.
- The class-64 branch tests the top-level `value` key, not `data.name`. It reads the mode from
  `data.value`.
- Each poll tick sends a reachability check and also a `Get` on class 64.

## Model

| member | source | states |
|---|---|---|
| `Encoding.State2Int` | adaptor_a.py:17-21 | The result is 0 or 1. It is 1 exactly for "on". |
| `Encoding.Int2State` | adaptor_a.py:23-27 | The result is "on" or "off". It is "on" exactly when the value equals 1 in Python's sense (1 or True). |
| `Encoding.StateRoundTrip` | adaptor_a.py:17-27 | For "on" and "off", `int2state(state2int(s)) == s`. |
| `Encoding.IntRoundTrip` | adaptor_a.py:17-27 | For 0 and 1, `state2int(int2state(i)) == i`. |
| `Encoding.SetValue` | adaptor_a.py:134 | The Set value is "1" or "0". It is "1" exactly for "on". |
| `Encoding.SetValueReadBack` | adaptor_a.py:127-136 | When the device reports back the value a Set wrote, it decodes to the commanded state. |
| `Protocol.Decode` | adaptor_a.py:92-125 | A message with no `content` is the unguarded failure, and "init" is Init. A mode report requires "data", class "64", top-level value "mode" and a `data.value`. A failure report requires "data", class "0", `data.name` "isFailed" and a `data.value`. A data message is Malformed exactly when a key the guarded block looks up is missing: no `commandClass`; on class "64", no `value`, or no `data`/`data.value` after "mode"; on class "0", no `data` or `data.name`, or no `data.value` after "isFailed". A key present with another value (a class other than "64"/"0", a `value` other than "mode", a `data.name` other than "isFailed") is Ignored, as is any content other than "init"/"data". |
| `Subscriptions.RemoveFirst` | adaptor_a.py:152-153 | `list.remove` drops the first occurrence of the id and keeps everything else in order. The result is the list with position `FirstIndex` cut out, where `FirstIndex` is the first position holding the id. On a duplicate-free list it removes the id entirely. |
| `Subscriptions.Without` | adaptor_a.py:151-153 | Removing an app from a list keeps exactly the other ids. It changes nothing when the app is absent. |
| `Subscriptions.Reconfigured` | adaptor_a.py:149-157 | The keys are unchanged. The app is in a list exactly when its request names that characteristic. Every other id's membership is unchanged. |
| `Subscriptions.ReconfiguredDupFree` | adaptor_a.py:151-157 | Duplicate-free lists stay duplicate-free. |
| `Subscriptions.ReconfiguredKeepsOthers` | adaptor_a.py:151-157 | Other apps stay in each list in their original relative order. |
| `Subscriptions.LastRequestWins` | adaptor_a.py:149-157 | Two requests from the same app leave the table that the second one alone would produce. |
| `Subscriptions.ReconfigureIdempotent` | adaptor_a.py:149-157 | Repeating a request leaves the table unchanged. |
| `Subscriptions.Deliveries` | adaptor_a.py:59-60 | One (message, subscriber) pair per subscriber, in list order. |
| `BoilerAdaptor.NextLifecycle` | adaptor_a.py:42-47 | The state changes only on "clear_error", and then it becomes "running". Every other action, "error" included, leaves it as it was. |
| `BoilerAdaptor.ConnectedPush` | adaptor_a.py:83-90 | A push happens exactly when the failure flag's truth value equals the stored `connected`. It carries the opposite of the stored value. |
| `BoilerAdaptor.ClassifyCommand` | adaptor_a.py:160-167 | Missing data and data other than "on"/"off" are rejected. A switch goes out only for "on"/"off" and only when the value differs from `switchState`. An equal value is a no-op. |
| `BoilerAdaptor.Adaptor.constructor` | adaptor_a.py:30-40 | Status "ok", state "stopped", not connected, switch state "unknown", three empty subscriber lists, empty logs. |
| `BoilerAdaptor.Adaptor.SetState` | adaptor_a.py:42-51 | The new state is `NextLifecycle` of the old state. Exactly one manager message is appended, and it carries the resulting state. |
| `BoilerAdaptor.Adaptor.SendCharacteristic` | adaptor_a.py:53-60 | One characteristic push is appended per subscriber of the characteristic, in list order. Only the app log changes. |
| `BoilerAdaptor.Adaptor.PollSensors` | adaptor_a.py:66-80 | A check request and then a class-64 Get are appended to the Z-Wave log. Nothing else changes. |
| `BoilerAdaptor.Adaptor.CheckConnected` | adaptor_a.py:83-90 | Pushes the `connected` value `ConnectedPush` chooses to every subscriber of "connected". The frame leaves `connected` unmodified. |
| `BoilerAdaptor.Adaptor.OnZwaveMessage` | adaptor_a.py:92-125 | Init sends the "get" mode request and then the "getc" request. A mode report pushes `binary_sensor` with `int2state` of the mode, and a failure report acts as `checkConnected`. A malformed message adds one warning and has no other effect. An ignored message has no effect. A missing `content` raises. |
| `BoilerAdaptor.Adaptor.Switch` | adaptor_a.py:127-136 | Appends one `Set` post on class 64, instance 0, carrying `str(state2int(onOrOff))`. |
| `BoilerAdaptor.Adaptor.OnAppInit` | adaptor_a.py:138-147 | Sends the three-entry service descriptor to the requesting app. Then it reports the state to the manager, and the state is unchanged. |
| `BoilerAdaptor.Adaptor.OnAppRequest` | adaptor_a.py:149-158 | The new table is `Reconfigured(old table, app, services)`. The lists stay duplicate-free. |
| `BoilerAdaptor.Adaptor.Unsubscribe` | adaptor_a.py:151-153 | Each list loses the app and keeps all other ids in order, whatever order the keys are visited in. |
| `BoilerAdaptor.Adaptor.Subscribe` | adaptor_a.py:155-157 | Each list the request names gains the app exactly once, at its end. Other lists are unchanged. |
| `BoilerAdaptor.Adaptor.OnAppCommand` | adaptor_a.py:160-167 | A `Set` command goes out exactly when `ClassifyCommand` says to switch. Invalid or missing data adds one warning and sends nothing. |
| `BoilerAdaptor.Adaptor.OnConfigureMessage` | adaptor_a.py:169-174 | The state is unchanged and one state report is sent to the manager. |

## Left out

- Event-loop scheduling is not modelled: the 30-second `callLater` after "init", the re-arming of
  the poll every `INTERVAL` seconds, and the `callFromThread` hand-off of each push. `PollSensors`
  is one tick, and "init" schedules nothing. These are timers and thread plumbing of the host
  reactor.
- The `CbAdaptor` base class and its transport (`sendMessage`, `sendManagerMessage`,
  `sendZwaveMessage`, `cbLog`) are not part of this model. Sends become log appends, debug logging
  is dropped, and warnings are only counted.
- Wall-clock time is not modelled. `time.time()` becomes a timestamp parameter, and the
  `updateTime`/`lastUpdateTime` fields set on "init" are not modelled.
- Reading the id, address and name from the command line, and the `__main__` entry, are replaced
  by constructor parameters.
- `onStop` is a no-op in the source and has no counterpart here.
- App messages arrive as typed parameters, not dictionaries. A missing `id`, `service`,
  `characteristic` or `data` key makes the source raise `KeyError`; only the missing `data` key of
  an app command is modelled.
- `onConfigureMessage` ignores its configuration argument, so `OnConfigureMessage` takes none.
- `OnAppRequest` requires every named characteristic to be one of the three table keys. For any
  other name, the source raises `KeyError` part-way through the update.
- JSON floats, arrays and nested objects in message fields are not modelled (`1.0 == 1` in
  Python). A `data` value that is not an object is treated like a missing one, since both make the
  lookup fail.
- `Unsubscribe` visits the table's keys in an unspecified order, not Python's insertion order.
  Each list is updated on its own, so the resulting table is the same.
