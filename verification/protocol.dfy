/** The messages the adaptor receives from the Z-Wave comms service and sends to its peers. */
module Protocol {
  import opened Values

  /** Seconds between connection checks, advertised to apps as the push interval. */
  const PollInterval := 15

  /** The `data` object of an inbound message: each key may be missing. */
  datatype Payload = Payload(name: Option<Scalar>, value: Option<Scalar>)

  /**
   * An inbound Z-Wave message as the dictionary the comms service delivers:
   * every top-level key may be missing, and `data` is None when it is missing
   * or is not an object (both make a lookup inside it fail).
   */
  datatype ZwaveMessage = ZwaveMessage(
    content: Option<Scalar>,
    commandClass: Option<Scalar>,
    value: Option<Scalar>,
    data: Option<Payload>)

  /** What the handler makes of an inbound message, one constructor per outcome. */
  datatype ZwaveEvent =
    | NoContent                    // `content` is missing: the lookup fails outside the guarded block
    | Init                         // `content` is "init"
    | ModeReport(mode: Scalar)     // a class-64 data message naming "mode"
    | FailedReport(isFailed: Scalar) // a class-0 data message naming "isFailed"
    | Malformed                    // a lookup inside the guarded block failed: logged as a warning
    | Ignored                      // a shape the handler does not act upon

  /**
   * The dispatch of `onZwaveMessage`, in the order the handler looks fields up.
   * Note that the class-64 branch tests the top-level `value`, not `data.name`.
   */
  function Decode(m: ZwaveMessage): (e: ZwaveEvent)
    ensures e == NoContent <==> m.content == None
    ensures e == Init <==> m.content == Some(StrVal("init"))
    ensures e.ModeReport? <==>
      m.content == Some(StrVal("data")) && m.commandClass == Some(StrVal("64")) &&
      m.value == Some(StrVal("mode")) && m.data.Some? && m.data.value.value.Some?
    ensures e.ModeReport? ==> m.data.value.value == Some(e.mode)
    ensures e.FailedReport? <==>
      m.content == Some(StrVal("data")) && m.commandClass == Some(StrVal("0")) &&
      m.data.Some? && m.data.value.name == Some(StrVal("isFailed")) && m.data.value.value.Some?
    ensures e.FailedReport? ==> m.data.value.value == Some(e.isFailed)
    ensures e == Malformed <==>
      m.content == Some(StrVal("data")) &&
      (|| m.commandClass == None
       || (m.commandClass == Some(StrVal("64")) &&
           (|| m.value == None
            || (m.value == Some(StrVal("mode")) && (m.data == None || m.data.value.value == None))))
       || (m.commandClass == Some(StrVal("0")) &&
           (|| m.data == None
            || m.data.value.name == None
            || (m.data.value.name == Some(StrVal("isFailed")) && m.data.value.value == None))))
    ensures (m.content == Some(StrVal("data")) && m.commandClass == Some(StrVal("64")) &&
             m.value.Some? && m.value != Some(StrVal("mode"))) ==> e == Ignored
    ensures m.content.Some? && m.content != Some(StrVal("init")) && m.content != Some(StrVal("data")) ==> e == Ignored
  {
    match m.content
    case None => NoContent
    case Some(content) =>
      if content == StrVal("init") then Init
      else if content == StrVal("data") then DecodeData(m)
      else Ignored
  }

  /** The guarded part of the handler: any missing key yields Malformed. */
  function DecodeData(m: ZwaveMessage): ZwaveEvent {
    match m.commandClass
    case None => Malformed
    case Some(cc) =>
      if cc == StrVal("64") then
        match m.value
        case None => Malformed
        case Some(v) =>
          if v != StrVal("mode") then Ignored
          else
            match m.data
            case None => Malformed
            case Some(p) =>
              match p.value
              case None => Malformed
              case Some(mode) => ModeReport(mode)
      else if cc == StrVal("0") then
        match m.data
        case None => Malformed
        case Some(p) =>
          match p.name
          case None => Malformed
          case Some(n) =>
            if n != StrVal("isFailed") then Ignored
            else
              match p.value
              case None => Malformed
              case Some(isFailed) => FailedReport(isFailed)
      else Ignored
  }

  /** A command sent to the comms service (every one carries the adaptor id and the device address). */
  datatype ZwaveCommand =
    | Check(id: string, address: string)
    | Get(id: string, address: string, instance: string, commandClass: string, value: string)
    | GetC(id: string, address: string, instance: string, commandClass: string)
    | Post(id: string, address: string, instance: string, commandClass: string, action: string, value: string)

  /** One characteristic advertised to an app; `kind` is the optional "type" key. */
  datatype ServiceEntry = ServiceEntry(characteristic: string, interval: int, kind: Option<string>)

  /** A message sent to an app. */
  datatype AppMessage =
    | Service(name: string, id: string, status: string, service: seq<ServiceEntry>)
    | Characteristic(id: string, characteristic: string, data: Scalar, timeStamp: real)

  /** A message sent to the manager. */
  datatype ManagerMessage = StateReport(id: string, state: string)

  /** The service descriptor the adaptor answers an app's init with. */
  function ServiceDescriptor(name: string, id: string): AppMessage {
    Service(name, id, "ok",
      [ServiceEntry("connected", PollInterval, Some("switch")),
       ServiceEntry("binary_sensor", PollInterval, Some("switch")),
       ServiceEntry("switch", 0, None)])
  }
}
