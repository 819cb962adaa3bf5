/** The two encoding helpers between switch states and the integers the device uses. */
module Encoding {
  import opened Values

  /** `state2int`: "on" is 1 and every other string is 0. */
  function State2Int(s: string): (r: int)
    ensures r == 0 || r == 1
    ensures r == 1 <==> s == "on"
  {
    if s == "on" then 1 else 0
  }

  /** `int2state`: a value equal to 1 is "on" and anything else is "off". */
  function Int2State(v: Scalar): (r: string)
    ensures r == "on" || r == "off"
    ensures r == "on" <==> EqualsInt(v, 1)
  {
    if EqualsInt(v, 1) then "on" else "off"
  }

  /** `str(state2int(s))`: the decimal text carried as the value of a Set command. */
  function SetValue(s: string): (r: string)
    ensures r == "1" || r == "0"
    ensures r == "1" <==> s == "on"
  {
    if State2Int(s) == 1 then "1" else "0"
  }

  /** Encoding a switch state and decoding the integer gives the state back. */
  lemma StateRoundTrip(s: string)
    requires s == "on" || s == "off"
    ensures Int2State(IntVal(State2Int(s))) == s
  {
  }

  /** Decoding 0 or 1 and encoding the state gives the integer back. */
  lemma IntRoundTrip(i: int)
    requires i == 0 || i == 1
    ensures State2Int(Int2State(IntVal(i))) == i
  {
  }

  /** The value a Set command writes, when the device reports it back as a mode, decodes to the commanded state. */
  lemma SetValueReadBack(s: string)
    requires s == "on" || s == "off"
    ensures Int2State(IntVal(if SetValue(s) == "1" then 1 else 0)) == s
  {
  }
}
