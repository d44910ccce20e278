/** The value of `/lights/led3`: the PUT command byte that sets it and the
    payloads (led_value_get) that report it. */
module Led3Value {
  import opened Coap

  const CommandOff: byte := 0x30
  const CommandOn: byte := 0x31
  const CommandToggle: byte := 0x32

  datatype Command = SetOff | SetOn | Toggle

  /** The byte a client sends for each command: '0', '1' and '2'. */
  function CommandByte(c: Command): byte
  {
    match c
    case SetOff => CommandOff
    case SetOn => CommandOn
    case Toggle => CommandToggle
  }

  /** The command named by the first payload byte of a PUT; any other byte
      names none. */
  function ParseCommand(b: byte): (r: Option<Command>)
    ensures forall c :: r == Some(c) <==> b == CommandByte(c)
    ensures r.None? <==> b !in {CommandOff, CommandOn, CommandToggle}
  {
    if b == CommandOn then Some(SetOn)
    else if b == CommandOff then Some(SetOff)
    else if b == CommandToggle then Some(Toggle)
    else None
  }

  /** The LED after LEDS_ON, LEDS_OFF or LEDS_INVERT: on and off fix the
      state whatever it was, toggle flips it. */
  function Apply(c: Command, on: bool): (r: bool)
    ensures c == SetOn ==> r
    ensures c == SetOff ==> !r
    ensures c == Toggle ==> r != on
  {
    match c
    case SetOn => true
    case SetOff => false
    case Toggle => !on
  }

  /** Repeating a command: setting on or off again changes nothing, toggling
      twice restores the state. */
  lemma ApplyTwice(c: Command, on: bool)
    ensures c != Toggle ==> Apply(c, Apply(c, on)) == Apply(c, on)
    ensures c == Toggle ==> Apply(c, Apply(c, on)) == on
    ensures Apply(c, on) == Apply(c, !on) <==> c != Toggle
  {
  }

  /** The bytes of an ASCII text. */
  function Ascii(s: string): (r: seq<byte>)
    requires forall i :: 0 <= i < |s| ==> s[i] as int < 0x80
  {
    seq(|s|, i requires 0 <= i < |s| => s[i] as int)
  }

  const JsonTrue: seq<byte> := Ascii("{\"led3\": True}")
  const JsonFalse: seq<byte> := Ascii("{\"led3\": False}")
  const TextOn: seq<byte> := Ascii("1")
  const TextOff: seq<byte> := Ascii("0")

  /** led_value_get: the JSON object for JSON, the digit 1 or 0 for every
      other format (without the terminating NUL, as strlen counts). */
  function LedPayload(ct: ContentFormat, on: bool): (p: seq<byte>)
    ensures forall i :: 0 <= i < |p| ==> p[i] != 0
    ensures ct == Json ==> p == Ascii("{\"led3\": ") + Ascii(if on then "True" else "False") + Ascii("}")
    ensures ct != Json ==> |p| == 1 && (p[0] == 0x31 <==> on) && (p[0] == 0x30 <==> !on)
  {
    if ct == Json then (if on then JsonTrue else JsonFalse)
    else (if on then TextOn else TextOff)
  }

  /** Reading a payload back: the LED state it encodes in format `ct`, if any.
      Every state has exactly one payload per format, so a client recovers the
      state from any notification or GET response. */
  function ParseLedPayload(ct: ContentFormat, p: seq<byte>): (r: Option<bool>)
    ensures forall on :: r == Some(on) <==> p == LedPayload(ct, on)
  {
    assert |JsonTrue| == 14 && |JsonFalse| == 15;
    assert TextOn[0] == 0x31 && TextOff[0] == 0x30;
    if p == LedPayload(ct, true) then Some(true)
    else if p == LedPayload(ct, false) then Some(false)
    else None
  }
}
