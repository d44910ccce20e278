/** Protocol vocabulary of CoAP (RFC 7252) and of its Observe extension
    (RFC 7641), as far as the observe server uses it. */
module Coap {

  /** An octet on the wire. */
  type byte = b: int | 0 <= b < 0x100

  const Two32: int := 0x1_0000_0000

  /** The C type uint32_t. */
  type uint32 = x: int | 0 <= x < 0x1_0000_0000

  /** Unsigned 32-bit addition: C wraps it modulo 2^32. */
  function Add32(x: uint32, n: nat): uint32
  {
    (x + n) % Two32
  }

  /** One increment of a uint32_t counter, taken after `n` earlier ones,
      is the counter advanced by n + 1. */
  lemma Add32Step(x: uint32, n: nat)
    ensures Add32(Add32(x, n), 1) == Add32(x, n + 1)
  {
    var q, r := (x + n) / Two32, (x + n) % Two32;
    assert x + n == q * Two32 + r;
    assert x + n + 1 == q * Two32 + (r + 1);
    if r + 1 == Two32 {
      assert x + n + 1 == (q + 1) * Two32;
    }
  }

  datatype Option<+T> = None | Some(value: T)

  /** Message types of RFC 7252 section 3, in their wire order (CON is 0). */
  datatype MsgType = Con | Non | Ack | Rst

  /** Request method codes of RFC 7252 section 12.1.1. */
  datatype Method = Get | Post | Put | Delete

  /** The response codes this server sends (RFC 7252 section 12.1.2). */
  datatype ResponseCode =
    | Changed204
    | Content205
    | BadRequest400
    | MethodNotAllowed405
    | UnsupportedContentFormat415

  /** Content formats of RFC 7252 section 12.3. */
  datatype ContentFormat = PlainText | LinkFormat | Xml | OctetStream | Exi | Json

  /** The options this server attaches to its messages. */
  datatype CoapOption =
    | ObserveOpt(sequence: uint32)
    | MaxAgeOpt(seconds: uint32)
    | ContentFormatOpt(format: ContentFormat)

  /** The peer of an exchange: address and port. */
  datatype Remote = Remote(address: seq<byte>, port: nat)

  /** Type of a piggy-backed response (RFC 7252 section 5.2.1) as both request
      callbacks choose it: a NON request is answered by NON, a CON request by
      ACK; for any other request type the zeroed response configuration is left
      as it is, and zero is the number of CON. */
  function ResponseType(t: MsgType): (r: MsgType)
    ensures r == Non <==> t == Non
    ensures r == Ack <==> t == Con
    ensures r == Con <==> t == Ack || t == Rst
    ensures r != Rst
  {
    match t
    case Non => Non
    case Con => Ack
    case _ => Con
  }

  /** The first position from `from` on of a format the resource supports. */
  function FirstSupported(accept: seq<ContentFormat>, supported: set<ContentFormat>, from: nat): (r: Option<nat>)
    ensures r.Some? ==> from <= r.value < |accept| && accept[r.value] in supported
    ensures forall j :: from <= j < |accept| && (r.None? || j < r.value) ==> accept[j] !in supported
    decreases |accept| - from
  {
    if from >= |accept| then None
    else if accept[from] in supported then Some(from)
    else FirstSupported(accept, supported, from + 1)
  }

  /** Content negotiation of the message layer: the first format of the
      client's accepted list that the resource supports, or None when they
      share none. */
  function MatchSelect(accept: seq<ContentFormat>, supported: set<ContentFormat>): (r: Option<ContentFormat>)
    ensures r.Some? ==> r.value in supported && r.value in accept
    ensures r.Some? ==> exists i :: 0 <= i < |accept| && accept[i] == r.value &&
                                    forall j :: 0 <= j < i ==> accept[j] !in supported
    ensures r.None? <==> forall i :: 0 <= i < |accept| ==> accept[i] !in supported
  {
    match FirstSupported(accept, supported, 0)
    case Some(i) => Some(accept[i])
    case None => None
  }
}
