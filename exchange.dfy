/** The boundary to the message layer: the requests it delivers to a resource
    callback and the messages the server hands back to coap_message_send. */
module Exchange {
  import opened Coap
  import opened Registry

  /** A request as a resource callback sees it. `accept` is the client's list
      of acceptable formats that content negotiation works on; `observe` is the
      decoded value of the first Observe option, if there is one. */
  datatype Request = Request(
    mtype: MsgType,
    code: Method,
    id: nat,
    token: seq<byte>,
    remote: Remote,
    accept: seq<ContentFormat>,
    observe: Option<uint32>,
    payload: seq<byte>)

  /** A message handed to coap_message_send. `observer` is the argument its
      delivery callback is given (p_arg), set on notifications only; `id` is
      the configured message ID, zero when the server does not set one. */
  datatype Message = Message(
    mtype: MsgType,
    code: ResponseCode,
    id: nat,
    token: seq<byte>,
    remote: Remote,
    options: seq<CoapOption>,
    payload: seq<byte>,
    observer: Option<Observer>)

  /** A message answers `req`: it goes back to the sender under the request's
      message ID and token. */
  predicate Echoes(req: Request, m: Message)
  {
    m.id == req.id && m.token == req.token && m.remote == req.remote
  }

  /** The piggy-backed response both request callbacks build. */
  function Reply(req: Request, code: ResponseCode, options: seq<CoapOption>, payload: seq<byte>): Message
  {
    Message(ResponseType(req.mtype), code, req.id, req.token, req.remote, options, payload, None)
  }
}
