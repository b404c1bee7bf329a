/** Values that cross the iorpc protocol: requests, responses and what a handler did. */
module Messages {

  datatype Option<+T> = None | Some(value: T)

  type byte = b: int | 0 <= b < 256

  type bytes = seq<byte>

  function Min(a: nat, b: nat): nat { if a <= b then a else b }

  function One(b: bool): nat { if b then 1 else 0 }

  lemma Joined(a: bytes, b: bytes, c: bytes)
    ensures (a + b) + c == a + (b + c)
  {
  }

  type uint32 = n: nat | n < 0x1_0000_0000 witness 0

  type uint64 = n: nat | n < 0x1_0000_0000_0000_0000 witness 0

  /** The 32-byte header of the read services, and any other registered implementation of
      the Headers interface, known by its type and by the bytes it encodes to. */
  datatype Headers =
    | ReadHeaders(CMD: uint64, Offset: uint64, Size: uint64, ID: uint64)
    | RawHeaders(typ: nat, data: bytes)

  /** A body announces `Size` bytes; `Reader` is everything its reader would supply. */
  datatype Body = Body(Size: uint64, Reader: Option<bytes>)

  const NO_BODY := Body(0, None)

  datatype Request = Request(Service: uint32, Headers: Option<Headers>, Body: Body)

  datatype Response = Response(Headers: Option<Headers>, Body: Body)

  const BLANK_REQUEST := Request(0, None, NO_BODY)

  const EMPTY_RESPONSE := Response(None, NO_BODY)

  /** How a call of the handler ends. Texts are byte strings. */
  datatype HandlerEnd =
    | Returned(response: Option<Response>)
    | ReturnedError(text: bytes)
    | Panicked(text: bytes)

  /** What the server answers with: a response, or none, and an error text. */
  datatype Reply = Reply(response: Option<Response>, error: bytes)

  /** What the client's reader stores for it. */
  function ResponseOf(reply: Reply): Response
  {
    match reply.response case None => EMPTY_RESPONSE case Some(r) => r
  }

  /** "Panic occured: ", which starts the error text made from a recovered panic. */
  const PANIC_PREFIX: bytes := [80, 97, 110, 105, 99, 32, 111, 99, 99, 117, 114, 101, 100, 58, 32]

  /** callHandlerWithRecover: an error or a panic forces the response to nil. */
  function ReplyOf(end: HandlerEnd): Reply
  {
    match end
    case Returned(response) => Reply(response, [])
    case ReturnedError(text) => Reply(None, text)
    case Panicked(text) => Reply(None, PANIC_PREFIX + text)
  }
}
