/** Whole connections: sequences of frames and what the peer reads from them. */
module Streams {
  import opened Messages
  import opened WireFormat

  // ---- Requests --------------------------------------------------------------------------

  predicate FineRequest(reg: Registry, w: WireRequest)
  {
    |reg.BytesOf(w.Request.Headers)| < 0x1_0000_0000 && Sendable(w.Request.Body)
  }

  /** What the handler gets of a request whose frame arrives. */
  function ArrivingRequest(reg: Registry, r: Request): Request { RequestArrives(reg, WireRequest(0, r)).Request }

  function RequestStream(reg: Registry, ws: seq<WireRequest>): bytes
  {
    if ws == [] then [] else RequestFrame(reg, ws[0]) + RequestStream(reg, ws[1..])
  }

  /** What decoding takes in: the messages, the bytes that are left, and the head and body bytes
      counted. */
  datatype Intake = Intake(messages: seq<WireRequest>, left: bytes, heads: nat, bodies: nat)
  {
    function Before(d: Decoded<WireRequest>): Intake
    {
      Intake([d.message] + messages, left, d.head + heads, d.body + bodies)
    }
  }

  /** Decoding until the stream ends or makes no sense. */
  function RequestsIn(reg: Registry, s: bytes): Intake
    requires reg.Valid()
    decreases |s|
  {
    match ParseRequest(reg, s)
    case Fail(_) => Intake([], s, 0, 0)
    case Ok(d) =>
      assert d.head >= LINE;
      RequestsIn(reg, d.rest).Before(d)
  }

  function RequestHeads(reg: Registry, ws: seq<WireRequest>): nat
  {
    if ws == [] then 0 else |RequestHead(reg, ws[0])| + RequestHeads(reg, ws[1..])
  }

  function RequestBodies(ws: seq<WireRequest>): nat
  {
    if ws == [] then 0 else |BodyBytes(ws[0].Request.Body)| + RequestBodies(ws[1..])
  }

  lemma OneMessage(reg: Registry, s: bytes, d: Decoded<WireRequest>)
    requires reg.Valid() && ParseRequest(reg, s) == Ok(d) && |d.rest| < |s|
    ensures RequestsIn(reg, s) == RequestsIn(reg, d.rest).Before(d)
  {
  }

  function AllArrive(reg: Registry, ws: seq<WireRequest>): (got: seq<WireRequest>)
    ensures |got| == |ws| && forall i :: 0 <= i < |ws| ==> got[i] == RequestArrives(reg, ws[i])
  {
    seq(|ws|, i requires 0 <= i < |ws| => RequestArrives(reg, ws[i]))
  }

  /** Every sequence of requests comes out as it went in, with nothing left over; the receiver
      counts exactly the head and body bytes that were sent. */
  lemma {:induction false} RequestStreamRoundTrip(reg: Registry, ws: seq<WireRequest>)
    requires reg.Valid() && forall w :: w in ws ==> FineRequest(reg, w)
    ensures RequestsIn(reg, RequestStream(reg, ws))
         == Intake(AllArrive(reg, ws), [], RequestHeads(reg, ws), RequestBodies(ws))
    decreases |ws|
  {
    assert ws != [] ==> FineRequest(reg, ws[0]);
    if ws == [] {
      assert AllArrive(reg, ws) == [];
    } else {
      FirstMessage(reg, ws);
      RequestStreamRoundTrip(reg, ws[1..]);
      FirstArrives(reg, ws);
    }
  }

  lemma FirstArrives(reg: Registry, ws: seq<WireRequest>)
    requires ws != []
    ensures AllArrive(reg, ws) == [RequestArrives(reg, ws[0])] + AllArrive(reg, ws[1..])
  {
  }

  lemma FirstMessage(reg: Registry, ws: seq<WireRequest>)
    requires reg.Valid() && ws != [] && FineRequest(reg, ws[0])
    ensures RequestsIn(reg, RequestStream(reg, ws))
         == RequestsIn(reg, RequestStream(reg, ws[1..])).Before(
              Decoded(RequestArrives(reg, ws[0]), RequestStream(reg, ws[1..]), |RequestHead(reg, ws[0])|,
                      |BodyBytes(ws[0].Request.Body)|))
  {
    var rest := RequestStream(reg, ws[1..]);
    RequestRoundTrip(reg, ws[0], rest);
    OneMessage(reg, RequestFrame(reg, ws[0]) + rest,
               Decoded(RequestArrives(reg, ws[0]), rest, |RequestHead(reg, ws[0])|, |BodyBytes(ws[0].Request.Body)|));
  }

  // ---- Responses -------------------------------------------------------------------------

  /** What the server's writer encodes for a reply. */
  function WireOf(id: uint64, reply: Reply): WireResponse
  {
    match reply.response
    case None => WireResponse(id, None, NO_BODY, reply.error)
    case Some(r) => WireResponse(id, r.Headers, r.Body, reply.error)
  }

  /** What the client's reader gets of a reply whose frame arrives. */
  function ArrivingReply(reg: Registry, reply: Reply): Reply
  {
    var w := ResponseArrives(reg, WireOf(0, reply));
    Reply(Some(Response(w.Headers, w.Body)), w.Error)
  }

  /** Nothing is lost on the way exactly when the headers are of a registered type and the body's
      reader has just the announced bytes. */
  lemma RequestArrivesUnchangedExactlyWhen(reg: Registry, r: Request)
    requires FineRequest(reg, WireRequest(0, r))
    ensures ArrivingRequest(reg, r) == r <==> reg.Known(r.Headers) == r.Headers && Exact(r.Body)
  {
    ExactArrives(r.Body);
  }

  lemma ReplyArrivesUnchangedExactlyWhen(reg: Registry, r: Response, error: bytes)
    requires FineReply(reg, Reply(Some(r), error))
    ensures var reply := Reply(Some(r), error);
            ArrivingReply(reg, reply) == reply <==> reg.Known(r.Headers) == r.Headers && Exact(r.Body)
  {
    ExactArrives(r.Body);
  }

  predicate Exact(body: Body) { body.Reader.Some? && |body.Reader.value| == body.Size }

  lemma ExactArrives(body: Body)
    requires Sendable(body)
    ensures Arrived(body) == body <==> Exact(body)
  {
    if Exact(body) {
      assert body.Reader.value[..body.Size] == body.Reader.value;
      assert body.Size == 0 ==> body.Reader.value == [];
    }
  }

  /** One answer of the server: an identifier and how the handler ended. */
  datatype Answer = Answer(id: uint64, end: HandlerEnd)

  predicate FineResponse(reg: Registry, w: WireResponse) { SmallHead(reg, w) && Sendable(w.Body) }

  predicate FineReply(reg: Registry, reply: Reply) { FineResponse(reg, WireOf(0, reply)) }

  predicate FineAnswer(reg: Registry, a: Answer) { FineResponse(reg, WireOf(a.id, ReplyOf(a.end))) }

  function ResponseStream(reg: Registry, answers: seq<Answer>): bytes
  {
    if answers == [] then []
    else ResponseFrame(reg, WireOf(answers[0].id, ReplyOf(answers[0].end))) + ResponseStream(reg, answers[1..])
  }

  function AnswerHeads(reg: Registry, answers: seq<Answer>): nat
  {
    if answers == [] then 0
    else |ResponseHead(reg, WireOf(answers[0].id, ReplyOf(answers[0].end)))| + AnswerHeads(reg, answers[1..])
  }

  function AnswerBodies(answers: seq<Answer>): nat
  {
    if answers == [] then 0
    else |BodyBytes(WireOf(answers[0].id, ReplyOf(answers[0].end)).Body)| + AnswerBodies(answers[1..])
  }

  datatype Replies = Replies(messages: seq<WireResponse>, left: bytes)

  /** The client's reader: the message it decodes into is reused, and its error text is cleared
      after each response that carries one. */
  function ResponsesIn(reg: Registry, stale: bytes, s: bytes): Replies
    requires reg.Valid()
    decreases |s|
  {
    match ParseResponse(reg, stale, s)
    case Fail(_) => Replies([], s)
    case Ok(d) =>
      assert d.head >= LINE;
      var more := ResponsesIn(reg, if d.message.Error != [] then [] else d.message.Error, d.rest);
      Replies([d.message] + more.messages, more.left)
  }

  /** An error or a panic of the handler takes the response away, so the server never puts a
      header and an error text into one frame, and what it sends can be decoded. */
  lemma AnswerRoundTrip(reg: Registry, a: Answer, rest: bytes)
    requires reg.Valid() && FineAnswer(reg, a)
    ensures var w := WireOf(a.id, ReplyOf(a.end));
            && (reg.BytesOf(w.Headers) == [] || w.Error == [])
            && ParseResponse(reg, [], ResponseFrame(reg, w) + rest)
               == Ok(Decoded(ResponseArrives(reg, w), rest, |ResponseHead(reg, w)|, |BodyBytes(w.Body)|))
  {
    var w := WireOf(a.id, ReplyOf(a.end));
    var h := reg.BytesOf(w.Headers);
    assert h == [] || w.Error == [];
    assert h + [] == h == [] + h && w.Error + [] == w.Error == [] + w.Error;
    ResponseRoundTripExactlyWhen(reg, w, rest);
  }

  /** Every sequence of answers comes out as it went in: nothing is left over, and no error
      text leaks from one response into the next. */
  lemma {:induction false} ResponseStreamRoundTrip(reg: Registry, answers: seq<Answer>)
    requires reg.Valid() && forall a :: a in answers ==> FineAnswer(reg, a)
    ensures var read := ResponsesIn(reg, [], ResponseStream(reg, answers));
            && read.left == [] && |read.messages| == |answers|
            && forall i :: 0 <= i < |answers| ==>
                 read.messages[i] == ResponseArrives(reg, WireOf(answers[i].id, ReplyOf(answers[i].end)))
    decreases |answers|
  {
    if answers != [] {
      assert FineAnswer(reg, answers[0]);
      forall a | a in answers[1..] ensures FineAnswer(reg, a) { assert a in answers; }
      FirstAnswer(reg, answers);
      ResponseStreamRoundTrip(reg, answers[1..]);
    }
  }

  lemma FirstAnswer(reg: Registry, answers: seq<Answer>)
    requires reg.Valid() && answers != [] && FineAnswer(reg, answers[0])
    ensures var more := ResponsesIn(reg, [], ResponseStream(reg, answers[1..]));
            ResponsesIn(reg, [], ResponseStream(reg, answers))
              == Replies([ResponseArrives(reg, WireOf(answers[0].id, ReplyOf(answers[0].end)))] + more.messages,
                         more.left)
  {
    AnswerRoundTrip(reg, answers[0], ResponseStream(reg, answers[1..]));
  }

  /** A response with both a header and an error text would not survive: one byte of each. */
  lemma HeaderAndErrorSwap(reg: Registry)
    requires reg.Valid() && RawType(0) in reg.indexes
    ensures var w := WireResponse(7, Some(RawHeaders(0, [1])), NO_BODY, [2]);
            ParseResponse(reg, [], ResponseFrame(reg, w) + [])
              != Ok(Decoded(ResponseArrives(reg, w), [], |ResponseHead(reg, w)|, 0))
  {
    var w := WireResponse(7, Some(RawHeaders(0, [1])), NO_BODY, [2]);
    assert reg.BytesOf(w.Headers) == [1];
    assert ([1] + [2])[0] != ([2] + [1])[0];
    ResponseRoundTripExactlyWhen(reg, w, []);
  }
}
