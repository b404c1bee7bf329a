/** The decoder: start lines are read directly, headers are staged in a ring buffer in
    whatever chunks the connection delivers, bodies are copied out. */
module Decoders {
  import opened Messages
  import opened WireFormat
  import opened Streams
  import opened RingBuffers

  class MessageDecoder {
    /** What the connection will still deliver. */
    var r: bytes
    const ring: RingBuffer
    var headRead: nat
    var bodyRead: nat
    /** The one size of all headers, and how many of them the ring takes before it starts over. */
    ghost const headerSize: nat
    ghost const slots: nat
    ghost var slot: nat

    /** Between messages the ring is empty and stands at a multiple of the header size. */
    ghost predicate Valid()
      reads this, ring
    {
      && ring.Valid() && ring.size == 0
      && headerSize > 0 && slot < slots
      && ring.buf.Length == slots * headerSize && ring.start == slot * headerSize
    }

    constructor (stream: bytes, ghost headerSize: nat, slots: nat, capacity: nat)
      requires headerSize > 0 && slots > 0 && capacity == slots * headerSize
      ensures Valid() && r == stream && headRead == bodyRead == 0 && this.headerSize == headerSize
      ensures fresh(ring) && fresh(ring.buf)
    {
      r, headRead, bodyRead := stream, 0, 0;
      ring := new RingBuffer(capacity);
      this.headerSize, this.slots, slot := headerSize, slots, 0;
    }

    /** io.CopyN into the ring, for every way in which the connection cuts the header into
        chunks. */
    method CopyToRing(n: nat)
      requires ring.Valid() && ring.size == 0 && ring.start + n <= ring.buf.Length && n <= |r|
      modifies this`r, ring, ring.buf
      ensures ring.Valid() && ring.buf == old(ring.buf)
      ensures ring.View() == Ring(old(r)[..n], old(ring.start), old(ring.buf.Length))
      ensures r == old(r)[n..]
    {
      var left := n;
      while left > 0
        invariant 0 <= left <= n && r == old(r)[n - left..]
        invariant ring.Valid() && ring.buf == old(ring.buf) && ring.start == old(ring.start)
        invariant ring.Contents() == old(r)[..n - left]
      {
        var chunk: nat :| 0 < chunk <= left;
        ghost var done := old(r)[..n - left];
        var outcome := ring.Write(r[..chunk]);
        assert done + r[..chunk] == old(r)[..n - left + chunk];
        r := r[chunk..];
        left := left - chunk;
      }
    }

    /** Staging and TrySlice: the header comes back whole, as a slice of the ring's storage. */
    method StageHeader(n: nat) returns (header: bytes, sliced: bool)
      requires Valid() && n == headerSize && n <= |r|
      modifies this`r, this`slot, ring, ring.buf
      ensures Valid() && ring.buf == old(ring.buf)
      ensures header == old(r)[..n] && r == old(r)[n..] && sliced
    {
      SlotsFit(headerSize, slots, slot);
      CopyToRing(n);
      var outcome := ring.TrySlice(n);
      header, sliced := outcome.value.0, outcome.value.1;
      slot := if slot + 1 == slots then 0 else slot + 1;
    }

    ghost predicate OneSize(reg: Registry, line: Line)
    {
      HeaderRead(reg, line.headerType, line.headerSize) in {0, headerSize}
    }

    /** The header part of both kinds of frame. */
    method DecodeHeaders(reg: Registry, index: nat, n: nat) returns (res: Result<Option<Headers>>)
      requires Valid() && reg.Valid() && HeaderRead(reg, index, n) in {0, headerSize}
      modifies this`r, this`slot, this`headRead, ring, ring.buf
      ensures match ParseHeaders(reg, index, n, old(r))
              case Fail(f) => res == Fail(f)
              case Ok((h, rest)) => res == Ok(h) && r == rest && Valid() && ring.buf == old(ring.buf)
                                    && headRead == old(headRead) + HeaderRead(reg, index, n)
    {
      if index >= |reg.constructors| {
        return Fail(UnknownHeaderType);
      }
      if reg.constructors[index].None? {
        return Ok(None);
      }
      if n == 0 {
        return Ok(Some(Blank(reg.constructors[index].value)));
      }
      if |r| < n {
        return Fail(EndOfStream);
      }
      var buf, _ := StageHeader(n);
      headRead := headRead + n;
      var h := HeadersFrom(reg.constructors[index].value, buf);
      return match h case Ok(v) => Ok(Some(v)) case Fail(f) => Fail(f);
    }

    method DecodeBody(n: uint64) returns (res: Result<Body>)
      modifies this`r, this`bodyRead
      ensures match ParseBody(n, old(r))
              case Fail(f) => res == Fail(f)
              case Ok((body, rest)) => res == Ok(body) && r == rest && bodyRead == old(bodyRead) + n
    {
      if n == 0 {
        assert r[..0] == [] && r[0..] == r;
        return Ok(Body(0, Some([])));
      }
      if |r| < n {
        return Fail(EndOfStream);
      }
      res := Ok(Body(n, Some(r[..n])));
      bodyRead := bodyRead + n;
      r := r[n..];
    }

    method DecodeRequest(reg: Registry) returns (res: Result<WireRequest>)
      requires Valid() && reg.Valid() && (|r| >= LINE ==> OneSize(reg, LineFrom(r)))
      modifies this`r, this`slot, this`headRead, this`bodyRead, ring, ring.buf
      ensures match ParseRequest(reg, old(r))
              case Fail(f) => res == Fail(f)
              case Ok(d) => res == Ok(d.message) && r == d.rest && Valid() && ring.buf == old(ring.buf)
                            && headRead == old(headRead) + d.head && bodyRead == old(bodyRead) + d.body
    {
      if |r| < LINE {
        return Fail(EndOfStream);
      }
      var line := LineFrom(r);
      r := r[LINE..];
      headRead := headRead + LINE;
      var headers := DecodeHeaders(reg, line.headerType, line.headerSize);
      if headers.Fail? {
        return Fail(headers.failure);
      }
      var body := DecodeBody(line.bodySize);
      if body.Fail? {
        return Fail(body.failure);
      }
      return Ok(WireRequest(line.id, Request(line.first, headers.value, body.value)));
    }

    /** `stale` is the error text that the caller's reused message still carries. */
    method DecodeResponse(reg: Registry, stale: bytes) returns (res: Result<WireResponse>)
      requires Valid() && reg.Valid() && (|r| >= LINE ==> OneSize(reg, LineFrom(r)))
      modifies this`r, this`slot, this`headRead, this`bodyRead, ring, ring.buf
      ensures match ParseResponse(reg, stale, old(r))
              case Fail(f) => res == Fail(f)
              case Ok(d) => res == Ok(d.message) && r == d.rest && Valid() && ring.buf == old(ring.buf)
                            && headRead == old(headRead) + d.head && bodyRead == old(bodyRead) + d.body
    {
      if |r| < LINE {
        return Fail(EndOfStream);
      }
      var line := LineFrom(r);
      r := r[LINE..];
      headRead := headRead + LINE;
      var error := stale;
      if |r| < line.first {
        return Fail(EndOfStream);
      }
      if line.first > 0 {
        error := r[..line.first];
        r := r[line.first..];
        headRead := headRead + line.first;
      }
      var headers := DecodeHeaders(reg, line.headerType, line.headerSize);
      if headers.Fail? {
        return Fail(headers.failure);
      }
      var body := DecodeBody(line.bodySize);
      if body.Fail? {
        return Fail(body.failure);
      }
      return Ok(WireResponse(line.id, headers.value, body.value, error));
    }
  }

  // ---- The loops of the two readers --------------------------------------------------------

  predicate Readable(reg: Registry, ws: seq<WireRequest>, size: nat)
  {
    forall w :: w in ws ==> FineRequest(reg, w) && |reg.BytesOf(w.Request.Headers)| in {0, size}
  }

  /** The next frame of a stream of requests. */
  lemma NextRequest(reg: Registry, ws: seq<WireRequest>, i: nat, size: nat)
    requires reg.Valid() && i < |ws| && Readable(reg, ws, size)
    ensures var s := RequestStream(reg, ws[i..]);
            && |s| >= LINE && HeaderRead(reg, LineFrom(s).headerType, LineFrom(s).headerSize) in {0, size}
            && ParseRequest(reg, s) == Ok(Decoded(RequestArrives(reg, ws[i]), RequestStream(reg, ws[i + 1..]),
                                                  |RequestHead(reg, ws[i])|, |BodyBytes(ws[i].Request.Body)|))
    ensures RequestHeads(reg, ws[i..]) == |RequestHead(reg, ws[i])| + RequestHeads(reg, ws[i + 1..])
    ensures RequestBodies(ws[i..]) == |BodyBytes(ws[i].Request.Body)| + RequestBodies(ws[i + 1..])
  {
    assert ws[i..][0] == ws[i] && ws[i..][1..] == ws[i + 1..];
    RequestRoundTrip(reg, ws[i], RequestStream(reg, ws[i + 1..]));
    RequestLineSeen(reg, ws[i], RequestStream(reg, ws[i + 1..]), size);
  }

  lemma EmptyStream(reg: Registry, ws: seq<WireRequest>)
    ensures RequestStream(reg, ws) == [] <==> ws == []
  {
    assert ws != [] ==> RequestStream(reg, ws) == RequestFrame(reg, ws[0]) + RequestStream(reg, ws[1..]);
  }

  lemma RequestLineSeen(reg: Registry, w: WireRequest, rest: bytes, size: nat)
    requires reg.Valid() && FineRequest(reg, w) && |reg.BytesOf(w.Request.Headers)| in {0, size}
    ensures var s := RequestFrame(reg, w) + rest;
            |s| >= LINE && HeaderRead(reg, LineFrom(s).headerType, LineFrom(s).headerSize) in {0, size}
  {
    var line := LineOf(reg, w.Request.Service, w.ID, w.Request.Headers, w.Request.Body);
    var t := reg.BytesOf(w.Request.Headers) + (BodyBytes(w.Request.Body) + rest);
    assert RequestFrame(reg, w) + rest == line.Bytes() + t;
    LineRoundTrip(line, t);
    HeadersArrive(reg, w.Request.Headers, BodyBytes(w.Request.Body) + rest);
  }

  /** The requests from number `i` on are still to be read; `heads` and `bodies` are what will have
      been counted in the end. */
  ghost predicate RequestsLeft(d: MessageDecoder, reg: Registry, ws: seq<WireRequest>, i: nat, heads: nat, bodies: nat)
    reads d, d.ring, d.ring.buf
  {
    && d.Valid() && i <= |ws| && d.r == RequestStream(reg, ws[i..])
    && d.headRead + RequestHeads(reg, ws[i..]) == heads
    && d.bodyRead + RequestBodies(ws[i..]) == bodies
  }

  method TakeRequest(d: MessageDecoder, reg: Registry, ghost ws: seq<WireRequest>, ghost i: nat, ghost heads: nat,
                     ghost bodies: nat) returns (w: WireRequest)
    requires RequestsLeft(d, reg, ws, i, heads, bodies) && d.r != []
    requires reg.Valid() && Readable(reg, ws, d.headerSize)
    modifies d, d.ring, d.ring.buf
    ensures i < |ws| && RequestsLeft(d, reg, ws, i + 1, heads, bodies) && d.ring.buf == old(d.ring.buf)
    ensures w == RequestArrives(reg, ws[i])
  {
    EmptyStream(reg, ws[i..]);
    NextRequest(reg, ws, i, d.headerSize);
    var res := d.DecodeRequest(reg);
    w := res.value;
  }

  /** The loop of the server's reader on a stream of requests: it takes in exactly those
      requests, and has counted exactly their bytes. */
  method ReadRequests(d: MessageDecoder, reg: Registry, ghost ws: seq<WireRequest>) returns (got: seq<WireRequest>)
    requires d.Valid() && reg.Valid() && d.r == RequestStream(reg, ws) && Readable(reg, ws, d.headerSize)
    modifies d, d.ring, d.ring.buf
    ensures d.r == [] && |got| == |ws| && forall i :: 0 <= i < |ws| ==> got[i] == RequestArrives(reg, ws[i])
    ensures d.headRead == old(d.headRead) + RequestHeads(reg, ws)
    ensures d.bodyRead == old(d.bodyRead) + RequestBodies(ws)
  {
    got := [];
    ghost var heads, bodies := d.headRead + RequestHeads(reg, ws), d.bodyRead + RequestBodies(ws);
    assert ws[0..] == ws;
    while d.r != []
      invariant RequestsLeft(d, reg, ws, |got|, heads, bodies) && d.ring.buf == old(d.ring.buf)
      invariant forall j :: 0 <= j < |got| ==> got[j] == RequestArrives(reg, ws[j])
      decreases |ws| - |got|
    {
      var w := TakeRequest(d, reg, ws, |got|, heads, bodies);
      got := got + [w];
    }
    EmptyStream(reg, ws[|got|..]);
  }

  predicate ReadableAnswers(reg: Registry, answers: seq<Answer>, size: nat)
  {
    forall a :: a in answers ==>
      FineAnswer(reg, a) && |reg.BytesOf(WireOf(a.id, ReplyOf(a.end)).Headers)| in {0, size}
  }

  lemma NextAnswer(reg: Registry, answers: seq<Answer>, i: nat, size: nat)
    requires reg.Valid() && i < |answers| && ReadableAnswers(reg, answers, size)
    ensures var s, w := ResponseStream(reg, answers[i..]), WireOf(answers[i].id, ReplyOf(answers[i].end));
            && |s| >= LINE && HeaderRead(reg, LineFrom(s).headerType, LineFrom(s).headerSize) in {0, size}
            && ParseResponse(reg, [], s) == Ok(Decoded(ResponseArrives(reg, w), ResponseStream(reg, answers[i + 1..]),
                                                       |ResponseHead(reg, w)|, |BodyBytes(w.Body)|))
            && AnswerHeads(reg, answers[i..]) == |ResponseHead(reg, w)| + AnswerHeads(reg, answers[i + 1..])
            && AnswerBodies(answers[i..]) == |BodyBytes(w.Body)| + AnswerBodies(answers[i + 1..])
  {
    assert answers[i..][0] == answers[i] && answers[i..][1..] == answers[i + 1..];
    AnswerRoundTrip(reg, answers[i], ResponseStream(reg, answers[i + 1..]));
    AnswerLineSeen(reg, answers[i], ResponseStream(reg, answers[i + 1..]), size);
  }

  lemma AnswerLineSeen(reg: Registry, a: Answer, rest: bytes, size: nat)
    requires reg.Valid() && FineAnswer(reg, a) && |reg.BytesOf(WireOf(a.id, ReplyOf(a.end)).Headers)| in {0, size}
    ensures var s := ResponseFrame(reg, WireOf(a.id, ReplyOf(a.end))) + rest;
            |s| >= LINE && HeaderRead(reg, LineFrom(s).headerType, LineFrom(s).headerSize) in {0, size}
  {
    var w := WireOf(a.id, ReplyOf(a.end));
    var line := LineOf(reg, |w.Error|, w.ID, w.Headers, w.Body);
    var t := (reg.BytesOf(w.Headers) + w.Error) + (BodyBytes(w.Body) + rest);
    Regroup(line.Bytes(), reg.BytesOf(w.Headers), w.Error, BodyBytes(w.Body), rest);
    LineRoundTrip(line, t);
    HeadersArrive(reg, w.Headers, []);
  }

  lemma EmptyAnswers(reg: Registry, answers: seq<Answer>)
    ensures ResponseStream(reg, answers) == [] <==> answers == []
  {
    if answers != [] {
      assert ResponseStream(reg, answers)
          == ResponseFrame(reg, WireOf(answers[0].id, ReplyOf(answers[0].end))) + ResponseStream(reg, answers[1..]);
    }
  }

  /** The same for answers. */
  ghost predicate AnswersLeft(d: MessageDecoder, reg: Registry, answers: seq<Answer>, i: nat, heads: nat, bodies: nat)
    reads d, d.ring, d.ring.buf
  {
    && d.Valid() && i <= |answers| && d.r == ResponseStream(reg, answers[i..])
    && d.headRead + AnswerHeads(reg, answers[i..]) == heads
    && d.bodyRead + AnswerBodies(answers[i..]) == bodies
  }

  method TakeAnswer(d: MessageDecoder, reg: Registry, stale: bytes, ghost answers: seq<Answer>, ghost i: nat,
                    ghost heads: nat, ghost bodies: nat) returns (w: WireResponse)
    requires AnswersLeft(d, reg, answers, i, heads, bodies) && d.r != [] && stale == []
    requires reg.Valid() && ReadableAnswers(reg, answers, d.headerSize)
    modifies d, d.ring, d.ring.buf
    ensures i < |answers| && AnswersLeft(d, reg, answers, i + 1, heads, bodies) && d.ring.buf == old(d.ring.buf)
    ensures IsAnswer(reg, answers[i], w)
  {
    EmptyAnswers(reg, answers[i..]);
    NextAnswer(reg, answers, i, d.headerSize);
    var res := d.DecodeResponse(reg, stale);
    w := res.value;
  }

  predicate IsAnswer(reg: Registry, a: Answer, w: WireResponse)
  {
    w == ResponseArrives(reg, WireOf(a.id, ReplyOf(a.end)))
  }

  /** What has been read so far. */
  ghost predicate AreAnswers(reg: Registry, answers: seq<Answer>, got: seq<WireResponse>)
  {
    |got| <= |answers| && forall i :: 0 <= i < |got| ==> IsAnswer(reg, answers[i], got[i])
  }

  lemma OneAnswerMore(reg: Registry, answers: seq<Answer>, got: seq<WireResponse>, w: WireResponse)
    requires AreAnswers(reg, answers, got) && |got| < |answers| && IsAnswer(reg, answers[|got|], w)
    ensures AreAnswers(reg, answers, got + [w])
  {
  }

  /** The loop of the client's reader on a stream of answers. One message is reused for all of
      them, and only a text that is not empty is cleared after it was delivered. */
  method ReadAnswers(d: MessageDecoder, reg: Registry, ghost answers: seq<Answer>) returns (got: seq<WireResponse>)
    requires d.Valid() && reg.Valid() && d.r == ResponseStream(reg, answers)
    requires ReadableAnswers(reg, answers, d.headerSize)
    modifies d, d.ring, d.ring.buf
    ensures d.r == [] && |got| == |answers| && AreAnswers(reg, answers, got)
    ensures d.headRead == old(d.headRead) + AnswerHeads(reg, answers)
    ensures d.bodyRead == old(d.bodyRead) + AnswerBodies(answers)
  {
    got := [];
    var error: bytes := [];
    ghost var heads, bodies := d.headRead + AnswerHeads(reg, answers), d.bodyRead + AnswerBodies(answers);
    assert answers[0..] == answers;
    while d.r != []
      invariant AnswersLeft(d, reg, answers, |got|, heads, bodies) && d.ring.buf == old(d.ring.buf)
      invariant AreAnswers(reg, answers, got) && error == []
      decreases |answers| - |got|
    {
      var w;
      w, error := TakeTurn(d, reg, error, answers, |got|, heads, bodies);
      OneAnswerMore(reg, answers, got, w);
      got := got + [w];
    }
    EmptyAnswers(reg, answers[|got|..]);
  }

  /** One turn of it. */
  method TakeTurn(d: MessageDecoder, reg: Registry, error: bytes, ghost answers: seq<Answer>, ghost i: nat,
                  ghost heads: nat, ghost bodies: nat) returns (w: WireResponse, error': bytes)
    requires AnswersLeft(d, reg, answers, i, heads, bodies) && d.r != [] && error == []
    requires reg.Valid() && ReadableAnswers(reg, answers, d.headerSize)
    modifies d, d.ring, d.ring.buf
    ensures i < |answers| && AnswersLeft(d, reg, answers, i + 1, heads, bodies) && d.ring.buf == old(d.ring.buf)
    ensures IsAnswer(reg, answers[i], w) && error' == []
  {
    w := TakeAnswer(d, reg, error, answers, i, heads, bodies);
    error' := w.Error;
    if error' != [] {
      error' := [];
    }
  }
}
