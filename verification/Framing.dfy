/** How much of a connection's frames is kept in the encoder's buffer, and which start lines get
    lost there: the buffer's capacity and length evolve from frame to frame. */
module Framing {
  import BigEndian
  import opened Messages
  import opened WireFormat
  import opened Streams

  const HEADER_BUFFER_SIZE := 4096

  function Zeros(n: nat): bytes { seq(n, _ => 0) }

  /** What the encoder makes of a message: start line, headers, error text, body. */
  datatype Frame = Frame(line: Line, header: bytes, trailer: bytes, body: Body)
  {
    function Size(): nat { LINE + |header| + |trailer| }

    /** The frame with its start line, or with zeros in its place. */
    function Sent(kept: bool): bytes
    {
      HeadSent(kept, line, header, trailer) + BodyBytes(body)
    }
  }

  function HeadSent(kept: bool, line: Line, header: bytes, trailer: bytes): (s: bytes)
    ensures |s| == LINE + |header| + |trailer|
  {
    (if kept then line.Bytes() else Zeros(LINE)) + header + trailer
  }

  function RequestFrameOf(reg: Registry, w: WireRequest): Frame
  {
    Frame(LineOf(reg, w.Request.Service, w.ID, w.Request.Headers, w.Request.Body),
          reg.BytesOf(w.Request.Headers), [], w.Request.Body)
  }

  function ResponseFrameOf(reg: Registry, w: WireResponse): Frame
  {
    Frame(LineOf(reg, |w.Error|, w.ID, w.Headers, w.Body), reg.BytesOf(w.Headers), w.Error, w.Body)
  }

  lemma RequestFrameIs(reg: Registry, w: WireRequest)
    ensures RequestFrameOf(reg, w).Sent(true) == RequestFrame(reg, w)
    ensures RequestFrameOf(reg, w).Size() == |RequestHead(reg, w)|
  {
    assert RequestHead(reg, w) + [] == RequestHead(reg, w);
  }

  // ---- One frame -------------------------------------------------------------------------

  /** The buffer of an encoder: the capacity of its storage and how much waits in it. */
  datatype Buf = Buf(capacity: nat, len: nat)

  const FRESH := Buf(HEADER_BUFFER_SIZE, 0)

  /** A frame with a body is written from an empty buffer. */
  predicate SentAtOnce(body: Body) { body.Size > 0 && body.Reader.Some? }

  /** The reader supplies what was announced, if it is asked at all. */
  predicate Supplied(body: Body) { SentAtOnce(body) && body.Size < SIZES ==> body.Size <= |body.Reader.value| }

  /** Capacity of a bytes.Buffer after `n` more bytes: doubled at least when it has to grow. */
  function Room(capacity: nat, len: nat, n: nat): nat
  {
    if len + n <= capacity then capacity else if len + n <= 2 * capacity then 2 * capacity else len + n
  }

  /** The slice taken for the start line still is the buffer's storage when the header has
      been appended. */
  predicate LineKept(capacity: nat, len: nat, header: nat)
  {
    header == 0 || len + LINE + header <= Room(capacity, len, LINE)
  }

  /** What waits when the head of a frame is begun. */
  function Waiting(len: nat, f: Frame): nat { if SentAtOnce(f.body) then 0 else len }

  predicate Kept(b: Buf, f: Frame) { LineKept(b.capacity, Waiting(b.len, f), |f.header|) }

  /** Encoding ends with everything on the wire. */
  predicate Flushes(len: nat, f: Frame) { SentAtOnce(f.body) || len + f.Size() >= HEADER_BUFFER_SIZE }

  function Buffered(len: nat, f: Frame): nat { if Flushes(len, f) then 0 else len + f.Size() }

  /** Placeholder, headers and error text are appended one after the other. */
  function Grown(capacity: nat, len: nat, header: nat, trailer: nat): nat
  {
    Room(Room(Room(capacity, len, LINE), len + LINE, header), len + LINE + header, trailer)
  }

  function Next(b: Buf, f: Frame): Buf
  {
    Buf(Grown(b.capacity, Waiting(b.len, f), |f.header|, |f.trailer|), Buffered(b.len, f))
  }

  // ---- Frames that arrive ------------------------------------------------------------------

  /** The frame keeps its start line, its header is not too long for the line and its body is
      supplied. */
  predicate RequestGoes(reg: Registry, b: Buf, w: WireRequest)
  {
    FineRequest(reg, w) && Kept(b, RequestFrameOf(reg, w))
  }

  /** Besides, headers and error text do not get into each other's place. */
  predicate ResponseGoes(reg: Registry, b: Buf, w: WireResponse)
  {
    && FineResponse(reg, w) && Kept(b, ResponseFrameOf(reg, w))
    && reg.BytesOf(w.Headers) + w.Error == w.Error + reg.BytesOf(w.Headers)
  }

  /** The start line that the decoder sees. */
  lemma LineSeen(f: Frame, kept: bool, rest: bytes)
    ensures var s := f.Sent(kept) + rest;
            |s| >= LINE && LineFrom(s) == if kept then f.line else LineFrom(Zeros(LINE))
  {
    var after := f.header + f.trailer + BodyBytes(f.body) + rest;
    if kept {
      assert f.Sent(kept) + rest == f.line.Bytes() + after;
      LineRoundTrip(f.line, after);
    } else {
      var s := f.Sent(kept) + rest;
      assert s == Zeros(LINE) + after;
      assert s[0..4] == Zeros(LINE)[0..4] && s[4..8] == Zeros(LINE)[4..8] && s[8..12] == Zeros(LINE)[8..12];
      assert s[12..20] == Zeros(LINE)[12..20] && s[20..28] == Zeros(LINE)[20..28];
    }
  }

  lemma IndexFits(reg: Registry, h: Option<Headers>)
    requires reg.Valid()
    ensures reg.Index(h) < 0x1_0000_0000 && (reg.BytesOf(h) != [] ==> reg.constructors[reg.Index(h)].Some?)
    ensures HeaderRead(reg, Low32(reg.Index(h)), Low32(|reg.BytesOf(h)|)) <= |reg.BytesOf(h)|
    ensures |reg.BytesOf(h)| >= 0x1_0000_0000 ==>
              HeaderRead(reg, Low32(reg.Index(h)), Low32(|reg.BytesOf(h)|)) < |reg.BytesOf(h)|
  {
  }

  /** What the encoder makes of a request decodes to just this request, with `rest` behind it. */
  predicate RequestDecodes(reg: Registry, b: Buf, w: WireRequest, rest: bytes)
    requires reg.Valid()
  {
    var f := RequestFrameOf(reg, w);
    ParseRequest(reg, f.Sent(Kept(b, f)) + rest)
      == Ok(Decoded(RequestArrives(reg, w), rest, |RequestHead(reg, w)|, |BodyBytes(w.Request.Body)|))
  }

  /** It does exactly when the frame goes, whatever follows it. */
  lemma RequestGoesExactlyWhen(reg: Registry, b: Buf, w: WireRequest, rest: bytes)
    requires reg.Valid()
    ensures RequestDecodes(reg, b, w, rest) <==> RequestGoes(reg, b, w)
  {
    var f := RequestFrameOf(reg, w);
    RequestFrameIs(reg, w);
    if RequestGoes(reg, b, w) {
      RequestRoundTrip(reg, w, rest);
    } else {
      LineSeen(f, Kept(b, f), rest);
      IndexFits(reg, w.Request.Headers);
      ZerosAreZero();
      RequestCounts(reg, f.Sent(Kept(b, f)) + rest);
    }
  }

  /** The head and body bytes that are counted are those the start line announces. */
  lemma RequestCounts(reg: Registry, s: bytes)
    requires reg.Valid() && |s| >= LINE
    ensures ParseRequest(reg, s).Ok? ==>
              var d, line := ParseRequest(reg, s).value, LineFrom(s);
              d.head == LINE + HeaderRead(reg, line.headerType, line.headerSize) && d.body == line.bodySize
  {
  }

  /** And the same for a response, which is decoded into a message without an error text. */
  predicate ResponseDecodes(reg: Registry, b: Buf, w: WireResponse, rest: bytes)
    requires reg.Valid()
  {
    var f := ResponseFrameOf(reg, w);
    ParseResponse(reg, [], f.Sent(Kept(b, f)) + rest)
      == Ok(Decoded(ResponseArrives(reg, w), rest, |ResponseHead(reg, w)|, |BodyBytes(w.Body)|))
  }

  lemma ResponseGoesExactlyWhen(reg: Registry, b: Buf, w: WireResponse, rest: bytes)
    requires reg.Valid()
    ensures ResponseDecodes(reg, b, w, rest) <==> ResponseGoes(reg, b, w)
  {
    var f := ResponseFrameOf(reg, w);
    if FineResponse(reg, w) && Kept(b, f) {
      ResponseRoundTripExactlyWhen(reg, w, rest);
    } else {
      LineSeen(f, Kept(b, f), rest);
      IndexFits(reg, w.Headers);
      ZerosAreZero();
      ResponseCounts(reg, f.Sent(Kept(b, f)) + rest);
    }
  }

  lemma ResponseCounts(reg: Registry, s: bytes)
    requires reg.Valid() && |s| >= LINE
    ensures ParseResponse(reg, [], s).Ok? ==>
              var d, line := ParseResponse(reg, [], s).value, LineFrom(s);
              && d.head == LINE + line.first + HeaderRead(reg, line.headerType, line.headerSize)
              && d.body == line.bodySize
  {
  }

  /** A body that is announced and has no reader: the first bytes of whatever follows are taken for
      it, and decoding goes on behind them. */
  lemma RequestWithoutReaderTakesTheNextBytes(reg: Registry, w: WireRequest, rest: bytes)
    requires reg.Valid() && |reg.BytesOf(w.Request.Headers)| < 0x1_0000_0000
    requires w.Request.Body.Reader.None? && w.Request.Body.Size <= |rest|
    ensures var n := w.Request.Body.Size;
            ParseRequest(reg, RequestFrame(reg, w) + rest)
              == Ok(Decoded(WireRequest(w.ID, ArrivingRequest(reg, w.Request).(Body := Body(n, Some(rest[..n])))),
                            rest[n..], |RequestHead(reg, w)|, n))
  {
    var line := LineOf(reg, w.Request.Service, w.ID, w.Request.Headers, w.Request.Body);
    assert RequestFrame(reg, w) + rest == line.Bytes() + (reg.BytesOf(w.Request.Headers) + rest);
    LineRoundTrip(line, reg.BytesOf(w.Request.Headers) + rest);
    HeadersArrive(reg, w.Request.Headers, rest);
  }

  lemma ResponseWithoutReaderTakesTheNextBytes(reg: Registry, w: WireResponse, rest: bytes)
    requires reg.Valid() && SmallHead(reg, w) && w.Error == []
    requires w.Body.Reader.None? && w.Body.Size <= |rest|
    ensures var n := w.Body.Size;
            ParseResponse(reg, [], ResponseFrame(reg, w) + rest)
              == Ok(Decoded(ResponseArrives(reg, w).(Body := Body(n, Some(rest[..n]))), rest[n..],
                            |ResponseHead(reg, w)|, n))
  {
    var line := LineOf(reg, |w.Error|, w.ID, w.Headers, w.Body);
    assert ResponseFrame(reg, w) + rest == line.Bytes() + (reg.BytesOf(w.Headers) + rest);
    LineRoundTrip(line, reg.BytesOf(w.Headers) + rest);
    HeadersArrive(reg, w.Headers, rest);
  }

  // ---- Sequences of frames ---------------------------------------------------------------

  function After(b: Buf, fs: seq<Frame>): Buf
    decreases |fs|
  {
    if fs == [] then b else After(Next(b, fs[0]), fs[1..])
  }

  predicate AllKept(b: Buf, fs: seq<Frame>)
    decreases |fs|
  {
    fs != [] ==> Kept(b, fs[0]) && AllKept(Next(b, fs[0]), fs[1..])
  }

  /** What the encoder makes of them. */
  function Sent(b: Buf, fs: seq<Frame>): bytes
    decreases |fs|
  {
    if fs == [] then [] else fs[0].Sent(Kept(b, fs[0])) + Sent(Next(b, fs[0]), fs[1..])
  }

  /** What it should. */
  function Whole(fs: seq<Frame>): bytes
  {
    if fs == [] then [] else fs[0].Sent(true) + Whole(fs[1..])
  }

  function Heads(fs: seq<Frame>): nat { if fs == [] then 0 else fs[0].Size() + Heads(fs[1..]) }

  function Bodies(fs: seq<Frame>): nat { if fs == [] then 0 else |BodyBytes(fs[0].body)| + Bodies(fs[1..]) }

  /** A frame with headers names their type, which is not zero. */
  predicate Tagged(f: Frame) { f.header != [] ==> f.line.headerType != 0 }

  lemma TaggedIsNotZeros(f: Frame)
    requires f.line.headerType != 0
    ensures f.line.Bytes() != Zeros(LINE)
  {
    LineRoundTrip(f.line, []);
    assert f.line.Bytes() + [] == f.line.Bytes();
    ZerosAreZero();
  }

  lemma ZerosAreZero()
    ensures LineFrom(Zeros(LINE)).headerType == 0
  {
    BigEndian.Get32OfPut32(0);
    assert BigEndian.Put32(0) == [0, 0, 0, 0] by { PutZero(); }
    assert Zeros(LINE)[4..8] == [0, 0, 0, 0];
  }

  lemma PutZero()
    ensures BigEndian.Put(0, 4) == [0, 0, 0, 0]
  {
    assert BigEndian.Put(0, 0) == [];
    assert BigEndian.Put(0, 1) == [0];
    assert BigEndian.Put(0, 2) == [0, 0];
    assert BigEndian.Put(0, 3) == [0, 0, 0];
  }

  /** The frames of a sequence of messages. */
  function RequestFrames(reg: Registry, ws: seq<WireRequest>): (fs: seq<Frame>)
    ensures |fs| == |ws|
  {
    seq(|ws|, i requires 0 <= i < |ws| => RequestFrameOf(reg, ws[i]))
  }

  function AnswerFrameOf(reg: Registry, a: Answer): Frame { ResponseFrameOf(reg, WireOf(a.id, ReplyOf(a.end))) }

  function AnswerFrames(reg: Registry, answers: seq<Answer>): (fs: seq<Frame>)
    ensures |fs| == |answers|
  {
    seq(|answers|, i requires 0 <= i < |answers| => AnswerFrameOf(reg, answers[i]))
  }

  lemma FramesAreTagged(reg: Registry, ws: seq<WireRequest>, answers: seq<Answer>)
    requires reg.Valid()
    ensures forall f :: f in RequestFrames(reg, ws) || f in AnswerFrames(reg, answers) ==> Tagged(f)
  {
  }

  lemma {:induction false} WholeIsRequestStream(reg: Registry, ws: seq<WireRequest>)
    ensures Whole(RequestFrames(reg, ws)) == RequestStream(reg, ws)
    ensures Heads(RequestFrames(reg, ws)) == RequestHeads(reg, ws)
    ensures Bodies(RequestFrames(reg, ws)) == RequestBodies(ws)
    decreases |ws|
  {
    if ws != [] {
      var fs := RequestFrames(reg, ws);
      RequestFrameIs(reg, ws[0]);
      assert fs[0] == RequestFrameOf(reg, ws[0]) && fs[1..] == RequestFrames(reg, ws[1..]);
      WholeIsRequestStream(reg, ws[1..]);
    }
  }

  lemma {:induction false} WholeIsResponseStream(reg: Registry, answers: seq<Answer>)
    ensures Whole(AnswerFrames(reg, answers)) == ResponseStream(reg, answers)
    ensures Heads(AnswerFrames(reg, answers)) == AnswerHeads(reg, answers)
    ensures Bodies(AnswerFrames(reg, answers)) == AnswerBodies(answers)
    decreases |answers|
  {
    if answers != [] {
      assert AnswerFrames(reg, answers)[1..] == AnswerFrames(reg, answers[1..]);
      WholeIsResponseStream(reg, answers[1..]);
    }
  }

  // ---- Lost start lines ------------------------------------------------------------------

  /** A buffer that has grown once is safe for every header that is not itself huge. */
  lemma LineKeptOnceGrown(capacity: nat, len: nat, header: nat)
    requires len < HEADER_BUFFER_SIZE && 2 * HEADER_BUFFER_SIZE <= capacity && header <= HEADER_BUFFER_SIZE - LINE
    ensures LineKept(capacity, len, header)
  {
  }

  /** In a fresh buffer the start line of a frame with a 32-byte header is lost exactly when
      between 4037 and 4068 bytes wait to be flushed. */
  lemma LineLostExactlyWhen(len: nat)
    requires len < HEADER_BUFFER_SIZE
    ensures !LineKept(HEADER_BUFFER_SIZE, len, 32) <==> 4036 < len <= 4068
  {
  }

  /** Storage stays, or at least doubles. */
  predicate Doubled(capacity: nat, capacity': nat) { capacity' == capacity || 2 * capacity <= capacity' }

  /** That happens after 145 requests without header and body; it cannot when all frames have
      a 32-byte header, in a fresh buffer or in one that has grown. */
  lemma LineCanBeLost(capacity: nat, k: nat)
    requires Doubled(HEADER_BUFFER_SIZE, capacity)
    ensures !LineKept(HEADER_BUFFER_SIZE, 145 * LINE, 32)
    ensures k * (LINE + 32) < HEADER_BUFFER_SIZE ==> LineKept(capacity, k * (LINE + 32), 32)
  {
    if k <= 67 {
      assert k * 60 <= 4020;
    } else {
      assert k * 60 >= 4080;
    }
  }

  /** Requests of a service whose headers all have 32 bytes lose no start line. */
  lemma {:induction false} ReadHeadersAreKept(b: Buf, fs: seq<Frame>, k: nat)
    requires forall f :: f in fs ==> |f.header| == 32 && f.trailer == []
    requires b.len == k * (LINE + 32) < HEADER_BUFFER_SIZE && Doubled(HEADER_BUFFER_SIZE, b.capacity)
    ensures AllKept(b, fs)
    decreases |fs|
  {
    if fs != [] {
      LineCanBeLost(b.capacity, k);
      LineCanBeLost(b.capacity, 0);
      assert fs[0] in fs;
      ReadHeadersAreKept(Next(b, fs[0]), fs[1..], if Flushes(b.len, fs[0]) then 0 else k + 1);
    }
  }

  /** Nor do frames whose headers, if they have any, come with a body. */
  lemma {:induction false} HeadersWithBodiesAreKept(b: Buf, fs: seq<Frame>)
    requires HEADER_BUFFER_SIZE <= b.capacity
    requires forall f :: f in fs ==> f.header == [] || (SentAtOnce(f.body) && |f.header| <= HEADER_BUFFER_SIZE - LINE)
    ensures AllKept(b, fs)
    decreases |fs|
  {
    if fs != [] {
      assert fs[0] in fs;
      HeadersWithBodiesAreKept(Next(b, fs[0]), fs[1..]);
    }
  }

  /** A stream is what it should be exactly when no start line was lost on the way. */
  lemma {:induction false} SentWholeExactlyWhen(b: Buf, fs: seq<Frame>)
    requires forall f :: f in fs ==> Tagged(f)
    ensures Sent(b, fs) == Whole(fs) <==> AllKept(b, fs)
    decreases |fs|
  {
    if fs != [] {
      var f, later := fs[0], fs[1..];
      assert Tagged(f);
      SentWholeExactlyWhen(Next(b, f), later);
      if Kept(b, f) {
        SamePrefix(f.Sent(true), Sent(Next(b, f), later), Whole(later));
      } else {
        TaggedIsNotZeros(f);
        LostLineShows(f, Sent(Next(b, f), later), Whole(later));
      }
    }
  }

  lemma SamePrefix(a: bytes, x: bytes, y: bytes)
    ensures a + x == a + y <==> x == y
  {
    assert (a + x)[|a|..] == x && (a + y)[|a|..] == y;
  }

  lemma LostLineShows(f: Frame, x: bytes, y: bytes)
    requires f.line.Bytes() != Zeros(LINE)
    ensures f.Sent(false) + x != f.Sent(true) + y
  {
    assert (f.Sent(false) + x)[..LINE] == Zeros(LINE);
    assert (f.Sent(true) + y)[..LINE] == f.line.Bytes();
  }

  // ---- What has reached the connection ----------------------------------------------------

  /** How many of the frames are on the wire to their last byte, when nothing else flushes. */
  function OnWire(len: nat, fs: seq<Frame>): (n: nat)
    ensures n <= |fs|
    decreases |fs|
  {
    if fs == [] then 0
    else
      var later := OnWire(Buffered(len, fs[0]), fs[1..]);
      if later > 0 || Flushes(len, fs[0]) then later + 1 else 0
  }

  /** Everything has arrived exactly when the last frame has a body or fills the buffer. */
  lemma {:induction false} AllOnWireExactlyWhen(b: Buf, fs: seq<Frame>)
    requires fs != []
    ensures OnWire(b.len, fs) == |fs| <==> Flushes(After(b, fs[..|fs| - 1]).len, fs[|fs| - 1])
    ensures OnWire(b.len, fs) == |fs| <==> After(b, fs).len == 0
    decreases |fs|
  {
    var later := fs[1..];
    if later == [] {
      assert fs[..0] == [];
    } else {
      AllOnWireExactlyWhen(Next(b, fs[0]), later);
      assert fs[..|fs| - 1][1..] == later[..|later| - 1];
    }
  }

  /** One frame more at the end. */
  lemma {:induction false} OneFrameMore(b: Buf, fs: seq<Frame>, f: Frame)
    ensures After(b, fs + [f]) == Next(After(b, fs), f)
    ensures OnWire(b.len, fs + [f]) == if Flushes(After(b, fs).len, f) then |fs| + 1 else OnWire(b.len, fs)
    decreases |fs|
  {
    if fs == [] {
      assert [f][1..] == [];
    } else {
      OneFrameMore(Next(b, fs[0]), fs[1..], f);
      assert (fs + [f])[1..] == fs[1..] + [f];
    }
  }

  /** The frames that are not on the wire have no body, and their heads are what waits. */
  lemma {:induction false} RestWaits(b: Buf, fs: seq<Frame>)
    ensures var k := OnWire(b.len, fs);
            && After(b, fs).len == (if k == 0 then b.len else 0) + Heads(fs[k..])
            && Bodies(fs[k..]) == 0
    decreases |fs|
  {
    if fs != [] {
      var k := OnWire(b.len, fs);
      RestWaits(Next(b, fs[0]), fs[1..]);
      if k == 0 {
        assert fs[0..] == fs && fs[1..][0..] == fs[1..];
      } else {
        assert fs[k..] == fs[1..][k - 1..];
      }
    }
  }

  /** The wire, when frames are encoded one after the other. */
  function Wire(w: bytes, framed: bytes, b: Buf, fs: seq<Frame>): bytes
    decreases |fs|
  {
    if fs == [] then w
    else
      var framed' := framed + fs[0].Sent(Kept(b, fs[0]));
      Wire(if Flushes(b.len, fs[0]) then framed' else w, framed', Next(b, fs[0]), fs[1..])
  }

  /** It ends with the last frame that flushed. */
  lemma {:induction false} WireEndsAtFlush(w: bytes, framed: bytes, b: Buf, fs: seq<Frame>)
    ensures var k := OnWire(b.len, fs);
            Wire(w, framed, b, fs) == if k == 0 then w else framed + Sent(b, fs[..k])
    decreases |fs|
  {
    if fs != [] {
      var k, f, later := OnWire(b.len, fs), fs[0], fs[1..];
      var framed' := framed + f.Sent(Kept(b, f));
      WireEndsAtFlush(if Flushes(b.len, f) then framed' else w, framed', Next(b, f), later);
      if k > 0 {
        assert fs[..k][0] == f && fs[..k][1..] == later[..k - 1];
        Joined(framed, f.Sent(Kept(b, f)), Sent(Next(b, f), later[..k - 1]));
        if k == 1 {
          assert later[..0] == [] && framed' + [] == framed';
          assert f.Sent(Kept(b, f)) + [] == f.Sent(Kept(b, f));
        }
      }
    }
  }
}
