/** Both ends of a connection: what one side encodes, what of it reaches the other, and what the
    other makes of that; the byte counts agree on what has arrived. */
module Connections {
  import opened Messages
  import opened WireFormat
  import opened Streams
  import opened Framing
  import opened Encoders
  import opened Decoders

  /** Bytes counted by the sender and by the receiver, and what the receiver has not read. */
  datatype Tally = Tally(headWritten: nat, bodyWritten: nat, headRead: nat, bodyRead: nat, left: bytes)

  /** Requests from the client's writer to the server's reader, once the flush timer has run
      off: they arrive if no start line is lost. */
  method RequestsAcross(reg: Registry, ws: seq<WireRequest>, ghost headerSize: nat, slots: nat)
      returns (got: seq<WireRequest>, tally: Tally)
    requires reg.Valid() && headerSize > 0 && slots > 0 && slots * headerSize == HEADER_BUFFER_SIZE
    requires Readable(reg, ws, headerSize) && AllKept(FRESH, RequestFrames(reg, ws))
    ensures |got| == |ws| && forall i :: 0 <= i < |ws| ==> got[i] == RequestArrives(reg, ws[i])
    ensures tally.headWritten == tally.headRead == RequestHeads(reg, ws)
    ensures tally.bodyWritten == tally.bodyRead == RequestBodies(ws)
    ensures tally.left == []
  {
    var wire;
    wire, tally := SendRequests(reg, ws);
    var d := new MessageDecoder(wire, headerSize, slots, HEADER_BUFFER_SIZE);
    got := ReadRequests(d, reg, ws);
    tally := tally.(headRead := d.headRead, bodyRead := d.bodyRead, left := d.r);
  }

  /** The client's side. */
  method SendRequests(reg: Registry, ws: seq<WireRequest>) returns (wire: bytes, tally: Tally)
    requires reg.Valid() && AllKept(FRESH, RequestFrames(reg, ws))
    requires forall w :: w in ws ==> Supplied(w.Request.Body)
    ensures wire == RequestStream(reg, ws)
    ensures tally == Tally(RequestHeads(reg, ws), RequestBodies(ws), 0, 0, [])
  {
    var e := new MessageEncoder(HEADER_BUFFER_SIZE);
    WriteRequests(e, reg, ws);
    RequestsAreSentExactlyWhen(reg, ws);
    WholeIsRequestStream(reg, ws);
    assert [] + RequestStream(reg, ws) == RequestStream(reg, ws);
    e.Flush();
    wire, tally := e.w, Tally(e.headWritten, e.bodyWritten, 0, 0, []);
  }

  /** And only if: what is on the wire then is the stream of their frames exactly when no start
      line is lost. */
  lemma RequestsAreSentExactlyWhen(reg: Registry, ws: seq<WireRequest>)
    requires reg.Valid()
    ensures Sent(FRESH, RequestFrames(reg, ws)) == RequestStream(reg, ws) <==> AllKept(FRESH, RequestFrames(reg, ws))
  {
    FramesAreTagged(reg, ws, []);
    SentWholeExactlyWhen(FRESH, RequestFrames(reg, ws));
    WholeIsRequestStream(reg, ws);
  }

  /** How many of a connection's answers reach the client, if no others follow. */
  function Arriving(reg: Registry, answers: seq<Answer>): (k: nat)
    ensures k <= |answers|
  {
    OnWire(0, AnswerFrames(reg, answers))
  }

  /** All of them exactly when there are none, or the last one has a body, or its head fills the
      buffer. */
  lemma AllArriveExactlyWhen(reg: Registry, answers: seq<Answer>)
    ensures Arriving(reg, answers) == |answers| <==>
              answers == []
              || var n := |answers| - 1;
                 Flushes(After(FRESH, AnswerFrames(reg, answers[..n])).len, AnswerFrameOf(reg, answers[n]))
  {
    if answers != [] {
      var n, fs := |answers| - 1, AnswerFrames(reg, answers);
      assert AnswerFrames(reg, answers[..n]) == fs[..n];
      AllOnWireExactlyWhen(FRESH, fs);
    }
  }

  /** An answer alone arrives exactly when it has a body or a head of 4096 bytes; an error or an
      empty response does not. */
  lemma LoneAnswerArrivesExactlyWhen(reg: Registry, a: Answer)
    ensures Arriving(reg, [a]) == 1 <==> Flushes(0, AnswerFrameOf(reg, a))
    ensures a.end.ReturnedError? ==> (Arriving(reg, [a]) == 1 <==> LINE + |a.end.text| >= HEADER_BUFFER_SIZE)
  {
    AllArriveExactlyWhen(reg, [a]);
    assert [a][..0] == [] && AnswerFrames(reg, []) == [];
  }

  /** Answers from the server's writer, which never flushes, to the client's reader: those up to
      the last one that flushed arrive, in order, and the counts of both sides agree on them; the
      others have no body, and their heads wait in the buffer. */
  method AnswersAcross(reg: Registry, answers: seq<Answer>, ghost headerSize: nat, slots: nat)
      returns (got: seq<WireResponse>, tally: Tally, waiting: nat)
    requires reg.Valid() && headerSize > 0 && slots > 0 && slots * headerSize == HEADER_BUFFER_SIZE
    requires ReadableAnswers(reg, answers, headerSize) && AllKept(FRESH, AnswerFrames(reg, answers))
    ensures |got| == Arriving(reg, answers)
    ensures forall i :: 0 <= i < |got| ==> IsAnswer(reg, answers[i], got[i])
    ensures tally.headWritten == tally.headRead == AnswerHeads(reg, answers[..|got|])
    ensures tally.bodyWritten == tally.bodyRead == AnswerBodies(answers)
    ensures tally.left == [] && waiting == AnswerHeads(reg, answers[|got|..])
  {
    var wire;
    wire, tally, waiting := SendAnswers(reg, answers);
    ghost var first := answers[..Arriving(reg, answers)];
    var d := new MessageDecoder(wire, headerSize, slots, HEADER_BUFFER_SIZE);
    got := ReadAnswers(d, reg, first);
    tally := tally.(headRead := d.headRead, bodyRead := d.bodyRead, left := d.r);
  }

  /** The server's side. */
  method SendAnswers(reg: Registry, answers: seq<Answer>) returns (wire: bytes, tally: Tally, waiting: nat)
    requires reg.Valid() && AllKept(FRESH, AnswerFrames(reg, answers))
    requires forall a :: a in answers ==> Supplied(AnswerFrameOf(reg, a).body)
    ensures var k := Arriving(reg, answers);
            && wire == ResponseStream(reg, answers[..k])
            && tally == Tally(AnswerHeads(reg, answers[..k]), AnswerBodies(answers[..k]), 0, 0, [])
            && AnswerBodies(answers[..k]) == AnswerBodies(answers)
            && waiting == AnswerHeads(reg, answers[k..])
  {
    var e := new MessageEncoder(HEADER_BUFFER_SIZE);
    WriteAnswers(e, reg, answers);
    WireIsPrefix(reg, answers);
    ghost var k := Arriving(reg, answers);
    assert [] + ResponseStream(reg, answers[..k]) == ResponseStream(reg, answers[..k]);
    assert answers[..0] == [];
    wire, tally, waiting := e.w, Tally(e.headWritten, e.bodyWritten, 0, 0, []), e.len;
  }

  /** What is on the wire are the whole frames of the answers that arrive. */
  lemma WireIsPrefix(reg: Registry, answers: seq<Answer>)
    requires reg.Valid() && AllKept(FRESH, AnswerFrames(reg, answers))
    ensures var k, fs := Arriving(reg, answers), AnswerFrames(reg, answers);
            && Sent(FRESH, fs[..k]) == ResponseStream(reg, answers[..k])
            && After(FRESH, fs).len == AnswerHeads(reg, answers[k..])
            && Heads(fs) == AnswerHeads(reg, answers[..k]) + AnswerHeads(reg, answers[k..])
            && Bodies(fs) == AnswerBodies(answers) == AnswerBodies(answers[..k])
  {
    var k, fs := Arriving(reg, answers), AnswerFrames(reg, answers);
    FramesOfParts(reg, answers, k);
    KeptPrefix(FRESH, fs, k);
    PrefixIsWhole(reg, answers[..k]);
    WholeIsResponseStream(reg, answers);
    WholeIsResponseStream(reg, answers[..k]);
    WholeIsResponseStream(reg, answers[k..]);
    RestWaits(FRESH, fs);
    CountsSplit(fs, k);
  }

  lemma FramesOfParts(reg: Registry, answers: seq<Answer>, k: nat)
    requires k <= |answers|
    ensures AnswerFrames(reg, answers[..k]) == AnswerFrames(reg, answers)[..k]
    ensures AnswerFrames(reg, answers[k..]) == AnswerFrames(reg, answers)[k..]
  {
  }

  lemma PrefixIsWhole(reg: Registry, answers: seq<Answer>)
    requires reg.Valid() && AllKept(FRESH, AnswerFrames(reg, answers))
    ensures Sent(FRESH, AnswerFrames(reg, answers)) == ResponseStream(reg, answers)
  {
    FramesAreTagged(reg, [], answers);
    SentWholeExactlyWhen(FRESH, AnswerFrames(reg, answers));
    WholeIsResponseStream(reg, answers);
  }

  lemma {:induction false} KeptPrefix(b: Buf, fs: seq<Frame>, k: nat)
    requires k <= |fs| && AllKept(b, fs)
    ensures AllKept(b, fs[..k])
    decreases k
  {
    if k > 0 {
      KeptPrefix(Next(b, fs[0]), fs[1..], k - 1);
      assert fs[..k][1..] == fs[1..][..k - 1];
    }
  }

  lemma {:induction false} CountsSplit(fs: seq<Frame>, k: nat)
    requires k <= |fs|
    ensures Heads(fs) == Heads(fs[..k]) + Heads(fs[k..]) && Bodies(fs) == Bodies(fs[..k]) + Bodies(fs[k..])
    decreases k
  {
    if k == 0 {
      assert fs[0..] == fs;
    } else {
      CountsSplit(fs[1..], k - 1);
      assert fs[..k][1..] == fs[1..][..k - 1] && fs[1..][k - 1..] == fs[k..];
    }
  }
}
