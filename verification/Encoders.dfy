/** The buffering encoder: heads of frames collect in a growing buffer, bodies go straight to
    the connection. A start line is written last, through a slice of the buffer's storage that
    was taken before the header was appended. */
module Encoders {
  import opened Messages
  import opened WireFormat
  import opened Streams
  import opened Framing

  lemma JoinedHead(before: bytes, line: bytes, header: bytes, trailer: bytes)
    ensures before + line + header + trailer == before + (line + header + trailer)
    ensures before + line + [] == before + line && before + line + header + [] == before + line + header
  {
  }

  /** Overwriting the placeholder. */
  lemma Patched(before: bytes, header: bytes, line: Line)
    ensures var unpatched := before + Zeros(LINE) + header;
            unpatched[..|before|] + line.Bytes() + unpatched[|before| + LINE..] == before + line.Bytes() + header
  {
    var unpatched := before + Zeros(LINE) + header;
    assert unpatched[..|before|] == before && unpatched[|before| + LINE..] == header;
  }

  lemma Overwritten(was: bytes, now: bytes, at: nat, p: bytes, len: nat)
    requires at + |p| <= len <= |was| && now == was[..at] + p + was[at + |p|..]
    ensures now[..len] == was[..len][..at] + p + was[..len][at + |p|..]
  {
  }

  class MessageEncoder {
    /** What has been written to the connection. */
    var w: bytes
    var buf: array<byte>
    var len: nat
    var headWritten: nat
    var bodyWritten: nat
    /** All frames so far, in the order of the calls. */
    ghost var framed: bytes

    /** The wire followed by the buffer is the sequence of all frames: nothing is lost, and no
        body has overtaken an earlier head. */
    ghost predicate Valid()
      reads this, buf
    {
      && len <= buf.Length && HEADER_BUFFER_SIZE <= buf.Length
      && w + buf[..len] == framed
      && |w| == headWritten + bodyWritten
    }

    constructor (capacity: nat)
      requires HEADER_BUFFER_SIZE <= capacity
      ensures Valid() && fresh(buf) && buf.Length == capacity && len == 0
      ensures w == [] && framed == [] && headWritten == bodyWritten == 0
    {
      w, buf, len := [], new byte[capacity](_ => 0), 0;
      headWritten, bodyWritten, framed := 0, 0, [];
    }

    method Flush()
      requires Valid()
      modifies this
      ensures Valid() && len == 0 && buf == old(buf) && framed == old(framed)
      ensures w == framed
      ensures headWritten == old(headWritten) + old(len) && bodyWritten == old(bodyWritten)
    {
      if len == 0 {
        return;
      }
      w := w + buf[..len];
      headWritten := headWritten + len;
      len := 0;
    }

    /** bytes.Buffer.Write. */
    method Append(p: bytes)
      requires len <= buf.Length
      modifies this`buf, this`len, buf
      ensures len == old(len) + |p| <= buf.Length
      ensures buf[..len] == old(buf[..len]) + p
      ensures buf.Length == Room(old(buf.Length), old(len), |p|)
      ensures if old(len) + |p| <= old(buf.Length) then buf == old(buf) else fresh(buf) && old(buf[..]) == old(buf)[..]
    {
      if len + |p| > buf.Length {
        var store := buf[..len];
        buf := new byte[Room(buf.Length, len, |p|)](i => if 0 <= i < |store| then store[i] else 0);
        assert buf[..len] == store;
      }
      forall i | 0 <= i < |p| { buf[len + i] := p[i]; }
      len := len + |p|;
      assert buf[..len] == old(buf[..len]) + p;
    }

    /** Placeholder and header; `slice` is the storage when the placeholder was there. */
    method AppendBlank(header: bytes) returns (slice: array<byte>)
      requires len <= buf.Length
      modifies this`buf, this`len, buf
      ensures (buf == old(buf) || fresh(buf)) && (slice == old(buf) || fresh(slice))
      ensures len == old(len) + LINE + |header| <= buf.Length && old(len) + LINE <= slice.Length
      ensures buf.Length == Room(Room(old(buf.Length), old(len), LINE), old(len) + LINE, |header|)
      ensures slice == buf <==> LineKept(old(buf.Length), old(len), |header|)
      ensures buf[..len] == old(buf[..len]) + Zeros(LINE) + header
    {
      ghost var before := buf[..len];
      Append(Zeros(LINE));
      slice := buf;
      if header != [] {
        Append(header);
      } else {
        assert buf[..len] + [] == buf[..len];
      }
    }

    /** Placeholder, header, start line through the old slice. */
    method AppendStart(line: Line, header: bytes)
      requires len <= buf.Length
      modifies this`buf, this`len, buf
      ensures buf == old(buf) || fresh(buf)
      ensures len == old(len) + LINE + |header| <= buf.Length
      ensures buf.Length == Room(Room(old(buf.Length), old(len), LINE), old(len) + LINE, |header|)
      ensures buf[..len]
           == old(buf[..len]) + HeadSent(LineKept(old(buf.Length), old(len), |header|), line, header, [])
    {
      var at := len;
      ghost var before := buf[..len];
      var slice := AppendBlank(header);
      ghost var storage := buf[..];
      Overwrite(slice, at, line.Bytes());
      ghost var sent := if slice == buf then line.Bytes() else Zeros(LINE);
      Patched(before, header, line);
      if slice == buf {
        Overwritten(storage, buf[..], at, line.Bytes(), len);
        assert buf[..len] == buf[..][..len] && storage[..len] == before + Zeros(LINE) + header;
      }
      JoinedHead(before, sent, header, []);
    }

    /** The start, and the trailer behind it: an error text or nothing. */
    method AppendHead(line: Line, header: bytes, trailer: bytes)
      requires len <= buf.Length
      modifies this`buf, this`len, buf
      ensures buf == old(buf) || fresh(buf)
      ensures len == old(len) + LINE + |header| + |trailer| <= buf.Length
      ensures buf.Length == Grown(old(buf.Length), old(len), |header|, |trailer|)
      ensures buf[..len]
           == old(buf[..len]) + HeadSent(LineKept(old(buf.Length), old(len), |header|), line, header, trailer)
    {
      ghost var before := buf[..len];
      ghost var kept := LineKept(buf.Length, len, |header|);
      AppendStart(line, header);
      Joined(before, HeadSent(kept, line, header, []), trailer);
      assert HeadSent(kept, line, header, []) + trailer == HeadSent(kept, line, header, trailer);
      assert trailer == [] ==> HeadSent(kept, line, header, []) == HeadSent(kept, line, header, trailer);
      if trailer != [] {
        Append(trailer);
      }
    }

    /** encode: the body, after everything that is buffered. */
    method EncodeBody(body: Body) returns (ok: bool)
      requires Valid() && len < HEADER_BUFFER_SIZE
      modifies this
      ensures ok <==> Supplied(body)
      ensures ok ==> Valid() && len < HEADER_BUFFER_SIZE && framed == old(framed) + BodyBytes(body)
      ensures ok ==> if SentAtOnce(body) then len == 0 && w == framed else len == old(len) && w == old(w)
      ensures ok ==> headWritten + len == old(headWritten + len)
      ensures ok ==> bodyWritten == old(bodyWritten) + |BodyBytes(body)|
      ensures buf == old(buf)
    {
      ok := true;
      if body.Size != 0 && body.Reader.Some? {
        Flush();
        if body.Size >= SIZES {
          return;
        }
        var supply := body.Reader.value;
        if |supply| < body.Size {
          w := w + supply;
          return false;
        }
        w := w + supply[..body.Size];
        bodyWritten := bodyWritten + body.Size;
        framed := framed + supply[..body.Size];
      }
    }

    ghost function Buffer(): Buf
      reads this
    {
      Buf(buf.Length, len)
    }

    /** The common part of EncodeRequest and EncodeResponse. */
    method Encode(f: Frame) returns (ok: bool)
      requires Valid() && len < HEADER_BUFFER_SIZE
      modifies this, buf
      ensures buf == old(buf) || fresh(buf)
      ensures ok <==> Supplied(f.body)
      ensures ok ==> Encoded(f, old(Buffer()), old(w), old(framed), old(headWritten), old(bodyWritten))
    {
      if f.body.Size > 0 && f.body.Reader.Some? {
        Flush();
      }
      ghost var kept := LineKept(buf.Length, len, |f.header|);
      ghost var head := HeadSent(kept, f.line, f.header, f.trailer);
      ghost var buffered := buf[..len];
      AppendHead(f.line, f.header, f.trailer);
      Joined(w, buffered, head);
      framed := framed + head;
      if len >= HEADER_BUFFER_SIZE {
        Flush();
      }
      ok := EncodeBody(f.body);
      Joined(old(framed), head, BodyBytes(f.body));
    }

    /** One frame more: behind the others, with its start line or without; the buffer and the
        wire as the frame leaves them; and every byte counted. */
    ghost predicate Encoded(f: Frame, b: Buf, w0: bytes, framed0: bytes, heads: nat, bodies: nat)
      reads this, buf
    {
      && Valid() && len < HEADER_BUFFER_SIZE
      && Buffer() == Framing.Next(b, f)
      && framed == framed0 + f.Sent(Kept(b, f))
      && w == (if Flushes(b.len, f) then framed else w0)
      && headWritten + len == heads + b.len + f.Size()
      && bodyWritten == bodies + |BodyBytes(f.body)|
    }

    method EncodeRequest(reg: Registry, req: WireRequest) returns (ok: bool)
      requires Valid() && len < HEADER_BUFFER_SIZE
      modifies this, buf
      ensures buf == old(buf) || fresh(buf)
      ensures ok <==> Supplied(req.Request.Body)
      ensures ok ==> Encoded(RequestFrameOf(reg, req), old(Buffer()), old(w), old(framed), old(headWritten),
                old(bodyWritten))
      ensures ok && Kept(old(Buffer()), RequestFrameOf(reg, req)) ==> framed == old(framed) + RequestFrame(reg, req)
    {
      RequestFrameIs(reg, req);
      ok := Encode(RequestFrameOf(reg, req));
    }

    method EncodeResponse(reg: Registry, resp: WireResponse) returns (ok: bool)
      requires Valid() && len < HEADER_BUFFER_SIZE
      modifies this, buf
      ensures buf == old(buf) || fresh(buf)
      ensures ok <==> Supplied(resp.Body)
      ensures ok ==> Encoded(ResponseFrameOf(reg, resp), old(Buffer()), old(w), old(framed), old(headWritten),
                old(bodyWritten))
      ensures ok && Kept(old(Buffer()), ResponseFrameOf(reg, resp)) ==> framed == old(framed) + ResponseFrame(reg, resp)
    {
      ok := Encode(ResponseFrameOf(reg, resp));
    }
  }

  /** Writing through a slice taken earlier. */
  method Overwrite(slice: array<byte>, at: nat, p: bytes)
    requires at + |p| <= slice.Length
    modifies slice
    ensures slice[..] == old(slice[..at]) + p + old(slice[at + |p|..])
  {
    forall i | 0 <= i < |p| { slice[at + i] := p[i]; }
    assert slice[..] == old(slice[..at]) + p + old(slice[at + |p|..]);
  }

  // ---- The writers' loops ----------------------------------------------------------------

  /** An encoder that has taken the first `i` of the frames, seen from its end: encoding the others
      will leave it as encoding all of them does. */
  ghost predicate Underway(e: MessageEncoder, fs: seq<Frame>, i: nat, b: Buf, w: bytes, framed: bytes, heads: nat,
      bodies: nat)
    requires i <= |fs|
    reads e, e.buf
  {
    && e.Valid() && e.len < HEADER_BUFFER_SIZE
    && After(e.Buffer(), fs[i..]) == After(b, fs)
    && e.framed + Sent(e.Buffer(), fs[i..]) == framed + Sent(b, fs)
    && Wire(e.w, e.framed, e.Buffer(), fs[i..]) == Wire(w, framed, b, fs)
    && e.headWritten + e.len + Heads(fs[i..]) == heads + b.len + Heads(fs)
    && e.bodyWritten + Bodies(fs[i..]) == bodies + Bodies(fs)
  }

  /** Encoding the next frame. */
  lemma OneMore(e: MessageEncoder, fs: seq<Frame>, i: nat, b0: Buf, w0: bytes, framed0: bytes, heads0: nat,
                bodies0: nat, b: Buf, w: bytes, framed: bytes, heads: nat, bodies: nat)
    requires i < |fs| && e.Encoded(fs[i], b, w, framed, heads, bodies)
    requires After(b, fs[i..]) == After(b0, fs) && framed + Sent(b, fs[i..]) == framed0 + Sent(b0, fs)
    requires Wire(w, framed, b, fs[i..]) == Wire(w0, framed0, b0, fs)
    requires heads + b.len + Heads(fs[i..]) == heads0 + b0.len + Heads(fs)
    requires bodies + Bodies(fs[i..]) == bodies0 + Bodies(fs)
    ensures Underway(e, fs, i + 1, b0, w0, framed0, heads0, bodies0)
  {
    assert fs[i..][0] == fs[i] && fs[i..][1..] == fs[i + 1..];
    Joined(framed, fs[i].Sent(Kept(b, fs[i])), Sent(Framing.Next(b, fs[i]), fs[i + 1..]));
  }

  /** What a writer leaves behind: all frames in order, each with its start line or without, and
      of them on the wire what goes up to the last one that flushed. */
  ghost predicate Written(e: MessageEncoder, fs: seq<Frame>, b: Buf, w: bytes, framed: bytes, heads: nat, bodies: nat)
    reads e, e.buf
  {
    && e.Valid() && e.len < HEADER_BUFFER_SIZE
    && e.Buffer() == After(b, fs)
    && e.framed == framed + Sent(b, fs)
    && e.w == (var k := OnWire(b.len, fs); if k == 0 then w else framed + Sent(b, fs[..k]))
    && e.headWritten + e.len == heads + b.len + Heads(fs)
    && e.bodyWritten == bodies + Bodies(fs)
  }

  lemma AtEnd(e: MessageEncoder, fs: seq<Frame>, b: Buf, w: bytes, framed: bytes, heads: nat, bodies: nat)
    requires Underway(e, fs, |fs|, b, w, framed, heads, bodies)
    ensures Written(e, fs, b, w, framed, heads, bodies)
  {
    assert fs[|fs|..] == [] && e.framed + [] == e.framed;
    WireEndsAtFlush(w, framed, b, fs);
  }

  /** The loop of the client's writer over its requests. */
  method WriteRequests(e: MessageEncoder, reg: Registry, ws: seq<WireRequest>)
    requires e.Valid() && e.len < HEADER_BUFFER_SIZE
    requires forall i :: 0 <= i < |ws| ==> Supplied(ws[i].Request.Body)
    modifies e, e.buf
    ensures Written(e, RequestFrames(reg, ws), old(e.Buffer()), old(e.w), old(e.framed), old(e.headWritten),
              old(e.bodyWritten))
  {
    ghost var fs := RequestFrames(reg, ws);
    assert fs[0..] == fs;
    for i := 0 to |ws|
      invariant e.buf == old(e.buf) || fresh(e.buf)
      invariant Underway(e, fs, i, old(e.Buffer()), old(e.w), old(e.framed), old(e.headWritten), old(e.bodyWritten))
    {
      ghost var b, w, framed, heads, bodies := e.Buffer(), e.w, e.framed, e.headWritten, e.bodyWritten;
      var ok := e.EncodeRequest(reg, ws[i]);
      OneMore(e, fs, i, old(e.Buffer()), old(e.w), old(e.framed), old(e.headWritten), old(e.bodyWritten), b, w,
          framed, heads, bodies);
    }
    AtEnd(e, fs, old(e.Buffer()), old(e.w), old(e.framed), old(e.headWritten), old(e.bodyWritten));
  }

  /** The loop of the server's writer over the messages it takes from its channel. One wire
      message is reused for all of them; body and header are cleared after each. Nothing is
      flushed but by a body or a full buffer. */
  method WriteAnswers(e: MessageEncoder, reg: Registry, answers: seq<Answer>)
    requires e.Valid() && e.len < HEADER_BUFFER_SIZE
    requires forall i :: 0 <= i < |answers| ==> Supplied(AnswerFrameOf(reg, answers[i]).body)
    modifies e, e.buf
    ensures Written(e, AnswerFrames(reg, answers), old(e.Buffer()), old(e.w), old(e.framed), old(e.headWritten),
              old(e.bodyWritten))
  {
    ghost var fs := AnswerFrames(reg, answers);
    var wr := WireResponse(0, None, NO_BODY, []);
    assert fs[0..] == fs;
    for i := 0 to |answers|
      invariant e.buf == old(e.buf) || fresh(e.buf)
      invariant wr.Headers == None && wr.Body == NO_BODY
      invariant Underway(e, fs, i, old(e.Buffer()), old(e.w), old(e.framed), old(e.headWritten), old(e.bodyWritten))
    {
      ghost var b, w, framed, heads, bodies := e.Buffer(), e.w, e.framed, e.headWritten, e.bodyWritten;
      var m := ReplyOf(answers[i].end);
      wr := wr.(ID := answers[i].id, Error := m.error);
      if m.response.Some? {
        wr := wr.(Body := m.response.value.Body, Headers := m.response.value.Headers);
      }
      assert wr == WireOf(answers[i].id, m);
      var ok := e.EncodeResponse(reg, wr);
      OneMore(e, fs, i, old(e.Buffer()), old(e.w), old(e.framed), old(e.headWritten), old(e.bodyWritten), b, w,
          framed, heads, bodies);
      wr := wr.(Body := NO_BODY, Headers := None);
    }
    AtEnd(e, fs, old(e.Buffer()), old(e.w), old(e.framed), old(e.headWritten), old(e.bodyWritten));
  }
}
