/** How the jnet client gets the bodies of a batch of responses: the stream is read into
    chunks of 4 MiB, and each response's slice is carved out of them. */
module JnetBodies {
  import opened Messages
  import opened JnetWire

  const CHUNK := 0x40_0000

  /** Where the body of response `i` starts in the stream of bodies. */
  function Offset(lens: seq<nat>, i: nat): nat
    requires i <= |lens|
  {
    if i == 0 then 0 else Offset(lens, i - 1) + lens[i - 1]
  }

  lemma {:induction false} OffsetGrows(lens: seq<nat>, i: nat, j: nat)
    requires i <= j <= |lens|
    ensures Offset(lens, i) <= Offset(lens, j)
    decreases j
  {
    if i < j {
      OffsetGrows(lens, i, j - 1);
    }
  }

  /** Pooled buffers of 4 MiB that hold the data one after the other; what lies behind the
      data in the last one is left over from an earlier use. */
  ghost predicate Chunked(chunks: seq<bytes>, data: bytes)
  {
    && |data| <= |chunks| * CHUNK < |data| + CHUNK
    && forall i :: 0 <= i < |chunks| ==>
         |chunks[i]| == CHUNK && i * CHUNK < |data|
         && chunks[i][..Min(CHUNK, |data| - i * CHUNK)] == data[i * CHUNK..i * CHUNK + Min(CHUNK, |data| - i * CHUNK)]
  }

  lemma SubSlice(s: bytes, t: bytes, a: nat, off: nat, n: nat, m: nat)
    requires off + n <= m <= |t| && a + m <= |s| && t[..m] == s[a..a + m]
    ensures t[off..off + n] == s[a + off..a + off + n]
  {
    forall k | off <= k < off + n ensures t[k] == s[a + k] {
      assert t[..m][k] == s[a..a + m][k];
    }
  }

  /** A slice of one chunk is the slice of the data at the same place. */
  lemma SliceOfChunk(chunks: seq<bytes>, data: bytes, i: nat, off: nat, n: nat)
    requires Chunked(chunks, data) && off + n <= CHUNK && 0 < n && i * CHUNK + off + n <= |data|
    ensures i < |chunks| && |chunks[i]| == CHUNK
    ensures chunks[i][off..off + n] == data[i * CHUNK + off..i * CHUNK + off + n]
  {
    SubSlice(data, chunks[i], i * CHUNK, off, n, Min(CHUNK, |data| - i * CHUNK));
  }

  /** Reading `bodyLen` bytes of the connection into chunks. */
  method Fetch(stream: bytes, bodyLen: nat) returns (chunks: seq<bytes>, stream': bytes)
    requires bodyLen <= |stream|
    ensures Chunked(chunks, stream[..bodyLen]) && stream' == stream[bodyLen..]
  {
    chunks, stream' := [], stream;
    var left := bodyLen;
    ghost var data := stream[..bodyLen];
    while left > 0
      invariant 0 <= left <= bodyLen && stream' == stream[bodyLen - left..]
      invariant if left > 0 then |chunks| * CHUNK == bodyLen - left
                else bodyLen <= |chunks| * CHUNK < bodyLen + CHUNK
      invariant forall i :: 0 <= i < |chunks| ==>
                  |chunks[i]| == CHUNK && i * CHUNK < bodyLen
                  && chunks[i][..Min(CHUNK, bodyLen - i * CHUNK)]
                       == data[i * CHUNK..i * CHUNK + Min(CHUNK, bodyLen - i * CHUNK)]
    {
      var n := Min(left, CHUNK);
      var leftOver := PooledBuffer();
      var buf := stream'[..n] + leftOver[n..];
      ghost var k := |chunks|;
      assert stream' == stream[k * CHUNK..];
      assert stream'[..n] == stream[k * CHUNK..k * CHUNK + n];
      assert buf[..n] == data[k * CHUNK..k * CHUNK + n];
      stream' := stream'[n..];
      chunks := chunks + [buf];
      left := left - n;
    }
  }

  /** Whatever the pool hands out. */
  method PooledBuffer() returns (buf: bytes)
    ensures |buf| == CHUNK
  {
    var b: byte :| true;
    buf := seq(CHUNK, _ => b);
  }

  /** What becomes of a body of so many bytes when `off` bytes of a chunk are used: it is a slice of
      the chunk; it is assembled from two chunks and then dropped, so that the pooled response keeps
      whatever body it had before; or slicing the second chunk goes past its end. Without content
      the loop panics itself. */
  datatype Fate = Stored | Spans | Panics

  function FateAt(off: nat, len: nat): Fate
  {
    if len == 0 then Panics else if off + len <= CHUNK then Stored else if off + len <= 2 * CHUNK then Spans else Panics
  }

  /** How much of the chunk at hand is used afterwards. */
  function Used(off: nat, len: nat): nat
  {
    if off + len > CHUNK then off + len - CHUNK else if off + len == CHUNK then 0 else off + len
  }

  /** And when the loop comes to response `i`. */
  function Off(lens: seq<nat>, i: nat): nat
    requires i <= |lens|
  {
    if i == 0 then 0 else Used(Off(lens, i - 1), lens[i - 1])
  }

  function FateOf(lens: seq<nat>, i: nat): Fate
    requires i < |lens|
  {
    FateAt(Off(lens, i), lens[i])
  }

  /** As long as no body is longer than a chunk, that is where it starts modulo 4 MiB; so a body is
      stored exactly when this and its length come to at most 4 MiB. */
  lemma {:induction false} OffIsOffset(lens: seq<nat>, i: nat)
    requires i <= |lens| && forall j :: 0 <= j < i ==> lens[j] <= CHUNK
    ensures Off(lens, i) < CHUNK && Off(lens, i) == Offset(lens, i) % CHUNK
  {
    if i > 0 {
      OffIsOffset(lens, i - 1);
      NextOff(Off(lens, i - 1), Offset(lens, i - 1), lens[i - 1]);
    }
  }

  lemma NextOff(off: nat, at: nat, len: nat)
    requires off == at % CHUNK && len <= CHUNK
    ensures Used(off, len) == (at + len) % CHUNK
  {
    var q := at / CHUNK;
    assert at + len == q * CHUNK + (off + len);
  }

  /** And then only a body without content makes the loop panic. */
  lemma SmallBodiesDoNotPanic(lens: seq<nat>, i: nat)
    requires i < |lens| && forall j :: 0 <= j <= i ==> lens[j] <= CHUNK
    ensures FateOf(lens, i).Panics? <==> lens[i] == 0
    ensures FateOf(lens, i).Stored? <==> lens[i] > 0 && Offset(lens, i) % CHUNK + lens[i] <= CHUNK
  {
    OffIsOffset(lens, i);
  }

  lemma {:induction false} OffInChunk(lens: seq<nat>, i: nat)
    requires i <= |lens| && forall j :: 0 <= j < i ==> !FateOf(lens, j).Panics?
    ensures Off(lens, i) <= CHUNK
  {
    if i > 0 {
      OffInChunk(lens, i - 1);
      assert !FateOf(lens, i - 1).Panics?;
    }
  }

  /** A body as the loop sees it, and whether it became the response's. */
  datatype Carved = Carved(body: bytes, stored: bool)

  /** One turn of the carving loop, on a response that does not make it panic. */
  method CarveOne(len: nat, chunks: seq<bytes>, off: nat, bodyIdx: nat, ghost data: bytes, ghost at: nat)
      returns (carved: Carved, off': nat, bodyIdx': nat)
    requires Chunked(chunks, data) && off <= CHUNK && !FateAt(off, len).Panics?
    requires bodyIdx * CHUNK + off == at && at + len <= |data|
    ensures carved == Carved(data[at..at + len], FateAt(off, len).Stored?)
    ensures off' == Used(off, len) && bodyIdx' * CHUNK + off' == at + len
  {
    off', bodyIdx' := off, bodyIdx;
    if off + len <= CHUNK {
      SliceOfChunk(chunks, data, bodyIdx, off, len);
      carved := Carved(chunks[bodyIdx][off..off + len], true);
      off' := off + len;
      if off' == CHUNK {
        off', bodyIdx' := 0, bodyIdx + 1;
      }
    } else {
      var n := CHUNK - off;
      var buf := RestOfChunk(chunks, off, bodyIdx, data, at);
      SliceOfChunk(chunks, data, bodyIdx + 1, 0, len - n);
      bodyIdx' := bodyIdx + 1;
      buf := buf + chunks[bodyIdx'][..len - n];
      off' := len - n;
      InTwoParts(data, at, n, len);
      carved := Carved(buf, false);
    }
  }

  lemma InTwoParts(s: bytes, at: nat, n: nat, len: nat)
    requires n <= len && at + len <= |s|
    ensures s[at..at + len] == s[at..at + n] + s[at + n..at + len]
  {
  }

  method RestOfChunk(chunks: seq<bytes>, off: nat, bodyIdx: nat, ghost data: bytes, ghost at: nat) returns (buf: bytes)
    requires Chunked(chunks, data) && off <= CHUNK
    requires bodyIdx * CHUNK + off == at && at + (CHUNK - off) < |data|
    ensures buf == data[at..at + (CHUNK - off)]
  {
    assert bodyIdx < |chunks| && |chunks[bodyIdx]| == CHUNK;
    if off < CHUNK {
      SliceOfChunk(chunks, data, bodyIdx, off, CHUNK - off);
    }
    buf := chunks[bodyIdx][off..];
  }

  /** What carving should give for response `i`. */
  function Share(lens: seq<nat>, data: bytes, i: nat): Carved
    requires i < |lens| && Offset(lens, i + 1) <= |data|
  {
    Carved(data[Offset(lens, i)..Offset(lens, i + 1)], FateOf(lens, i).Stored?)
  }

  ghost predicate IsShare(lens: seq<nat>, data: bytes, i: nat, carved: Carved)
    requires i < |lens|
  {
    Offset(lens, i + 1) <= |data| && carved == Share(lens, data, i)
  }

  /** How many responses the loop is done with when it ends or panics. */
  predicate Reaches(lens: seq<nat>, k: nat)
  {
    k <= |lens| && (forall j :: 0 <= j < k ==> !FateOf(lens, j).Panics?) && (k < |lens| ==> FateOf(lens, k).Panics?)
  }

  /** The carving loop. It goes on to the first response that makes it panic; up to there every body
      is its slice of the data, stored or not. No chunk is missing. */
  method Carve(lens: seq<nat>, chunks: seq<bytes>, ghost data: bytes) returns (bodies: seq<Carved>, panicked: bool)
    requires Chunked(chunks, data) && |data| == Offset(lens, |lens|)
    ensures Reaches(lens, |bodies|) && (panicked <==> |bodies| < |lens|)
    ensures forall i :: 0 <= i < |bodies| ==> IsShare(lens, data, i, bodies[i])
  {
    var off: nat, bodyIdx: nat := 0, 0;
    bodies, panicked := [], false;
    for i := 0 to |lens|
      invariant |bodies| == i && off == Off(lens, i) <= CHUNK && bodyIdx * CHUNK + off == Offset(lens, i)
      invariant forall j :: 0 <= j < i ==> !FateOf(lens, j).Panics?
      invariant forall j :: 0 <= j < i ==> IsShare(lens, data, j, bodies[j])
    {
      OffsetGrows(lens, i + 1, |lens|);
      assert Offset(lens, i + 1) == Offset(lens, i) + lens[i];
      if off + lens[i] > 2 * CHUNK || lens[i] == 0 {
        return bodies, true;
      }
      var carved;
      carved, off, bodyIdx := CarveOne(lens[i], chunks, off, bodyIdx, data, Offset(lens, i));
      assert IsShare(lens, data, i, carved);
      var more := bodies + [carved];
      assert more[..i] == bodies && more[i] == carved;
      bodies := more;
    }
  }

  // ---- A whole batch of responses on the client's side --------------------------------------

  function Lengths(rs: seq<Resp>): seq<nat> { seq(|rs|, i requires 0 <= i < |rs| => |RespBody(rs[i])|) }

  lemma {:induction false} SplitBodies(a: seq<Resp>, b: seq<Resp>)
    ensures RespBodies(a + b) == RespBodies(a) + RespBodies(b)
  {
    if a == [] {
      assert a + b == b;
    } else {
      SplitBodies(a[1..], b);
      var s := a + b;
      assert s[0] == a[0] && s[1..] == a[1..] + b;
      Joined(RespBody(a[0]), RespBodies(a[1..]), RespBodies(b));
    }
  }

  /** The announced lengths are the lengths of the bodies that follow. */
  lemma {:induction false} OffsetIsLength(rs: seq<Resp>, i: nat)
    requires i <= |rs|
    ensures Offset(Lengths(rs), i) == |RespBodies(rs[..i])|
  {
    if i > 0 {
      OffsetIsLength(rs, i - 1);
      assert rs[..i] == rs[..i - 1] + [rs[i - 1]];
      LastBody(rs[..i - 1], rs[i - 1]);
    }
  }

  lemma LastBody(rs: seq<Resp>, r: Resp)
    ensures RespBodies(rs + [r]) == RespBodies(rs) + RespBody(r)
  {
    SplitBodies(rs, [r]);
    assert [r][1..] == [];
  }

  lemma ShareIsBody(rs: seq<Resp>, i: nat)
    requires i < |rs|
    ensures Offset(Lengths(rs), i + 1) <= |RespBodies(rs)| == Offset(Lengths(rs), |rs|)
    ensures Share(Lengths(rs), RespBodies(rs), i).body == RespBody(rs[i])
  {
    WholeLength(rs);
    SliceIsBody(rs, i, Offset(Lengths(rs), i), Offset(Lengths(rs), i + 1));
  }

  lemma SliceIsBody(rs: seq<Resp>, i: nat, from: nat, to: nat)
    requires i < |rs| && from == Offset(Lengths(rs), i) && to == Offset(Lengths(rs), i + 1)
    ensures from <= to <= |RespBodies(rs)| && RespBodies(rs)[from..to] == RespBody(rs[i])
  {
    NextOffset(rs, i);
    OffsetIsLength(rs, i);
    BodyInPlace(rs, i, from);
  }

  lemma NextOffset(rs: seq<Resp>, i: nat)
    requires i < |rs|
    ensures Offset(Lengths(rs), i + 1) == Offset(Lengths(rs), i) + |RespBody(rs[i])|
  {
  }

  lemma BodyInPlace(rs: seq<Resp>, i: nat, from: nat)
    requires i < |rs| && from == |RespBodies(rs[..i])|
    ensures from + |RespBody(rs[i])| <= |RespBodies(rs)|
    ensures RespBodies(rs)[from..from + |RespBody(rs[i])|] == RespBody(rs[i])
  {
    var front, back := rs[..i], rs[i..];
    assert front + back == rs && back[0] == rs[i];
    SplitBodies(front, back);
    FirstBody(back);
    Middle(RespBodies(rs), RespBodies(front), RespBody(rs[i]), RespBodies(back[1..]));
  }

  lemma FirstBody(rs: seq<Resp>)
    requires rs != []
    ensures RespBodies(rs) == RespBody(rs[0]) + RespBodies(rs[1..])
  {
  }

  lemma Middle(s: bytes, a: bytes, b: bytes, c: bytes)
    requires s == a + (b + c)
    ensures s[|a|..|a| + |b|] == b
  {
  }

  /** What the server's flush puts on the wire: the descriptor, the headers, the bodies. */
  function RespBatch(rs: seq<Resp>): bytes
    requires (forall r :: r in rs ==> FineResp(r)) && |RespHeads(rs)| < 0x1_0000_0000
  {
    Desc(1, 0, |RespHeads(rs)|, 0).Bytes(BlankTail()) + RespHeads(rs) + RespBodies(rs)
  }

  const HEAD_BUFFER := 20 * 512

  /** What the receiver of a batch relies on: the headers fit their buffer, and the total of the
      bodies is a uint32, as with a batch of the server's. */
  predicate Receivable(rs: seq<Resp>)
  {
    (forall r :: r in rs ==> FineResp(r)) && RESP_HEAD * |rs| <= HEAD_BUFFER && |RespBodies(rs)| < 0x1_0000_0000
  }

  /** A batch arrives: every response comes back with its own header and, as assembled, its own
      body, error messages included, up to one that makes the client panic; what follows the batch
      is untouched. */
  method ReceiveResponses(stream: bytes, ghost rs: seq<Resp>, ghost rest: bytes)
      returns (heads: seq<RespHead>, bodies: seq<Carved>, panicked: bool, stream': bytes)
    requires Receivable(rs) && stream == RespBatch(rs) + rest
    ensures stream' == rest && |heads| == |rs| && Reaches(Lengths(rs), |bodies|) && (panicked <==> |bodies| < |rs|)
    ensures forall i :: 0 <= i < |rs| ==> heads[i] == HeadOf(rs[i])
    ensures forall i :: 0 <= i < |bodies| ==> bodies[i] == Carved(RespBody(rs[i]), FateOf(Lengths(rs), i).Stored?)
  {
    var headBytes;
    headBytes, stream' := TakeHeaders(stream, rs, rest);
    heads := UnpackResponses(headBytes, rs);
    bodies, panicked, stream' := TakeBodies(heads, stream', rs, rest);
  }

  /** The descriptor and the headers behind it. */
  method TakeHeaders(stream: bytes, ghost rs: seq<Resp>, ghost rest: bytes)
      returns (headBytes: bytes, stream': bytes)
    requires (forall r :: r in rs ==> FineResp(r)) && RESP_HEAD * |rs| <= HEAD_BUFFER
    requires stream == RespBatch(rs) + rest
    ensures headBytes == RespHeads(rs) && stream' == RespBodies(rs) + rest
  {
    ghost var d := Desc(1, 0, |RespHeads(rs)|, 0);
    ghost var t := RespHeads(rs) + (RespBodies(rs) + rest);
    BatchInPieces(d.Bytes(BlankTail()), RespHeads(rs), RespBodies(rs), rest);
    DescRoundTrip(d, BlankTail(), t);
    var desc := DescFrom(stream);
    var body := stream[DESC..];
    headBytes, stream' := body[..desc.HeadLength], body[desc.HeadLength..];
  }

  /** The bodies, given the decoded headers. */
  method TakeBodies(heads: seq<RespHead>, stream: bytes, ghost rs: seq<Resp>, ghost rest: bytes)
      returns (bodies: seq<Carved>, panicked: bool, stream': bytes)
    requires Receivable(rs) && stream == RespBodies(rs) + rest
    requires |heads| == |rs| && forall i :: 0 <= i < |rs| ==> heads[i] == HeadOf(rs[i])
    ensures stream' == rest && Reaches(Lengths(rs), |bodies|) && (panicked <==> |bodies| < |rs|)
    ensures forall i :: 0 <= i < |bodies| ==> bodies[i] == Carved(RespBody(rs[i]), FateOf(Lengths(rs), i).Stored?)
  {
    var lens := seq(|heads|, i requires 0 <= i < |heads| => heads[i].ContentLen as nat);
    assert lens == Lengths(rs);
    WholeLength(rs);
    var bodyLen := Total(lens);
    assert stream[..bodyLen] == RespBodies(rs) && stream[bodyLen..] == rest;
    var chunks;
    chunks, stream' := Fetch(stream, bodyLen);
    bodies, panicked := Carve(lens, chunks, RespBodies(rs));
    forall i | 0 <= i < |bodies| ensures bodies[i] == Carved(RespBody(rs[i]), FateOf(Lengths(rs), i).Stored?) {
      assert IsShare(lens, RespBodies(rs), i, bodies[i]);
      ShareIsBody(rs, i);
    }
  }

  lemma WholeLength(rs: seq<Resp>)
    ensures Offset(Lengths(rs), |rs|) == |RespBodies(rs)|
  {
    OffsetIsLength(rs, |rs|);
    assert rs[..|rs|] == rs;
  }

  /** The announced lengths together, as a uint32. */
  method Total(lens: seq<nat>) returns (left: uint32)
    ensures left == Offset(lens, |lens|) % 0x1_0000_0000
    ensures Offset(lens, |lens|) < 0x1_0000_0000 ==> left == Offset(lens, |lens|)
  {
    var bodyLen := 0;
    for i := 0 to |lens|
      invariant bodyLen == Offset(lens, i)
    {
      bodyLen := bodyLen + lens[i];
    }
    left := bodyLen % 0x1_0000_0000;
  }
}
