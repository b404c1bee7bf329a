/** The headers of jnet batches, in both directions, and how the peer takes a batch apart. */
module JnetWire {
  import opened Messages
  import opened BigEndian

  // ---- The 64 bytes in front of every batch ----------------------------------------------

  const DESC := 64

  datatype Desc = Desc(Version: uint32, Cookie: uint64, HeadLength: uint32, ChkSum: uint32)
  {
    /** Encoded over the descriptor's own buffer, whose tail is sent along. */
    function Bytes(tail: bytes): (s: bytes)
      requires |tail| == DESC - 20
      ensures |s| == DESC
    {
      Put32(Version) + Put64(Cookie) + Put32(HeadLength) + Put32(ChkSum) + tail
    }
  }

  function DescFrom(s: bytes): Desc
    requires |s| >= DESC
  {
    Desc(Get32(s[0..4]), Get64(s[4..12]), Get32(s[12..16]), Get32(s[16..20]))
  }

  lemma DescRoundTrip(d: Desc, tail: bytes, rest: bytes)
    requires |tail| == DESC - 20
    ensures DescFrom(d.Bytes(tail) + rest) == d && (d.Bytes(tail) + rest)[DESC..] == rest
  {
    var s := d.Bytes(tail) + rest;
    assert s[0..4] == Put32(d.Version) && s[4..12] == Put64(d.Cookie);
    assert s[12..16] == Put32(d.HeadLength) && s[16..20] == Put32(d.ChkSum);
    Get32OfPut32(d.Version);
    Get64OfPut64(d.Cookie);
    Get32OfPut32(d.HeadLength);
    Get32OfPut32(d.ChkSum);
  }

  const MAX_BATCH_COUNT := 64

  /** Cookies are consecutive, and wrap. */
  function NextCookie(cookie: uint64): uint64
  {
    if cookie + 1 < 0x1_0000_0000_0000_0000 then cookie + 1 else 0
  }

  // ---- Request headers -------------------------------------------------------------------

  datatype Flags = Flags(compressOn: bool, crcOn: bool)

  datatype ReqHead = ReqHead(CMD: byte, Key: bytes, flags: Flags, ContentLen: uint32)

  const FIXED := 7

  function Bit(b: bool, value: byte): byte { if b then value else 0 }

  /** The command takes the low half of the first byte; the high half takes what it can of a
      key length over 255, and the rest of such a length is shifted out. */
  function EncodeReq(r: ReqHead): (s: bytes)
    requires |r.Key| < 0x1_0000_0000
    ensures |s| == FIXED + |r.Key|
  {
    var high := if |r.Key| > 255 then |r.Key| / 256 % 16 * 16 else 0;
    [(r.CMD % 16 + high) % 256, |r.Key| % 256, Bit(r.flags.compressOn, 1) + Bit(r.flags.crcOn, 2)]
      + Put32(r.ContentLen) + r.Key
  }

  /** The twelve bits of a key length, of which the first byte holds four. */
  function KeyLength(first: int, second: int): int { second + first / 16 * 256 }

  datatype Taken<+T> = Taken(value: T, n: nat) | OutOfRange

  /** Decoding into a request that still has the flags `stale`: they are only ever set. */
  function DecodeReq(b: bytes, stale: Flags): Taken<ReqHead>
  {
    if |b| < FIXED then OutOfRange
    else
      var size := KeyLength(b[0], b[1]);
      if |b| < FIXED + size then OutOfRange
      else Taken(ReqHead(b[0] % 16, b[FIXED..FIXED + size],
                         Flags(stale.compressOn || b[2] % 2 == 1, stale.crcOn || b[2] / 2 % 2 == 1),
                         Get32(b[3..7])), FIXED + size)
  }

  predicate Encodable(r: ReqHead) { r.CMD < 16 && |r.Key| < 4096 }

  lemma FlagsOnWire(r: ReqHead)
    requires |r.Key| < 0x1_0000_0000
    ensures var s := EncodeReq(r); (s[2] % 2 == 1) == r.flags.compressOn && (s[2] / 2 % 2 == 1) == r.flags.crcOn
    ensures EncodeReq(r)[3..7] == Put32(r.ContentLen) && EncodeReq(r)[FIXED..] == r.Key
  {
  }

  function WithFlags(r: ReqHead, stale: Flags): ReqHead
  {
    r.(flags := Flags(stale.compressOn || r.flags.compressOn, stale.crcOn || r.flags.crcOn))
  }

  /** What arrives of a request whose key is short enough. */
  lemma ReqArrivesAs(r: ReqHead, stale: Flags, rest: bytes)
    requires |r.Key| < 4096
    ensures DecodeReq(EncodeReq(r) + rest, stale) == Taken(WithFlags(r.(CMD := r.CMD % 16), stale), FIXED + |r.Key|)
  {
    var e, s := EncodeReq(r), EncodeReq(r) + rest;
    KeyLengthOnWire(r);
    FlagsOnWire(r);
    Get32OfPut32(r.ContentLen);
    assert s[0] == e[0] && s[1] == e[1] && s[2] == e[2];
    assert s[3..7] == e[3..7] && s[FIXED..FIXED + |r.Key|] == e[FIXED..];
  }

  /** A request header survives the wire exactly when the command has four bits, the key
      length twelve, and the object it is decoded into carries no flag of its own. */
  lemma ReqRoundTripExactlyWhen(r: ReqHead, stale: Flags, rest: bytes)
    requires |r.Key| < 0x1_0000_0000
    ensures DecodeReq(EncodeReq(r) + rest, stale) == Taken(r, FIXED + |r.Key|)
       <==> Encodable(r) && (stale.compressOn ==> r.flags.compressOn) && (stale.crcOn ==> r.flags.crcOn)
  {
    if |r.Key| < 4096 {
      ReqArrivesAs(r, stale, rest);
    } else {
      KeyLengthOnWire(r);
      var s := EncodeReq(r) + rest;
      assert KeyLength(s[0], s[1]) < 4096;
    }
  }

  /** What the peer computes as the length of the key. */
  lemma KeyLengthOnWire(r: ReqHead)
    requires |r.Key| < 0x1_0000_0000
    ensures var s := EncodeReq(r); KeyLength(s[0], s[1]) == |r.Key| % 4096 && s[0] % 16 == r.CMD % 16
  {
    var n := |r.Key|;
    var s := EncodeReq(r);
    var high := if n > 255 then n / 256 % 16 else 0;
    assert s[0] == r.CMD % 16 + high * 16;
    assert s[0] / 16 == high && s[0] % 16 == r.CMD % 16;
    assert n % 4096 == n / 256 % 16 * 256 + n % 256;
  }

  // ---- A batch of requests ---------------------------------------------------------------

  /** A request as the client sends it: its body is written when there is one. */
  datatype Req = Req(head: ReqHead, body: Option<bytes>)

  predicate FineReq(r: Req)
  {
    Encodable(r.head) && r.head.ContentLen == match r.body case None => 0 case Some(b) => |b|
  }

  function BodyOf(r: Req): bytes { match r.body case None => [] case Some(b) => b }

  /** As it arrives in an object from the pool: flags are only ever set, and an empty body is not
      read, so that the object keeps the one it had. */
  function ReqArrives(r: Req, held: Req): Req
  {
    Req(WithFlags(r.head, held.head.flags), if r.head.ContentLen > 0 then r.body else held.body)
  }

  /** A request arrives unchanged exactly when the object has no flag that the request has not,
      and, unless there is a body to read, has the request's body already. */
  lemma ReqArrivesUnchangedExactlyWhen(r: Req, held: Req)
    requires FineReq(r)
    ensures ReqArrives(r, held) == r
       <==> (held.head.flags.compressOn ==> r.head.flags.compressOn) && (held.head.flags.crcOn ==> r.head.flags.crcOn)
            && (r.head.ContentLen == 0 ==> held.body == r.body)
  {
    assert r.head == r.head.(flags := r.head.flags);
    assert WithFlags(r.head, held.head.flags).flags == r.head.flags
      <==> (held.head.flags.compressOn ==> r.head.flags.compressOn) && (held.head.flags.crcOn ==> r.head.flags.crcOn);
  }

  /** A request that came out of the pool, whatever that was, keeps everything else. */
  predicate ArrivesAs(r: Req, got: Req)
  {
    && got.head == r.head.(flags := got.head.flags)
    && (r.head.flags.compressOn ==> got.head.flags.compressOn) && (r.head.flags.crcOn ==> got.head.flags.crcOn)
    && (r.head.ContentLen > 0 ==> got.body == r.body)
  }

  /** These are just the ways in which it can arrive. */
  lemma ArrivesInSomeObject(r: Req, got: Req)
    ensures ArrivesAs(r, got) <==> exists held :: ReqArrives(r, held) == got
  {
    if ArrivesAs(r, got) {
      assert ReqArrives(r, got) == got;
    }
  }

  function ReqHeads(rs: seq<Req>): bytes
    requires forall r :: r in rs ==> FineReq(r)
  {
    if rs == [] then []
    else
      assert FineReq(rs[0]);
      EncodeReq(rs[0].head) + ReqHeads(rs[1..])
  }

  function ReqBodies(rs: seq<Req>): bytes
  {
    if rs == [] then [] else BodyOf(rs[0]) + ReqBodies(rs[1..])
  }

  function BlankTail(): (s: bytes)
    ensures |s| == DESC - 20
  {
    seq(DESC - 20, _ => 0)
  }

  function ReqBatch(cookie: uint64, rs: seq<Req>): bytes
    requires (forall r :: r in rs ==> FineReq(r)) && |ReqHeads(rs)| < 0x1_0000_0000
  {
    Desc(1, cookie, |ReqHeads(rs)|, 0).Bytes(BlankTail()) + ReqHeads(rs) + ReqBodies(rs)
  }

  /** What the server reads headers into. */
  const REQ_HEADS := 1024 * 1024

  /** 64 requests with keys of at most 4095 bytes fit the header buffer of the server. */
  lemma {:induction false} ReqHeadsFit(rs: seq<Req>)
    requires forall r :: r in rs ==> FineReq(r)
    ensures |ReqHeads(rs)| <= |rs| * (FIXED + 4095)
    ensures |rs| <= MAX_BATCH_COUNT ==> |ReqHeads(rs)| <= REQ_HEADS
  {
    if rs != [] {
      assert FineReq(rs[0]);
      ReqHeadsFit(rs[1..]);
      assert |rs| * (FIXED + 4095) == (FIXED + 4095) + |rs[1..]| * (FIXED + 4095);
    }
  }

  lemma NextReqHead(rs: seq<Req>, i: nat, stale: Flags)
    requires i < |rs| && forall r :: r in rs ==> FineReq(r)
    ensures var buf, n := ReqHeads(rs[i..]), FIXED + |rs[i].head.Key|;
            DecodeReq(buf, stale) == Taken(WithFlags(rs[i].head, stale), n) && n <= |buf|
                && buf[n..] == ReqHeads(rs[i + 1..])
  {
    assert rs[i..][0] == rs[i] && rs[i..][1..] == rs[i + 1..] && FineReq(rs[i]);
    ReqArrivesAs(rs[i].head, stale, ReqHeads(rs[i + 1..]));
    assert rs[i].head.(CMD := rs[i].head.CMD % 16) == rs[i].head;
  }

  lemma NextReqBody(rs: seq<Req>, i: nat, rest: bytes)
    requires i < |rs| && forall r :: r in rs ==> FineReq(r)
    ensures var conn, len := ReqBodies(rs[i..]) + rest, rs[i].head.ContentLen;
            && len <= |conn| && conn[len..] == ReqBodies(rs[i + 1..]) + rest
            && (len > 0 ==> rs[i].body == Some(conn[..len]))
  {
    assert rs[i..][0] == rs[i] && rs[i..][1..] == rs[i + 1..] && FineReq(rs[i]);
    Joined(BodyOf(rs[i]), ReqBodies(rs[i + 1..]), rest);
  }

  /** Whatever the pool hands out. */
  method PooledRequest() returns (held: Req)
  {
    held :| true;
  }

  /** One turn of the server's header loop: a header from the buffer, and its body from the
      connection. */
  method TakeReq(buf: bytes, conn: bytes, held: Req, ghost rs: seq<Req>, ghost i: nat, ghost rest: bytes)
      returns (r: Req, n: nat, conn': bytes)
    requires i < |rs| && forall r :: r in rs ==> FineReq(r)
    requires buf == ReqHeads(rs[i..]) && conn == ReqBodies(rs[i..]) + rest
    ensures r == ReqArrives(rs[i], held) && conn' == ReqBodies(rs[i + 1..]) + rest
    ensures 0 < n <= |buf| && buf[n..] == ReqHeads(rs[i + 1..])
  {
    NextReqHead(rs, i, held.head.flags);
    NextReqBody(rs, i, rest);
    var taken := DecodeReq(buf, held.head.flags);
    n, conn' := taken.n, conn;
    r := Req(taken.value, held.body);
    if r.head.ContentLen > 0 {
      r := r.(body := Some(conn[..r.head.ContentLen]));
      conn' := conn[r.head.ContentLen..];
    } else {
      assert conn[0..] == conn;
    }
  }

  /** The server's loop over the headers of a batch: it ends with nothing left, and has the
      requests back in order, each with its own body, whatever objects they are decoded into. */
  method UnpackRequests(buf: bytes, conn: bytes, ghost rs: seq<Req>, ghost rest: bytes)
      returns (reqs: seq<Req>, conn': bytes)
    requires forall r :: r in rs ==> FineReq(r)
    requires buf == ReqHeads(rs) && conn == ReqBodies(rs) + rest
    ensures |reqs| == |rs| && (forall i :: 0 <= i < |rs| ==> ArrivesAs(rs[i], reqs[i])) && conn' == rest
  {
    var left, idx := |buf|, 0;
    reqs, conn' := [], conn;
    assert rs[0..] == rs && buf[0..] == buf;
    while left > 0
      invariant |reqs| <= |rs| && 0 <= left && idx + left == |buf|
      invariant buf[idx..] == ReqHeads(rs[|reqs|..]) && conn' == ReqBodies(rs[|reqs|..]) + rest
      invariant forall i :: 0 <= i < |reqs| ==> ArrivesAs(rs[i], reqs[i])
      decreases left
    {
      assert rs[|reqs|..] != [];
      var held := PooledRequest();
      var r, n;
      r, n, conn' := TakeReq(buf[idx..], conn', held, rs, |reqs|, rest);
      ArrivesInSomeObject(rs[|reqs|], r);
      assert buf[idx..][n..] == buf[idx + n..];
      left, idx := left - n, idx + n;
      reqs := reqs + [r];
    }
    NoMore(rs[|reqs|..], rest);
  }

  lemma NoMore(rs: seq<Req>, rest: bytes)
    requires (forall r :: r in rs ==> FineReq(r)) && ReqHeads(rs) == []
    ensures rs == [] && ReqBodies(rs) + rest == rest
  {
    assert [] + rest == rest;
  }

  lemma BatchInPieces(desc: bytes, heads: bytes, bodies: bytes, rest: bytes)
    ensures desc + heads + bodies + rest == desc + (heads + (bodies + rest))
    ensures (heads + (bodies + rest))[..|heads|] == heads
    ensures (heads + (bodies + rest))[|heads|..] == bodies + rest
  {
  }

  /** A whole batch on the server's side of the connection. */
  method ReceiveRequests(stream: bytes, ghost cookie: uint64, ghost rs: seq<Req>, ghost rest: bytes)
      returns (batch: uint64, reqs: seq<Req>, stream': bytes)
    requires (forall r :: r in rs ==> FineReq(r)) && |ReqHeads(rs)| <= REQ_HEADS
    requires stream == ReqBatch(cookie, rs) + rest
    ensures batch == cookie && stream' == rest
    ensures |reqs| == |rs| && forall i :: 0 <= i < |rs| ==> ArrivesAs(rs[i], reqs[i])
  {
    ghost var d := Desc(1, cookie, |ReqHeads(rs)|, 0);
    ghost var t := ReqHeads(rs) + (ReqBodies(rs) + rest);
    BatchInPieces(d.Bytes(BlankTail()), ReqHeads(rs), ReqBodies(rs), rest);
    DescRoundTrip(d, BlankTail(), t);
    var desc := DescFrom(stream);
    var body := stream[DESC..];
    batch := desc.Cookie;
    reqs, stream' := UnpackRequests(body[..desc.HeadLength], body[desc.HeadLength..], rs, rest);
  }

  // ---- A batch of responses --------------------------------------------------------------

  /** "invalid command", the one error text there is. */
  const INVALID_TEXT: bytes := [105, 110, 118, 97, 108, 105, 100, 32, 99, 111, 109, 109, 97, 110, 100]

  datatype Resp = Resp(BatchId: uint64, Idx: uint32, ErrorCode: uint32, ErrorMsg: bytes, Content: bytes)

  /** What travels as the body: with an error code, the message instead of the content. */
  function RespBody(r: Resp): bytes { if r.ErrorCode != 0 then r.ErrorMsg else r.Content }

  datatype RespHead = RespHead(BatchId: uint64, Idx: uint32, ErrorCode: uint32, ContentLen: uint32)

  const RESP_HEAD := 20

  predicate FineResp(r: Resp) { |RespBody(r)| < 0x1_0000_0000 }

  function HeadOf(r: Resp): RespHead
    requires FineResp(r)
  {
    RespHead(r.BatchId, r.Idx, r.ErrorCode, |RespBody(r)|)
  }

  function EncodeResp(h: RespHead): (s: bytes)
    ensures |s| == RESP_HEAD
  {
    Put64(h.BatchId) + Put32(h.Idx) + Put32(h.ErrorCode) + Put32(h.ContentLen)
  }

  function DecodeResp(b: bytes): RespHead
    requires |b| >= RESP_HEAD
  {
    RespHead(Get64(b[0..8]), Get32(b[8..12]), Get32(b[12..16]), Get32(b[16..20]))
  }

  lemma RespRoundTrip(h: RespHead, rest: bytes)
    ensures DecodeResp(EncodeResp(h) + rest) == h && (EncodeResp(h) + rest)[RESP_HEAD..] == rest
  {
    var s := EncodeResp(h) + rest;
    assert s[0..8] == Put64(h.BatchId) && s[8..12] == Put32(h.Idx);
    assert s[12..16] == Put32(h.ErrorCode) && s[16..20] == Put32(h.ContentLen);
    Get64OfPut64(h.BatchId);
    Get32OfPut32(h.Idx);
    Get32OfPut32(h.ErrorCode);
    Get32OfPut32(h.ContentLen);
  }

  function RespHeads(rs: seq<Resp>): (s: bytes)
    requires forall r :: r in rs ==> FineResp(r)
    ensures |s| == RESP_HEAD * |rs|
  {
    if rs == [] then [] else EncodeResp(HeadOf(rs[0])) + RespHeads(rs[1..])
  }

  function RespBodies(rs: seq<Resp>): bytes
  {
    if rs == [] then [] else RespBody(rs[0]) + RespBodies(rs[1..])
  }

  lemma NextResp(rs: seq<Resp>, k: nat)
    requires k < |rs| && forall r :: r in rs ==> FineResp(r)
    ensures var s := RespHeads(rs[k..]);
            DecodeResp(s) == HeadOf(rs[k]) && s[RESP_HEAD..] == RespHeads(rs[k + 1..])
  {
    assert rs[k..][0] == rs[k] && rs[k..][1..] == rs[k + 1..] && FineResp(rs[k]);
    RespRoundTrip(HeadOf(rs[k]), RespHeads(rs[k + 1..]));
  }

  method TakeResp(buf: bytes, idx: nat, ghost rs: seq<Resp>, ghost k: nat) returns (head: RespHead)
    requires (forall r :: r in rs ==> FineResp(r)) && k < |rs|
    requires idx <= |buf| && buf[idx..] == RespHeads(rs[k..])
    ensures head == HeadOf(rs[k]) && idx + RESP_HEAD <= |buf| && buf[idx + RESP_HEAD..] == RespHeads(rs[k + 1..])
  {
    NextResp(rs, k);
    head := DecodeResp(buf[idx..]);
    assert buf[idx..][RESP_HEAD..] == buf[idx + RESP_HEAD..];
  }

  /** The client's loop over the headers of a batch of responses. */
  method UnpackResponses(buf: bytes, ghost rs: seq<Resp>) returns (heads: seq<RespHead>)
    requires (forall r :: r in rs ==> FineResp(r)) && buf == RespHeads(rs)
    ensures |heads| == |rs| && forall i :: 0 <= i < |rs| ==> heads[i] == HeadOf(rs[i])
  {
    var left, idx := |buf|, 0;
    heads := [];
    assert rs[0..] == rs && buf[0..] == buf;
    while left > 0
      invariant |heads| <= |rs| && 0 <= left && idx + left == |buf| && left == RESP_HEAD * (|rs| - |heads|)
      invariant buf[idx..] == RespHeads(rs[|heads|..])
      invariant forall i :: 0 <= i < |heads| ==> heads[i] == HeadOf(rs[i])
      decreases left
    {
      var head := TakeResp(buf, idx, rs, |heads|);
      left, idx := left - RESP_HEAD, idx + RESP_HEAD;
      heads := heads + [head];
    }
  }
}
