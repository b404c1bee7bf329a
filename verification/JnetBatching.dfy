/** The two accumulating loops of jnet: how the client groups requests into batches and how
    the server groups responses, and that what they group fits the peer's buffers. */
module JnetBatching {
  import opened Messages
  import opened JnetWire
  import opened JnetBodies

  /** What a submit worker receives: an item from its queue or the tick that forces a flush. */
  datatype Event<T> = Arrive(item: T) | Tick

  /** A batch is full with `count` items, or when the items after its first announce `size`
      bytes together. */
  datatype Limits = Limits(count: nat, size: nat)

  const MAX_BATCH_SIZE := 1024 * 1024

  /** The client breaks at the maxima. */
  const CLIENT := Limits(MAX_BATCH_COUNT, MAX_BATCH_SIZE)

  /** The server breaks only above them. */
  const SERVER := Limits(MAX_BATCH_COUNT + 1, MAX_BATCH_SIZE + 1)

  function Payload<T>(b: seq<T>, size: T -> nat): nat
  {
    if b == [] then 0 else Payload(b[..|b| - 1], size) + size(b[|b| - 1])
  }

  /** The first item of a batch is never looked at, neither its size nor the count it makes. */
  predicate Full<T>(b: seq<T>, size: T -> nat, limits: Limits)
  {
    |b| >= 2 && (|b| >= limits.count || Payload(b[1..], size) >= limits.size)
  }

  datatype Worker<T> = Worker(flushed: seq<seq<T>>, batch: seq<T>)

  function OnEvent<T>(w: Worker<T>, e: Event<T>, size: T -> nat, limits: Limits): Worker<T>
  {
    match e
    case Tick => if w.batch == [] then w else Worker(w.flushed + [w.batch], [])
    case Arrive(x) =>
      var b := w.batch + [x];
      if Full(b, size, limits) then Worker(w.flushed + [b], []) else Worker(w.flushed, b)
  }

  function Run<T>(events: seq<Event<T>>, size: T -> nat, limits: Limits): Worker<T>
  {
    if events == [] then Worker([], [])
    else OnEvent(Run(events[..|events| - 1], size, limits), events[|events| - 1], size, limits)
  }

  lemma RunNext<T>(events: seq<Event<T>>, i: nat, size: T -> nat, limits: Limits)
    requires i < |events|
    ensures Run(events[..i + 1], size, limits) == OnEvent(Run(events[..i], size, limits), events[i], size, limits)
  {
    assert events[..i + 1][..i] == events[..i];
  }

  lemma PayloadNext<T>(b: seq<T>, x: T, size: T -> nat)
    requires b != []
    ensures Payload((b + [x])[1..], size) == Payload(b[1..], size) + size(x)
    ensures b[1..] == [] ==> Payload(b[1..], size) == 0
  {
    assert (b + [x])[1..][..|b| - 1] == b[1..];
  }

  /** The loop of a submit worker: the outer select takes the first item of a batch, and a tick
      waits until there is one; the inner one takes items until something makes it break. */
  method SubmitWorker<T>(events: seq<Event<T>>, size: T -> nat, limits: Limits)
      returns (flushed: seq<seq<T>>, batch: seq<T>)
    requires limits.count >= 2
    ensures Worker(flushed, batch) == Run(events, size, limits)
  {
    flushed, batch := [], [];
    var total, i := 0, 0;
    while i < |events|
      invariant i <= |events| && batch == [] && total == 0
      invariant Worker(flushed, batch) == Run(events[..i], size, limits)
    {
      RunNext(events, i, size, limits);
      if events[i].Arrive? {
        batch := batch + [events[i].item];
        i := i + 1;
        var shouldBreak := false;
        while !shouldBreak && i < |events|
          invariant i <= |events| && batch != []
          invariant !shouldBreak ==> total == Payload(batch[1..], size)
          invariant Run(events[..i], size, limits)
                    == if shouldBreak then Worker(flushed + [batch], []) else Worker(flushed, batch)
          decreases |events| - i
        {
          RunNext(events, i, size, limits);
          match events[i] {
            case Arrive(x) =>
              PayloadNext(batch, x, size);
              batch := batch + [x];
              total := total + size(x);
              if |batch| >= limits.count {
                shouldBreak := true;
              }
              if total >= limits.size {
                shouldBreak := true;
              }
            case Tick =>
              shouldBreak := true;
          }
          i := i + 1;
        }
        if !shouldBreak {
          assert events[..i] == events;
          return;
        }
        flushed, batch, total := flushed + [batch], [], 0;
      } else {
        i := i + 1;
      }
    }
    assert events[..i] == events;
  }

  // ---- What the loop keeps --------------------------------------------------------------

  function Items<T>(events: seq<Event<T>>): seq<T>
  {
    if events == [] then []
    else
      var before, e := Items(events[..|events| - 1]), events[|events| - 1];
      if e.Arrive? then before + [e.item] else before
  }

  function Concat<T>(batches: seq<seq<T>>): seq<T>
  {
    if batches == [] then [] else Concat(batches[..|batches| - 1]) + batches[|batches| - 1]
  }

  lemma ConcatNext<T>(batches: seq<seq<T>>, b: seq<T>)
    ensures Concat(batches + [b]) == Concat(batches) + b
  {
    assert (batches + [b])[..|batches|] == batches;
  }

  /** Nothing is lost, repeated or reordered: the batches and the one being gathered spell out
      the items in the order they were dequeued. */
  lemma {:induction false} NothingIsLost<T>(events: seq<Event<T>>, size: T -> nat, limits: Limits)
    ensures var w := Run(events, size, limits); Concat(w.flushed) + w.batch == Items(events)
  {
    if events != [] {
      var before := events[..|events| - 1];
      NothingIsLost(before, size, limits);
      var w := Run(before, size, limits);
      ConcatNext(w.flushed, w.batch);
      match events[|events| - 1]
      case Tick =>
        assert Concat(w.flushed) + w.batch + [] == Items(events);
      case Arrive(x) =>
        ConcatNext(w.flushed, w.batch + [x]);
        assert Concat(w.flushed) + (w.batch + [x]) == Concat(w.flushed) + w.batch + [x];
        assert Concat(w.flushed) + (w.batch + [x]) + [] == Concat(w.flushed) + (w.batch + [x]);
    }
  }

  /** Gathered without overlooking that an earlier part was full already. */
  ghost predicate InTime<T>(b: seq<T>, size: T -> nat, limits: Limits)
  {
    b != [] && forall k :: 0 < k < |b| ==> !Full(b[..k], size, limits)
  }

  ghost predicate AllInTime<T>(w: Worker<T>, size: T -> nat, limits: Limits)
  {
    && (forall i :: 0 <= i < |w.flushed| ==> InTime(w.flushed[i], size, limits))
    && (w.batch != [] ==> InTime(w.batch, size, limits) && !Full(w.batch, size, limits))
  }

  lemma {:induction false} FlushedInTime<T>(events: seq<Event<T>>, size: T -> nat, limits: Limits)
    ensures AllInTime(Run(events, size, limits), size, limits)
  {
    if events != [] {
      var before := events[..|events| - 1];
      FlushedInTime(before, size, limits);
      var w := Run(before, size, limits);
      match events[|events| - 1]
      case Tick =>
      case Arrive(x) =>
        var b := w.batch + [x];
        forall k | 0 < k < |b| ensures !Full(b[..k], size, limits) {
          assert b[..k] == w.batch[..k];
          assert w.batch[..|w.batch|] == w.batch;
        }
    }
  }

  /** How many batches were sent before they were full. */
  function Early<T>(flushed: seq<seq<T>>, size: T -> nat, limits: Limits): nat
  {
    if flushed == [] then 0
    else
      var n := |flushed| - 1;
      Early(flushed[..n], size, limits) + if Full(flushed[n], size, limits) then 0 else 1
  }

  function Ticks<T>(events: seq<Event<T>>): nat
  {
    if events == [] then 0
    else
      var n := |events| - 1;
      Ticks(events[..n]) + if events[n].Tick? then 1 else 0
  }

  /** A batch that is not full is sent only because of a tick. */
  lemma {:induction false} EarlyOnesAreTicked<T>(events: seq<Event<T>>, size: T -> nat, limits: Limits)
    ensures Early(Run(events, size, limits).flushed, size, limits) <= Ticks(events)
  {
    if events != [] {
      var before := events[..|events| - 1];
      EarlyOnesAreTicked(before, size, limits);
      var w, w' := Run(before, size, limits), Run(events, size, limits);
      if w'.flushed != w.flushed {
        assert w'.flushed[..|w.flushed|] == w.flushed;
      }
    }
  }

  /** The size of a batch: at most `count` items, and only its first and its last can take it
      past the size limit. */
  lemma BatchIsBounded<T>(b: seq<T>, size: T -> nat, limits: Limits, most: nat)
    requires InTime(b, size, limits) && limits.count >= 2 && limits.size > 0
    requires forall i :: 0 <= i < |b| ==> size(b[i]) <= most
    ensures |b| <= limits.count
    ensures Payload(b, size) < limits.size + 2 * most
  {
    if |b| == 1 {
      assert b[..0] == [];
    } else {
      var front := b[..|b| - 1];
      assert !Full(front, size, limits);
      FirstApart(front, size);
      assert Payload(b, size) == Payload(front, size) + size(b[|b| - 1]);
    }
  }

  lemma {:induction false} FirstApart<T>(b: seq<T>, size: T -> nat)
    requires b != []
    ensures Payload(b, size) == size(b[0]) + Payload(b[1..], size)
    ensures |b| == 1 ==> Payload(b[1..], size) == 0
  {
    if |b| == 1 {
      assert b[..0] == [];
    } else {
      FirstApart(b[..|b| - 1], size);
      assert b[1..][..|b| - 2] == b[..|b| - 1][1..];
    }
  }

  // ---- What that means for the peers -----------------------------------------------------

  function ReqSize(r: Req): nat { r.head.ContentLen }

  /** Every batch of requests fits the mebibyte the server reads headers into. */
  lemma RequestBatchesFit(events: seq<Event<Req>>, i: nat)
    requires i < |Run(events, ReqSize, CLIENT).flushed|
    ensures var b := Run(events, ReqSize, CLIENT).flushed[i];
            && 0 < |b| <= 64
            && ((forall r :: r in b ==> FineReq(r)) ==> |ReqHeads(b)| <= REQ_HEADS)
  {
    FlushedInTime(events, ReqSize, CLIENT);
    var b := Run(events, ReqSize, CLIENT).flushed[i];
    assert InTime(b, ReqSize, CLIENT);
    assert |b| > 64 ==> !Full(b[..64], ReqSize, CLIENT);
    if forall r :: r in b ==> FineReq(r) {
      ReqHeadsFit(b);
    }
  }

  /** What the server counts of a response: its content, also when an error text is sent instead. */
  function RespSize(r: Resp): nat { |r.Content| }

  /** How long the one error text is, "invalid command". */
  const INVALID := 15

  /** A response as the server makes it from data of at most 4 MiB. */
  predicate Made(r: Resp)
  {
    |r.Content| <= CHUNK && if r.ErrorCode != 0 then |r.ErrorMsg| == INVALID else |r.Content| > 0
  }

  /** Data of the length that a batch of responses can carry: with two of them, what else a batch
      holds and all its error texts, the total still is a uint32. */
  const MOST_DATA := 0x8000_0000 - 0x10_0000

  /** A response as the server makes it from any data that long. */
  predicate Sized(r: Resp)
  {
    |r.Content| <= MOST_DATA && (r.ErrorCode != 0 ==> |r.ErrorMsg| == INVALID)
  }

  lemma {:induction false} BodiesArePayload(rs: seq<Resp>)
    requires forall r :: r in rs ==> Sized(r)
    ensures |RespBodies(rs)| <= Payload(rs, RespSize) + INVALID * |rs|
  {
    if rs != [] {
      var front, r := rs[..|rs| - 1], rs[|rs| - 1];
      BodiesArePayload(front);
      LastBody(front, r);
      assert front + [r] == rs && Sized(r);
    }
  }

  /** Whatever the data: the headers of a batch fit the client's buffer and the lengths add up to a
      uint32. */
  lemma SizedBatchFits(b: seq<Resp>)
    requires InTime(b, RespSize, SERVER) && forall r :: r in b ==> Sized(r)
    ensures 0 < |b| <= 65 && Receivable(b)
  {
    assert forall k :: 0 <= k < |b| ==> Sized(b[k]);
    BatchIsBounded(b, RespSize, SERVER, MOST_DATA);
    BodiesArePayload(b);
  }

  /** A batch that was gathered in time has at most 65 headers, 1300 bytes of the client's 10240, and
      at most 9 MiB of content and 65 short error texts, so their total is exact in 32 bits. */
  lemma ResponseBatchFits(b: seq<Resp>)
    requires InTime(b, RespSize, SERVER) && forall r :: r in b ==> Made(r)
    ensures 0 < |b| <= 65 && RESP_HEAD * |b| <= 1300
    ensures |RespBodies(b)| <= 9 * 1024 * 1024 + 65 * INVALID
    ensures Receivable(b)
  {
    assert forall k :: 0 <= k < |b| ==> Made(b[k]) && Sized(b[k]);
    BatchIsBounded(b, RespSize, SERVER, CHUNK);
    BodiesArePayload(b);
  }

  /** Every batch the server flushes is one. */
  lemma ResponseBatchesFit(events: seq<Event<Resp>>, i: nat)
    requires i < |Run(events, RespSize, SERVER).flushed|
    requires forall r :: r in Run(events, RespSize, SERVER).flushed[i] ==> Made(r)
    ensures InTime(Run(events, RespSize, SERVER).flushed[i], RespSize, SERVER)
    ensures Receivable(Run(events, RespSize, SERVER).flushed[i])
  {
    FlushedInTime(events, RespSize, SERVER);
    ResponseBatchFits(Run(events, RespSize, SERVER).flushed[i]);
  }

  // ---- Bodies that get lost --------------------------------------------------------------

  lemma MadeLengths(b: seq<Resp>, i: nat)
    requires i < |b| && forall r :: r in b ==> Made(r)
    ensures forall j :: 0 <= j <= i ==> 0 < Lengths(b)[j] <= CHUNK
  {
    forall j | 0 <= j <= i ensures 0 < Lengths(b)[j] <= CHUNK { assert Made(b[j]); }
  }

  /** Of a batch that the server made nothing panics, and a body is stored exactly when it starts so
      far from the end of a chunk that it fits. */
  lemma MadeBatch(b: seq<Resp>, i: nat)
    requires i < |b| && forall r :: r in b ==> Made(r)
    ensures !FateOf(Lengths(b), i).Panics?
    ensures FateOf(Lengths(b), i).Stored? <==> Offset(Lengths(b), i) % CHUNK + |RespBody(b[i])| <= CHUNK
  {
    MadeLengths(b, i);
    SmallBodiesDoNotPanic(Lengths(b), i);
  }

  /** One of 4 KiB and one of 4 MiB, as for commands 0 and 4, make a batch the server sends and of
      which the client loses the second body. */
  lemma SpanningBodyIsLost(a: Resp, b: Resp)
    requires a.ErrorCode == b.ErrorCode == 0 && |a.Content| == 4096 && |b.Content| == CHUNK
    ensures InTime([a, b], RespSize, SERVER) && Receivable([a, b])
    ensures FateOf(Lengths([a, b]), 0).Stored? && FateOf(Lengths([a, b]), 1).Spans?
  {
    ResponseBatchFits([a, b]);
    assert Off(Lengths([a, b]), 1) == Used(0, 4096);
  }

  // ---- From the server's queue to the client's requests ----------------------------------

  /** The stream of all batches. */
  function RespStream(batches: seq<seq<Resp>>): bytes
    requires forall i :: 0 <= i < |batches| ==> Receivable(batches[i])
  {
    if batches == [] then []
    else
      assert Receivable(batches[0]);
      RespBatch(batches[0]) + RespStream(batches[1..])
  }

  /** A response as the client got it: whose it is, the body that came with it, and whether the
      response has it. */
  datatype Got = Got(head: RespHead, body: bytes, stored: bool)

  /** The responses of a batch, as they should come out of the carving loop. */
  function Carvings(rs: seq<Resp>): (gs: seq<Got>)
    requires forall r :: r in rs ==> FineResp(r)
    ensures |gs| == |rs|
  {
    seq(|rs|, i requires 0 <= i < |rs| => Got(HeadOf(rs[i]), RespBody(rs[i]), FateOf(Lengths(rs), i).Stored?))
  }

  /** What the client has of a batch when it panics in it or is through. */
  ghost predicate Through(got: seq<Got>, rs: seq<Resp>)
    requires forall r :: r in rs ==> FineResp(r)
  {
    Reaches(Lengths(rs), |got|) && got == Carvings(rs)[..|got|]
  }

  function AllCarvings(batches: seq<seq<Resp>>): seq<Got>
    requires forall i :: 0 <= i < |batches| ==> Receivable(batches[i])
  {
    if batches == [] then []
    else
      assert Receivable(batches[0]);
      Carvings(batches[0]) + AllCarvings(batches[1..])
  }

  predicate MakesPanic(rs: seq<Resp>) { exists i :: 0 <= i < |rs| && FateOf(Lengths(rs), i).Panics? }

  lemma {:induction false} NextCarvings(batches: seq<seq<Resp>>, b: seq<Resp>)
    requires (forall i :: 0 <= i < |batches| ==> Receivable(batches[i])) && Receivable(b)
    ensures AllCarvings(batches + [b]) == AllCarvings(batches) + Carvings(b)
  {
    if batches == [] {
      assert [b][1..] == [] && Carvings(b) + [] == Carvings(b);
    } else {
      NextCarvings(batches[1..], b);
      assert (batches + [b])[1..] == batches[1..] + [b] && Receivable(batches[0]);
      Assoc(Carvings(batches[0]), AllCarvings(batches[1..]), Carvings(b));
    }
  }

  lemma Rest(batches: seq<seq<Resp>>, k: nat)
    requires k < |batches|
    ensures batches[k..][0] == batches[k] && batches[k..][1..] == batches[k + 1..]
  {
  }

  lemma Assoc(a: seq<Got>, b: seq<Got>, c: seq<Got>)
    ensures a + (b + c) == (a + b) + c
  {
  }

  /** However the server grouped them, the client gets exactly the responses that were flushed, in
      that order, each with its header and its body, and with the latter stored or dropped as the
      grouping has it, and reads the stream to its end; unless one of them makes it panic, which it
      then does after those before it. The first `k` batches come through. */
  method ReceiveAll(stream: bytes, ghost batches: seq<seq<Resp>>) returns (got: seq<Got>, panicked: bool, ghost k: nat)
    requires (forall i :: 0 <= i < |batches| ==> Receivable(batches[i])) && stream == RespStream(batches)
    ensures k <= |batches| && (forall i :: 0 <= i < k ==> !MakesPanic(batches[i]))
    ensures panicked <==> k < |batches|
    ensures !panicked ==> got == AllCarvings(batches)
    ensures panicked ==>
              && MakesPanic(batches[k]) && AllCarvings(batches[..k]) <= got
              && Receivable(batches[k]) && Through(got[|AllCarvings(batches[..k])|..], batches[k])
  {
    got, panicked, k := [], false, 0;
    var conn := stream;
    assert batches[0..] == batches;
    while |conn| > 0
      invariant k <= |batches| && conn == RespStream(batches[k..]) && !panicked
      invariant Passed(got, batches, k)
      decreases |batches| - k
    {
      assert batches[k..] != [];
      Rest(batches, k);
      var more;
      more, panicked, conn := ReceiveOne(conn, batches[k..]);
      if panicked {
        assert (got + more)[|got|..] == more;
        return got + more, true, k;
      }
      PassedOneMore(got, batches, k);
      got, k := got + more, k + 1;
    }
    EmptyExactlyAtEnd(batches[k..]);
    assert batches[..k] == batches;
  }

  /** The first `k` batches have come through. */
  ghost predicate Passed(got: seq<Got>, batches: seq<seq<Resp>>, k: nat)
    requires (forall i :: 0 <= i < |batches| ==> Receivable(batches[i])) && k <= |batches|
  {
    got == AllCarvings(batches[..k]) && forall i :: 0 <= i < k ==> !MakesPanic(batches[i])
  }

  lemma PassedOneMore(got: seq<Got>, batches: seq<seq<Resp>>, k: nat)
    requires (forall i :: 0 <= i < |batches| ==> Receivable(batches[i])) && k < |batches|
    requires Passed(got, batches, k) && !MakesPanic(batches[k])
    ensures Receivable(batches[k]) && Passed(got + Carvings(batches[k]), batches, k + 1)
  {
    assert Receivable(batches[k]);
    NextCarvings(batches[..k], batches[k]);
    assert batches[..k + 1] == batches[..k] + [batches[k]];
  }

  method ReceiveOne(stream: bytes, ghost batches: seq<seq<Resp>>)
      returns (got: seq<Got>, panicked: bool, stream': bytes)
    requires (forall i :: 0 <= i < |batches| ==> Receivable(batches[i])) && batches != []
    requires stream == RespStream(batches)
    ensures Receivable(batches[0]) && Through(got, batches[0]) && stream' == RespStream(batches[1..])
    ensures panicked <==> MakesPanic(batches[0])
    ensures !panicked ==> got == Carvings(batches[0])
  {
    assert Receivable(batches[0]);
    var heads, bodies;
    heads, bodies, panicked, stream' := ReceiveResponses(stream, batches[0], RespStream(batches[1..]));
    got := seq(|bodies|, i requires 0 <= i < |bodies| => Got(heads[i], bodies[i].body, bodies[i].stored));
    if panicked { assert FateOf(Lengths(batches[0]), |got|).Panics?; }
  }

  lemma EmptyExactlyAtEnd(batches: seq<seq<Resp>>)
    requires forall i :: 0 <= i < |batches| ==> Receivable(batches[i])
    ensures RespStream(batches) == [] <==> batches == []
  {
  }

  lemma {:induction false} InConcat<T>(batches: seq<seq<T>>, i: nat, x: T)
    requires i < |batches| && x in batches[i]
    ensures x in Concat(batches)
  {
    var n := |batches| - 1;
    if i < n {
      InConcat(batches[..n], i, x);
    }
  }

  lemma FlushedAreItems<T>(events: seq<Event<T>>, size: T -> nat, limits: Limits, i: nat, x: T)
    requires i < |Run(events, size, limits).flushed| && x in Run(events, size, limits).flushed[i]
    ensures x in Items(events)
  {
    NothingIsLost(events, size, limits);
    InConcat(Run(events, size, limits).flushed, i, x);
    assert x in Concat(Run(events, size, limits).flushed) + Run(events, size, limits).batch;
  }

  /** From the server's channel to the client's reader: whatever comes in between the ticks,
      the client has the responses in the order they were queued, each with its own header and
      body, and what it does not have yet is what the server is still gathering. A body is stored
      as MadeBatch says. */
  method FromServerToClient(events: seq<Event<Resp>>)
      returns (got: seq<Got>, gathered: seq<Resp>, batches: seq<seq<Resp>>)
    requires forall r :: r in Items(events) ==> Made(r)
    ensures Concat(batches) + gathered == Items(events)
    ensures forall i :: 0 <= i < |batches| ==>
              Receivable(batches[i]) && InTime(batches[i], RespSize, SERVER) && forall r :: r in batches[i] ==> Made(r)
    ensures got == AllCarvings(batches)
  {
    batches, gathered := SubmitWorker(events, RespSize, SERVER);
    NothingIsLost(events, RespSize, SERVER);
    forall i | 0 <= i < |batches|
      ensures Receivable(batches[i]) && InTime(batches[i], RespSize, SERVER) && !MakesPanic(batches[i])
      ensures forall r :: r in batches[i] ==> Made(r)
    {
      forall r | r in batches[i] ensures Made(r) { FlushedAreItems(events, RespSize, SERVER, i, r); }
      ResponseBatchesFit(events, i);
      NoPanic(batches[i]);
    }
    var panicked;
    ghost var k;
    got, panicked, k := ReceiveAll(RespStream(batches), batches);
  }

  lemma NoPanic(b: seq<Resp>)
    requires forall r :: r in b ==> Made(r)
    ensures !MakesPanic(b)
  {
    forall i | 0 <= i < |b| ensures !FateOf(Lengths(b), i).Panics? { MadeBatch(b, i); }
  }

  // ---- From the client's queue to the server's workers -----------------------------------

  predicate Fits(rs: seq<Req>)
  {
    (forall r :: r in rs ==> FineReq(r)) && |ReqHeads(rs)| <= REQ_HEADS
  }

  /** The stream of all batches, under consecutive cookies. */
  function ReqStream(cookie: uint64, batches: seq<seq<Req>>): bytes
    requires forall i :: 0 <= i < |batches| ==> Fits(batches[i])
    decreases |batches|
  {
    if batches == [] then []
    else
      assert Fits(batches[0]);
      ReqBatch(cookie, batches[0]) + ReqStream(NextCookie(cookie), batches[1..])
  }

  /** What the server hands to a worker. */
  datatype Work = Work(batchId: uint64, idx: nat, req: Req)

  /** The same request, in an object from the pool. */
  predicate SameWork(sent: Work, got: Work)
  {
    got.batchId == sent.batchId && got.idx == sent.idx && ArrivesAs(sent.req, got.req)
  }

  ghost predicate SameWorks(sent: seq<Work>, got: seq<Work>)
  {
    |got| == |sent| && forall i :: 0 <= i < |got| ==> SameWork(sent[i], got[i])
  }

  /** Every request, in order, numbered within its batch. */
  function Numbered(cookie: uint64, batches: seq<seq<Req>>): seq<Work>
    decreases |batches|
  {
    if batches == [] then [] else NumberedOne(cookie, batches[0]) + Numbered(NextCookie(cookie), batches[1..])
  }

  function NumberedOne(cookie: uint64, rs: seq<Req>): seq<Work>
  {
    seq(|rs|, i requires 0 <= i < |rs| => Work(cookie, i, rs[i]))
  }

  /** The server's reader over a whole stream: it hands out exactly the requests that were
      sent, in some objects, under their batch's cookie and with their index in it. */
  method UnbundleAll(stream: bytes, ghost cookie: uint64, ghost batches: seq<seq<Req>>) returns (work: seq<Work>)
    requires (forall i :: 0 <= i < |batches| ==> Fits(batches[i])) && stream == ReqStream(cookie, batches)
    ensures SameWorks(Numbered(cookie, batches), work)
  {
    work := [];
    var conn := stream;
    ghost var c, todo, done := cookie, batches, [];
    while |conn| > 0
      invariant (forall i :: 0 <= i < |todo| ==> Fits(todo[i])) && conn == ReqStream(c, todo)
      invariant SameWorks(done, work) && done + Numbered(c, todo) == Numbered(cookie, batches)
      decreases |todo|
    {
      assert todo != [];
      var more;
      more, conn := UnbundleOne(conn, c, todo);
      InOrder(done, NumberedOne(c, todo[0]), Numbered(NextCookie(c), todo[1..]));
      done := done + NumberedOne(c, todo[0]);
      work, c, todo := work + more, NextCookie(c), todo[1..];
    }
    NoneExactlyAtEnd(c, todo);
  }

  method UnbundleOne(stream: bytes, ghost cookie: uint64, ghost batches: seq<seq<Req>>)
      returns (work: seq<Work>, stream': bytes)
    requires (forall i :: 0 <= i < |batches| ==> Fits(batches[i])) && batches != []
    requires stream == ReqStream(cookie, batches)
    ensures SameWorks(NumberedOne(cookie, batches[0]), work) && stream' == ReqStream(NextCookie(cookie), batches[1..])
  {
    assert Fits(batches[0]);
    var batchId, reqs;
    batchId, reqs, stream' := ReceiveRequests(stream, cookie, batches[0], ReqStream(NextCookie(cookie), batches[1..]));
    work := seq(|reqs|, i requires 0 <= i < |reqs| => Work(batchId, i, reqs[i]));
  }

  lemma InOrder(a: seq<Work>, b: seq<Work>, c: seq<Work>)
    ensures a + (b + c) == (a + b) + c
  {
  }

  lemma NoneExactlyAtEnd(cookie: uint64, batches: seq<seq<Req>>)
    requires forall i :: 0 <= i < |batches| ==> Fits(batches[i])
    ensures ReqStream(cookie, batches) == [] <==> batches == []
  {
  }

  /** From the client's queue to the server's workers: the requests in the order they were
      queued, grouped in some way under consecutive cookies; what is not there yet is what the
      client is still gathering. */
  method FromClientToServer(events: seq<Event<Req>>, cookie: uint64)
      returns (work: seq<Work>, gathered: seq<Req>, batches: seq<seq<Req>>)
    requires forall r :: r in Items(events) ==> FineReq(r)
    ensures Concat(batches) + gathered == Items(events) && SameWorks(Numbered(cookie, batches), work)
    ensures forall i :: 0 <= i < |batches| ==> 0 < |batches[i]| <= MAX_BATCH_COUNT
  {
    batches, gathered := SubmitWorker(events, ReqSize, CLIENT);
    NothingIsLost(events, ReqSize, CLIENT);
    forall i | 0 <= i < |batches| ensures Fits(batches[i]) && 0 < |batches[i]| <= MAX_BATCH_COUNT {
      forall r | r in batches[i] ensures FineReq(r) { FlushedAreItems(events, ReqSize, CLIENT, i, r); }
      RequestBatchesFit(events, i);
    }
    work := UnbundleAll(ReqStream(cookie, batches), cookie, batches);
  }
}
