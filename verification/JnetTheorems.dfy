/** What holds of a jnet connection in every state that any sequence of steps can reach, as long
    as no cookie is reused while it is in flight (JnetRouting.CookiesAreFresh says when). */
module JnetTheorems {
  import opened Messages
  import opened JnetWire
  import opened JnetCalls
  import opened JnetCallsInv
  import opened JnetRouting
  import opened Cardinality
  import opened JnetBodies
  import B = JnetBatching

  ghost predicate Reachable(n: Net, gen: DataGen)
  {
    exists run, steps :: IsRun(run, steps, gen) && FreshCookies(run, steps) && run[|steps|] == n
  }

  lemma ReachableGood(n: Net, gen: DataGen)
    requires Reachable(n, gen)
    ensures Good(n, gen)
  {
    var run, steps :| IsRun(run, steps, gen) && FreshCookies(run, steps) && run[|steps|] == n;
    ReachableIsGood(run, steps, gen, |steps|);
  }

  // ---- Conservation ----------------------------------------------------------------------

  /** The places in the two lines, and the workers, that hold something of batch `k`. */
  function AskedUnder(s: State, k: uint64): set<nat> { set j | 0 <= j < |s.asked| && s.asked[j].cookie == k }
  function WorkingUnder(s: State, k: uint64): set<nat> { set w | w in s.working && s.working[w].cookie == k }
  function AnsweredUnder(s: State, k: uint64): set<nat> { set j | 0 <= j < |s.answered| && s.answered[j].BatchId == k }

  /** The indices of batch `k` whose calls are asked, worked on, answered. */
  function AskedIdx(s: State, k: uint64): set<nat>
  {
    set i | 0 <= i < MAX_BATCH_COUNT && Filed(s, k, i, CallAt(s, k, i)) && s.calls[CallAt(s, k, i)].place.Asked?
  }
  function WorkingIdx(s: State, k: uint64): set<nat>
  {
    set i | 0 <= i < MAX_BATCH_COUNT && Filed(s, k, i, CallAt(s, k, i)) && s.calls[CallAt(s, k, i)].place.Working?
  }
  function AnsweredIdx(s: State, k: uint64): set<nat>
  {
    set i | 0 <= i < MAX_BATCH_COUNT && Filed(s, k, i, CallAt(s, k, i)) && s.calls[CallAt(s, k, i)].place.Answered?
  }

  lemma AskedAreIdx(s: State, k: uint64)
    requires Inv(s)
    ensures |AskedUnder(s, k)| == |AskedIdx(s, k)|
  {
    var f := (j: nat) => if j < |s.asked| then s.asked[j].idx else 0;
    forall j | j in AskedUnder(s, k) ensures f(j) in AskedIdx(s, k) { assert AskedOk(s, j); }
    forall i | i in AskedIdx(s, k) ensures exists j :: j in AskedUnder(s, k) && f(j) == i {
      var c := CallAt(s, k, i);
      assert CallOk(s, c) && EntryOk(s, k) && At(s.calls[c].place, k, i);
      var j :| 0 <= j < |s.asked| && s.asked[j] == TokenOf(s.calls[c], k, i);
      assert j in AskedUnder(s, k) && f(j) == i;
    }
    forall j, j' | j in AskedUnder(s, k) && j' in AskedUnder(s, k) && f(j) == f(j') ensures j == j' {
      assert AskedOk(s, j) && AskedOk(s, j');
      assert s.asked[j] == s.asked[j'];
    }
    SameSize(AskedUnder(s, k), AskedIdx(s, k), f);
  }

  lemma WorkingAreIdx(s: State, k: uint64)
    requires Inv(s)
    ensures |WorkingUnder(s, k)| == |WorkingIdx(s, k)|
  {
    var f := (w: nat) => if w in s.working then s.working[w].idx else 0;
    forall w | w in WorkingUnder(s, k) ensures f(w) in WorkingIdx(s, k) { assert WorkingOk(s, w); }
    forall i | i in WorkingIdx(s, k) ensures exists w :: w in WorkingUnder(s, k) && f(w) == i {
      var c := CallAt(s, k, i);
      assert CallOk(s, c) && EntryOk(s, k) && At(s.calls[c].place, k, i);
      var w := s.calls[c].place.worker;
      assert w in WorkingUnder(s, k) && f(w) == i;
    }
    forall w, w' | w in WorkingUnder(s, k) && w' in WorkingUnder(s, k) && f(w) == f(w') ensures w == w' {
      assert WorkingOk(s, w) && WorkingOk(s, w');
    }
    SameSize(WorkingUnder(s, k), WorkingIdx(s, k), f);
  }

  lemma WhereAnswered(s: State, k: uint64, i: nat) returns (j: nat)
    requires Inv(s) && i in AnsweredIdx(s, k)
    ensures j in AnsweredUnder(s, k) && s.answered[j].Idx == i
  {
    var c := CallAt(s, k, i);
    assert CallOk(s, c) && EntryOk(s, k) && At(s.calls[c].place, k, i);
    j :| 0 <= j < |s.answered| && s.answered[j] == Process(s.gen, TokenOf(s.calls[c], k, i), s.calls[c].place.stale);
  }

  lemma AnsweredOnce(s: State, j: nat, j': nat)
    requires Inv(s) && j < |s.answered| && j' < |s.answered|
    requires s.answered[j].BatchId == s.answered[j'].BatchId && s.answered[j].Idx == s.answered[j'].Idx
    ensures j == j'
  {
    assert AnsweredOk(s, j) && AnsweredOk(s, j');
    assert s.answered[j] == s.answered[j'];
  }

  lemma AnsweredAreIdx(s: State, k: uint64)
    requires Inv(s)
    ensures |AnsweredUnder(s, k)| == |AnsweredIdx(s, k)|
  {
    var f := (j: nat) => if j < |s.answered| then s.answered[j].Idx as nat else 0;
    forall j | j in AnsweredUnder(s, k) ensures f(j) in AnsweredIdx(s, k) { assert AnsweredOk(s, j); }
    forall i | i in AnsweredIdx(s, k) ensures exists j :: j in AnsweredUnder(s, k) && f(j) == i {
      var j := WhereAnswered(s, k, i);
      assert j in AnsweredUnder(s, k) && f(j) == i;
    }
    forall j, j' | j in AnsweredUnder(s, k) && j' in AnsweredUnder(s, k) && f(j) == f(j') ensures j == j' {
      AnsweredOnce(s, j, j');
    }
    SameSize(AnsweredUnder(s, k), AnsweredIdx(s, k), f);
  }

  lemma OutstandingSplits(s: State, k: uint64)
    requires Inv(s) && k in s.inflight
    ensures |Outstanding(s.calls, s.inflight[k].reqs)| == |AskedIdx(s, k)| + |WorkingIdx(s, k)| + |AnsweredIdx(s, k)|
  {
    assert EntryOk(s, k);
    var reqs := s.inflight[k].reqs;
    forall i | 0 <= i < |reqs|
      ensures Filed(s, k, i, CallAt(s, k, i)) && CallAt(s, k, i) == reqs[i] && At(s.calls[reqs[i]].place, k, i)
    {
    }
    assert Outstanding(s.calls, reqs) == AskedIdx(s, k) + WorkingIdx(s, k) + AnsweredIdx(s, k);
    assert AskedIdx(s, k) !! WorkingIdx(s, k) && (AskedIdx(s, k) + WorkingIdx(s, k)) !! AnsweredIdx(s, k);
  }

  /** In every reachable state the counter of each batch in flight is the number of its calls
      not completed, and is what there is of the batch on its way: requests sent, being sent or
      unbundled, requests in the hands of workers, and responses queued, grouped, sent or about
      to be routed. It is never zero, and of a batch not in flight there is nothing anywhere. */
  lemma LeftIsWhatIsOnItsWay(n: Net, gen: DataGen, k: uint64)
    requires Reachable(n, gen) && !n.panicked
    ensures var s := View(n);
            var onItsWay := |AskedUnder(s, k)| + |WorkingUnder(s, k)| + |AnsweredUnder(s, k)|;
            if k in n.inflight
            then n.inflight[k].left == |Outstanding(n.calls, n.inflight[k].reqs)| == onItsWay > 0
            else onItsWay == 0
  {
    ReachableGood(n, gen);
    var s := View(n);
    AskedAreIdx(s, k);
    WorkingAreIdx(s, k);
    AnsweredAreIdx(s, k);
    if k in s.inflight {
      OutstandingSplits(s, k);
      assert EntryOk(s, k);
    }
  }

  /** A batch leaves the table exactly when its last call is completed. */
  lemma EntryLeavesWithTheLast(n: Net, a: Step, gen: DataGen, k: uint64)
    requires Reachable(n, gen) && !n.panicked && CanStep(n, a) && FreshCookie(n, a) && k in n.inflight
    requires !Next(n, a).panicked
    ensures k !in Next(n, a).inflight
       <==> forall i :: 0 <= i < |n.inflight[k].reqs| && n.inflight[k].reqs[i] < |Next(n, a).calls|
              ==> Next(n, a).calls[n.inflight[k].reqs[i]].place.Completed?
  {
    ReachableGood(n, gen);
    StepKeepsGood(n, a, gen);
    var v, w, reqs := View(n), View(Next(n, a)), n.inflight[k].reqs;
    assert EntryOk(v, k);
    if k in w.inflight {
      assert EntryOk(w, k);
      StillListed(n, a, k);
      var i :| i in Outstanding(w.calls, reqs);
    } else {
      assert a.RouteNext?;
      RouteRefines(n);
      RoutePanicsExactlyWhen(v, n.off);
      RouteFinds(v, n.off);
      EntryGoesLast(v, n.off);
      OnlyOne(Outstanding(v.calls, reqs), v.answered[0].Idx);
      forall i | 0 <= i < |reqs| ensures w.calls[reqs[i]].place.Completed? {
        assert i !in Outstanding(w.calls, reqs);
      }
    }
  }

  lemma StillListed(n: Net, a: Step, k: uint64)
    requires CanStep(n, a) && FreshCookie(n, a) && k in n.inflight && k in Next(n, a).inflight
    ensures Next(n, a).inflight[k].reqs == n.inflight[k].reqs
  {
  }

  // ---- Routing ---------------------------------------------------------------------------

  /** Every response that reaches the client finds its batch in the table and its index in the
      batch, and the request there is the one it answers, still waiting. The reader panics exactly
      when the command's data is sent and is empty or does not fit what is left of two chunks. */
  lemma ResponsesFindTheirRequests(n: Net, gen: DataGen)
    requires Reachable(n, gen) && CanStep(n, RouteNext)
    ensures var r := n.inbox[0];
            && r.BatchId in n.inflight && r.Idx < |n.inflight[r.BatchId].reqs|
            && var c := n.inflight[r.BatchId].reqs[r.Idx];
            && c < |n.calls| && n.calls[c].closed == 0 && n.calls[c].place.Answered?
            && var CMD, stale := n.calls[c].CMD % 16, n.calls[c].place.stale;
            && ResultOf(r, n.off) == Given(gen, n.calls[c].CMD, stale, n.off)
            && (Next(n, RouteNext).panicked <==>
                  CMD <= 4 && !stale && (gen(CMD) == [] || n.off + |gen(CMD)| > 2 * CHUNK))
  {
    ReachableGood(n, gen);
    RouteRefines(n);
    var v := View(n);
    assert v.answered[0] == n.inbox[0] && AnsweredOk(v, 0);
    RoutePanicsExactlyWhen(v, n.off);
    var c := CallAt(v, n.inbox[0].BatchId, n.inbox[0].Idx);
    assert CallOk(v, c);
    GetsItsOwn(gen, TokenOf(v.calls[c], n.inbox[0].BatchId, n.inbox[0].Idx), v.calls[c].CMD, v.calls[c].place.stale,
        n.off);
  }

  /** With data for every command and no more than 4 MiB of it, the reader never panics: it finds
      no batch missing, no index past its batch, no channel closed already and no body that it
      cannot carve. */
  lemma NeverPanicsWithData(n: Net, gen: DataGen)
    requires Reachable(n, gen) && HasData(gen)
    ensures !n.panicked
  {
    ReachableGood(n, gen);
  }

  // ---- What a call gets ------------------------------------------------------------------

  /** The result for a call's own command. */
  function Own(gen: DataGen, CMD: byte): Result
  {
    if CMD % 16 <= 4 then Result(0, Some(gen(CMD % 16))) else Result(1, Some(INVALID_TEXT))
  }

  /** A request is completed at most once. It is given its own result exactly when the body was
      stored and no valid command was answered in a response that still had an error code. */
  lemma CompletedOnce(n: Net, gen: DataGen, c: nat)
    requires Reachable(n, gen) && !n.panicked && c < |n.calls|
    ensures n.calls[c].closed <= 1 && (n.calls[c].closed == 1 <==> n.calls[c].place.Completed?)
    ensures n.calls[c].closed == 1 ==>
              var stale, off := n.calls[c].place.stale, n.calls[c].place.off;
              && n.calls[c].resp == Some(Given(gen, n.calls[c].CMD, stale, off))
              && (n.calls[c].resp == Some(Own(gen, n.calls[c].CMD)) <==>
                    && (stale ==> n.calls[c].CMD % 16 > 4)
                    && FateAt(off, |Own(gen, n.calls[c].CMD).body.value|).Stored?)
  {
    ReachableGood(n, gen);
    assert CallOk(View(n), c);
  }

  /** With data of at most 4 MiB: the response that the reader routes next completes its call with
      its own result exactly when the server's response object was clean, or the command was
      invalid, and the body's place in the batch modulo 4 MiB and its length come to at most 4 MiB. */
  lemma CompletedWithItsOwnExactlyWhen(n: Net, gen: DataGen)
    requires Reachable(n, gen) && HasData(gen) && CanStep(n, RouteNext)
    ensures var r, i := n.inbox[0], |n.batch| - |n.inbox|;
            && 0 <= i < |n.batch| && r == n.batch[i] && r.BatchId in n.inflight && r.Idx < |n.inflight[r.BatchId].reqs|
            && var c, m := n.inflight[r.BatchId].reqs[r.Idx], Next(n, RouteNext);
            && c < |n.calls| && n.calls[c].place.Answered? && c < |m.calls| && m.calls[c].closed == 1
            && (m.calls[c].resp == Some(Own(gen, n.calls[c].CMD)) <==>
                  && (n.calls[c].place.stale ==> n.calls[c].CMD % 16 > 4)
                  && Offset(Lengths(n.batch), i) % CHUNK + |RespBody(r)| <= CHUNK)
  {
    RoutesIt(n, gen);
    FitsExactlyWhen(n, gen);
    var c := n.inflight[n.inbox[0].BatchId].reqs[n.inbox[0].Idx];
    OwnExactlyWhen(gen, n.calls[c].CMD, n.calls[c].place.stale, n.off, n.inbox[0]);
  }

  lemma RoutesIt(n: Net, gen: DataGen)
    requires Reachable(n, gen) && HasData(gen) && CanStep(n, RouteNext)
    ensures var r := n.inbox[0];
            && r.BatchId in n.inflight && r.Idx < |n.inflight[r.BatchId].reqs|
            && var c, m := n.inflight[r.BatchId].reqs[r.Idx], Next(n, RouteNext);
            && c < |n.calls| && n.calls[c].place.Answered? && c < |m.calls|
            && m.calls[c] == Closed(n.calls[c], r, n.off) && m.calls[c].closed == 1
            && ResultOf(r, n.off) == Given(gen, n.calls[c].CMD, n.calls[c].place.stale, n.off)
  {
    ReachableGood(n, gen);
    ResponsesFindTheirRequests(n, gen);
    StepKeepsInv(n, RouteNext, gen);
  }

  lemma FitsExactlyWhen(n: Net, gen: DataGen)
    requires Reachable(n, gen) && HasData(gen) && CanStep(n, RouteNext)
    ensures var r, i := n.inbox[0], |n.batch| - |n.inbox|;
            && 0 <= i < |n.batch| && r == n.batch[i]
            && (FateAt(n.off, |RespBody(r)|).Stored? <==> Offset(Lengths(n.batch), i) % CHUNK + |RespBody(r)| <= CHUNK)
  {
    ReachableGood(n, gen);
    assert n.inbox[0] == n.batch[|n.batch| - |n.inbox|];
    B.MadeBatch(n.batch, |n.batch| - |n.inbox|);
  }

  lemma OwnExactlyWhen(gen: DataGen, CMD: byte, stale: bool, off: nat, r: Resp)
    requires ResultOf(r, off) == Given(gen, CMD, stale, off)
    ensures ResultOf(r, off) == Own(gen, CMD)
       <==> (stale ==> CMD % 16 > 4) && FateAt(off, |RespBody(r)|).Stored?
  {
  }

  /** What Get makes of the response, which had the body `before` when it came out of the pool. */
  datatype Seen = Panics | Sees(failed: bool, body: bytes)

  function Get(r: Result, before: Option<bytes>): Seen
  {
    match (if r.body.Some? then r.body else before)
    case None => Seen.Panics
    case Some(b) => Sees(r.ErrorCode != 0, b)
  }

  /** A caller whose body was dropped gets the body of an earlier call, or its goroutine panics. */
  lemma DroppedBodyIsNotSeen(gen: DataGen, CMD: byte, off: nat, before: Option<bytes>)
    requires !Given(gen, CMD, false, off).body.Some?
    ensures Get(Given(gen, CMD, false, off), before)
         == match before case None => Seen.Panics case Some(b) => Sees(CMD % 16 > 4, b)
    ensures Get(Own(gen, CMD), before) == Sees(CMD % 16 > 4, Own(gen, CMD).body.value)
  {
  }

  /** What the server says to a command when all of it arrives. */
  function Answering8Bits(gen: DataGen, CMD: byte): Result
  {
    if CMD <= 4 then Result(0, Some(gen(CMD))) else Result(1, Some(INVALID_TEXT))
  }

  /** The upper half of a command is cut off on the way: the result is the command's own exactly
      when that makes no valid command of an invalid one. */
  lemma OwnCommandExactlyWhen(gen: DataGen, CMD: byte)
    ensures Own(gen, CMD) == Answering8Bits(gen, CMD) <==> CMD < 16 || CMD % 16 > 4
  {
  }

  // ---- Response objects that still have an error code --------------------------------------

  predicate Valid(call: Call) { call.CMD % 16 <= 4 }

  predicate IsClean(call: Call) { (call.place.Answered? || call.place.Completed?) ==> !call.place.stale }

  ghost predicate AllValid(n: Net) { forall c :: 0 <= c < |n.calls| ==> Valid(n.calls[c]) }

  ghost predicate Clean(n: Net)
  {
    n.tainted == 0 && forall c :: 0 <= c < |n.calls| ==> IsClean(n.calls[c])
  }

  lemma {:induction false} NoneFailed(rs: seq<Resp>)
    requires forall r :: r in rs ==> r.ErrorCode == 0
    ensures Failed(rs) == 0
  {
    if rs != [] {
      NoneFailed(rs[1..]);
    }
  }

  /** Of valid commands, answered in clean objects, no response has an error code. */
  lemma GatheredAreFine(n: Net)
    requires !n.panicked && Inv(View(n)) && AllValid(n) && Clean(n)
    ensures Failed(n.resps) == 0
  {
    forall r | r in n.resps ensures r.ErrorCode == 0 {
      var s := View(n);
      assert r in s.answered;
      var i :| 0 <= i < |s.answered| && s.answered[i] == r;
      assert AnsweredOk(s, i);
      var c := CallAt(s, r.BatchId, r.Idx);
      assert Valid(n.calls[c]) && IsClean(n.calls[c]);
    }
    NoneFailed(n.resps);
  }

  lemma StepKeepsCommands(n: Net, a: Step)
    requires CanStep(n, a) && AllValid(Next(n, a))
    ensures AllValid(n)
  {
    forall c | 0 <= c < |n.calls| ensures Valid(n.calls[c]) { assert Valid(Next(n, a).calls[c]); }
  }

  lemma StepKeepsClean(n: Net, a: Step, gen: DataGen)
    requires Good(n, gen) && CanStep(n, a) && Clean(n) && AllValid(n) && !a.Taint?
    ensures Clean(Next(n, a))
  {
    if a.FlushResponses? {
      GatheredAreFine(n);
    }
    forall c | 0 <= c < |Next(n, a).calls| ensures IsClean(Next(n, a).calls[c]) {
      assert c < |n.calls| ==> IsClean(n.calls[c]);
    }
  }

  /** As long as no connection is sent an invalid command, the server's response objects stay clean. */
  lemma {:induction false} ValidCommandsKeepClean(run: seq<Net>, steps: seq<Step>, gen: DataGen, i: nat)
    requires IsRun(run, steps, gen) && FreshCookies(run, steps) && i < |run|
    requires Taint !in steps && AllValid(run[i])
    ensures Clean(run[i])
  {
    if i > 0 {
      var n, a := run[i - 1], steps[i - 1];
      assert StepOf(n, a, run[i]) && FreshCookie(n, a);
      StepKeepsCommands(n, a);
      ValidCommandsKeepClean(run, steps, gen, i - 1);
      ReachableIsGood(run, steps, gen, i - 1);
      StepKeepsClean(n, a, gen);
    }
  }

  // ---- Down to the bytes -------------------------------------------------------------------

  /** What is on the connection to the client in any reachable state is a stream of batches that
      fit the client's buffers; with data for every command none of them makes it panic. */
  lemma RepliesAreReceivable(n: Net, gen: DataGen, i: nat)
    requires Reachable(n, gen) && !n.panicked && i < |n.replies|
    ensures B.InTime(n.replies[i], B.RespSize, B.SERVER) && Receivable(n.replies[i])
    ensures HasData(gen) ==> !B.MakesPanic(n.replies[i])
  {
    ReachableGood(n, gen);
    RepliesAreMade(n, i);
    B.SizedBatchFits(n.replies[i]);
    if HasData(gen) { B.NoPanic(n.replies[i]); }
  }

  /** So of the bytes of that stream the client's reader makes just the responses that RouteNext
      will route, with their bodies stored just as RouteNext has it, up to the first that makes it
      panic; with data for every command, all of them. */
  method ReceiveReachable(ghost n: Net, ghost gen: DataGen, stream: bytes)
      returns (got: seq<B.Got>, panicked: bool, ghost k: nat)
    requires Reachable(n, gen) && !n.panicked
    requires forall i :: 0 <= i < |n.replies| ==> Receivable(n.replies[i])
    requires stream == B.RespStream(n.replies)
    ensures k <= |n.replies| && (forall i :: 0 <= i < k ==> !B.MakesPanic(n.replies[i]))
    ensures (panicked <==> k < |n.replies|) && (!panicked ==> got == B.AllCarvings(n.replies))
    ensures panicked ==>
              && B.MakesPanic(n.replies[k]) && B.AllCarvings(n.replies[..k]) <= got
              && B.Through(got[|B.AllCarvings(n.replies[..k])|..], n.replies[k])
    ensures HasData(gen) ==> !panicked
  {
    got, panicked, k := B.ReceiveAll(stream, n.replies);
    if HasData(gen) && panicked { RepliesAreReceivable(n, gen, k); }
  }

  /** The reader of the step system is in its batch where the carving loop is. */
  lemma RoutedAsCarved(n: Net, gen: DataGen)
    requires Reachable(n, gen) && HasData(gen) && CanStep(n, RouteNext)
    ensures var r, i := n.inbox[0], |n.batch| - |n.inbox|;
            && (forall r :: r in n.batch ==> FineResp(r)) && 0 <= i < |n.batch| && FineResp(r)
            && B.Carvings(n.batch)[i].head == HeadOf(r)
            && ResultOf(r, n.off)
               == Result(r.ErrorCode, if B.Carvings(n.batch)[i].stored then Some(B.Carvings(n.batch)[i].body) else None)
  {
    ReachableGood(n, gen);
    assert n.inbox[0] == n.batch[|n.batch| - |n.inbox|];
    forall r | r in n.batch ensures FineResp(r) { assert B.Made(r); }
  }

  // ---- Nothing is lost -----------------------------------------------------------------------

  /** A request that was submitted is somewhere: waiting, under way, or completed. */
  lemma NoRequestIsLost(n: Net, gen: DataGen, c: nat)
    requires Reachable(n, gen) && !n.panicked && c < |n.calls| && n.calls[c].closed == 0
    ensures || c in n.queue || c in n.requests
            || exists k, i :: k in n.inflight && 0 <= i < |n.inflight[k].reqs| && n.inflight[k].reqs[i] == c
                              && i in Outstanding(n.calls, n.inflight[k].reqs)
  {
    ReachableGood(n, gen);
    var s := View(n);
    assert CallOk(s, c);
    var p := n.calls[c].place;
    if !p.Waiting? {
      assert Filed(s, p.cookie, p.idx, c);
      assert p.idx in Outstanding(n.calls, n.inflight[p.cookie].reqs);
    }
  }
}
