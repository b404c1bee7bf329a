/** A jnet connection with its batches. Requests are grouped under a cookie, unbundled, run by
    workers, and their responses grouped anew on the way back, in a grouping that has nothing
    to do with the first; the reader routes them by batch and index. Every step either moves
    things along without changing the calls, or is a step of JnetCalls. */
module JnetRouting {
  import opened Messages
  import opened JnetWire
  import opened JnetCalls
  import opened JnetCallsInv
  import opened JnetBodies
  import opened Cardinality
  import B = JnetBatching

  const QUEUE := 2048

  /** A batch of requests as it is on the connection. */
  datatype Batch = Batch(cookie: uint64, CMDs: seq<byte>)

  datatype Net = Net(
    gen: DataGen,
    calls: seq<Call>,
    queue: seq<nat>,                // reqCH
    requests: seq<nat>,             // what the client's submit worker has gathered
    nextCookie: uint64,
    inflight: map<uint64, Entry>,
    sending: Option<Batch>,         // a batch in flush, filed and not written yet
    stream: seq<Batch>,             // the connection, client to server
    unbundled: seq<Token>,          // what the server's reader has yet to submit
    working: map<nat, Token>,       // requests in the hands of workers
    tainted: nat,                   // pooled responses of the server with an error code in them
    respCH: seq<Resp>,
    resps: seq<Resp>,               // what the server's submit worker has gathered
    replies: seq<seq<Resp>>,        // the connection, server to client
    inbox: seq<Resp>,               // what the client's reader has yet to route
    off: nat,                       // how much of a chunk the reader has used
    batch: seq<Resp>,               // history: the batch it is working on
    panicked: bool)

  datatype Step =
    | Submit(CMD: byte)
    | Gather
    | FlushBatch
    | Write
    | ReceiveBatch
    | SubmitWork(worker: nat)
    | ProcessRequest(worker: nat, stale: bool)
    | Taint
    | GatherResponse
    | FlushResponses
    | ReceiveReplies
    | RouteNext

  predicate CanStep(n: Net, a: Step)
  {
    && !n.panicked
    && match a
       case Submit(_) => |n.queue| < QUEUE
       case Gather => n.queue != [] && |n.requests| < MAX_BATCH_COUNT && n.sending.None?
       case FlushBatch => n.requests != [] && n.sending.None?
       case Write => n.sending.Some?
       case ReceiveBatch => n.stream != [] && n.unbundled == []
       case SubmitWork(w) => n.unbundled != [] && w !in n.working
       case ProcessRequest(w, stale) => w in n.working && |n.respCH| < QUEUE && (stale ==> n.tainted > 0)
       case Taint => true
       case GatherResponse => n.respCH != [] && !B.Full(n.resps, B.RespSize, B.SERVER)
       case FlushResponses => n.resps != []
       case ReceiveReplies => n.replies != [] && n.inbox == []
       case RouteNext => n.inbox != []
  }

  function CMDs(calls: seq<Call>, reqs: seq<nat>): (r: seq<byte>)
    ensures |r| == |reqs|
  {
    seq(|reqs|, i requires 0 <= i < |reqs| => if reqs[i] < |calls| then calls[reqs[i]].CMD % 16 else 0)
  }

  /** recvWorker numbers the requests of a batch. */
  function Unbundle(b: Batch): (ts: seq<Token>)
    ensures |ts| == |b.CMDs|
  {
    seq(|b.CMDs|, i requires 0 <= i < |b.CMDs| => Token(b.cookie, i, b.CMDs[i]))
  }

  /** How many of the responses that go back to the pool have an error code. */
  function Failed(rs: seq<Resp>): nat
  {
    if rs == [] then 0 else Failed(rs[1..]) + One(rs[0].ErrorCode != 0)
  }

  /** The pool of responses belongs to all connections of the process; Taint is a step of another. */
  function Next(n: Net, a: Step): Net
    requires CanStep(n, a)
  {
    match a
    case Submit(CMD) =>
      n.(calls := n.calls + [CallFor(CMD)], queue := n.queue + [|n.calls|])
    case Gather =>
      n.(queue := n.queue[1..], requests := n.requests + [n.queue[0]])
    case FlushBatch =>
      n.(calls := Ship(n.calls, n.requests, n.nextCookie),
         requests := [],
         nextCookie := NextCookie(n.nextCookie),
         inflight := n.inflight[n.nextCookie := Entry(n.requests, |n.requests|)],
         sending := Some(Batch(n.nextCookie, CMDs(n.calls, n.requests))))
    case Write =>
      n.(sending := None, stream := n.stream + [n.sending.value])
    case ReceiveBatch =>
      n.(stream := n.stream[1..], unbundled := Unbundle(n.stream[0]))
    case SubmitWork(w) =>
      var t := n.unbundled[0];
      n.(calls := Moved(n.calls, n.inflight, t.cookie, t.idx, Working(t.cookie, t.idx, w)),
         unbundled := n.unbundled[1..], working := n.working[w := t])
    case ProcessRequest(w, stale) =>
      var t := n.working[w];
      n.(calls := Moved(n.calls, n.inflight, t.cookie, t.idx, Answered(t.cookie, t.idx, stale)),
         working := n.working - {w}, tainted := if stale then n.tainted - 1 else n.tainted,
         respCH := n.respCH + [Process(n.gen, t, stale)])
    case Taint =>
      n.(tainted := n.tainted + 1)
    case GatherResponse =>
      n.(respCH := n.respCH[1..], resps := n.resps + [n.respCH[0]])
    case FlushResponses =>
      n.(resps := [], replies := n.replies + [n.resps], tainted := n.tainted + Failed(n.resps))
    case ReceiveReplies =>
      n.(replies := n.replies[1..], inbox := n.replies[0], off := 0, batch := n.replies[0])
    case RouteNext =>
      var done := Route(n.calls, n.inflight, n.inbox[0], n.off);
      n.(calls := done.calls, inflight := done.inflight, panicked := done.panicked, inbox := n.inbox[1..],
         off := Used(n.off, |RespBody(n.inbox[0])|))
  }

  // ---- Grouping is invisible -------------------------------------------------------------

  function Flat<B, T>(bs: seq<B>, f: B -> seq<T>): seq<T>
  {
    if bs == [] then [] else f(bs[0]) + Flat(bs[1..], f)
  }

  lemma {:induction false} FlatLast<B, T>(bs: seq<B>, b: B, f: B -> seq<T>)
    ensures Flat(bs + [b], f) == Flat(bs, f) + f(b)
  {
    if bs == [] {
      assert [b][1..] == [];
    } else {
      FlatLast(bs[1..], b, f);
      assert (bs + [b])[1..] == bs[1..] + [b];
    }
  }

  function Itself(rs: seq<Resp>): seq<Resp> { rs }

  function BeingSent(sending: Option<Batch>): seq<Token>
  {
    match sending case None => [] case Some(b) => Unbundle(b)
  }

  function Asking(n: Net): seq<Token> { n.unbundled + Flat(n.stream, Unbundle) + BeingSent(n.sending) }

  function Answering(n: Net): seq<Resp> { n.inbox + Flat(n.replies, Itself) + n.resps + n.respCH }

  /** The calls, and the two lines, without the grouping. */
  function View(n: Net): State
  {
    State(n.gen, n.calls, n.requests + n.queue, n.nextCookie, n.inflight, Asking(n), n.working, Answering(n),
        n.panicked)
  }

  function ActionOf(n: Net, a: Step): Option<Action>
  {
    match a
    case Submit(CMD) => Some(Ask(CMD))
    case FlushBatch => Some(Flush(|n.requests|))
    case SubmitWork(w) => Some(Take(w))
    case ProcessRequest(w, stale) => Some(Answer(w, stale))
    case RouteNext => Some(Complete(n.off))
    case _ => None
  }

  predicate Gathered(n: Net) { |n.requests| <= MAX_BATCH_COUNT }

  lemma MovesKeepView(n: Net, a: Step)
    requires CanStep(n, a) && ActionOf(n, a).None?
    ensures View(Next(n, a)) == View(n)
  {
    var m := Next(n, a);
    match a
    case Gather =>
      assert m.requests + m.queue == n.requests + n.queue;
    case Write =>
      FlatLast(n.stream, n.sending.value, Unbundle);
      assert Asking(m) == Asking(n);
    case ReceiveBatch =>
      assert Asking(m) == Asking(n);
    case Taint =>
    case GatherResponse =>
      assert Answering(m) == Answering(n);
    case FlushResponses =>
      FlatLast(n.replies, n.resps, Itself);
      assert Answering(m) == Answering(n);
    case ReceiveReplies =>
      assert Answering(m) == Answering(n);
  }

  lemma SubmitRefines(n: Net, CMD: byte)
    requires CanStep(n, Submit(CMD))
    ensures View(Next(n, Submit(CMD))) == DoAsk(View(n), CMD)
  {
    assert View(Next(n, Submit(CMD))).waiting == View(n).waiting + [|n.calls|];
  }

  /** What the server will unbundle is what the client put under the cookie. */
  lemma UnbundleUndoesFlush(calls: seq<Call>, reqs: seq<nat>, cookie: uint64)
    ensures Unbundle(Batch(cookie, CMDs(calls, reqs))) == Tokens(calls, reqs, cookie)
  {
  }

  lemma FlushRefines(n: Net)
    requires CanStep(n, FlushBatch) && Gathered(n)
    ensures Enabled(View(n), Flush(|n.requests|))
    ensures View(Next(n, FlushBatch)) == DoFlush(View(n), |n.requests|)
  {
    var v, m, k := View(n), Next(n, FlushBatch), |n.requests|;
    assert v.waiting[..k] == n.requests && v.waiting[k..] == n.queue && [] + n.queue == n.queue;
    UnbundleUndoesFlush(n.calls, n.requests, n.nextCookie);
    assert Asking(m) == Asking(n) + Tokens(n.calls, n.requests, n.nextCookie);
  }

  lemma ServerStepRefines(n: Net, a: Step)
    requires CanStep(n, a) && (a.SubmitWork? || a.ProcessRequest?)
    ensures var b := ActionOf(n, a).value;
            Enabled(View(n), b) && View(Next(n, a)) == Apply(View(n), b)
  {
    var v, m := View(n), Next(n, a);
    match a
    case SubmitWork(w) =>
      assert v.asked[0] == n.unbundled[0];
      assert Asking(m) == Asking(n)[1..];
    case ProcessRequest(w, stale) =>
      assert Answering(m) == Answering(n) + [Process(n.gen, n.working[w], stale)];
  }

  lemma RouteRefines(n: Net)
    requires CanStep(n, RouteNext) && n.off <= CHUNK
    ensures Enabled(View(n), Complete(n.off)) && View(Next(n, RouteNext)) == DoComplete(View(n), n.off)
  {
    var v, m := View(n), Next(n, RouteNext);
    assert v.answered[0] == n.inbox[0];
    assert Answering(m) == Answering(n)[1..];
  }

  /** Each step is a step of the calls, or none. */
  lemma StepRefines(n: Net, a: Step)
    requires CanStep(n, a) && Gathered(n) && n.off <= CHUNK
    ensures Gathered(Next(n, a))
    ensures match ActionOf(n, a)
            case None => View(Next(n, a)) == View(n)
            case Some(b) => Enabled(View(n), b) && View(Next(n, a)) == Apply(View(n), b)
  {
    match a
    case Submit(CMD) => SubmitRefines(n, CMD);
    case FlushBatch => FlushRefines(n);
    case SubmitWork(_) => ServerStepRefines(n, a);
    case ProcessRequest(_, _) => ServerStepRefines(n, a);
    case RouteNext => RouteRefines(n);
    case _ => MovesKeepView(n, a);
  }

  // ---- Runs ------------------------------------------------------------------------------

  function Start(gen: DataGen): Net
  {
    Net(gen, [], [], [], 0, map[], None, [], [], map[], 0, [], [], [], [], 0, [], false)
  }

  /** The cookie of a batch that leaves is not the cookie of one in flight. */
  predicate FreshCookie(n: Net, a: Step) { a.FlushBatch? ==> n.nextCookie !in n.inflight }

  ghost predicate StepOf(n: Net, a: Step, m: Net)
  {
    CanStep(n, a) && m == Next(n, a)
  }

  ghost predicate IsRun(run: seq<Net>, steps: seq<Step>, gen: DataGen)
  {
    && |run| == |steps| + 1 && run[0] == Start(gen)
    && forall i {:trigger steps[i]} :: 0 <= i < |steps| ==> StepOf(run[i], steps[i], run[i + 1])
  }

  ghost predicate FreshCookies(run: seq<Net>, steps: seq<Step>)
    requires |run| == |steps| + 1
  {
    forall i {:trigger steps[i]} :: 0 <= i < |steps| ==> FreshCookie(run[i], steps[i])
  }

  /** The commands the server knows have data to answer with, at most 4 MiB each. */
  ghost predicate HasData(gen: DataGen)
  {
    forall k: byte :: k <= 4 ==> 0 < |gen(k)| <= CHUNK
  }

  /** What the server has gathered, sent, and what the reader works on, is a batch gathered in time;
      the reader is where the responses it has routed have taken it. */
  ghost predicate GroupsOk(n: Net)
  {
    && (n.resps == [] || B.InTime(n.resps, B.RespSize, B.SERVER))
    && (forall i :: 0 <= i < |n.replies| ==> B.InTime(n.replies[i], B.RespSize, B.SERVER))
    && |n.inbox| <= |n.batch| && n.inbox == n.batch[|n.batch| - |n.inbox|..]
    && n.off == Off(Lengths(n.batch), |n.batch| - |n.inbox|)
    && (!n.panicked ==> n.off <= CHUNK)
  }

  lemma GatherKeepsInTime(b: seq<Resp>, r: Resp)
    requires b == [] || B.InTime(b, B.RespSize, B.SERVER)
    requires !B.Full(b, B.RespSize, B.SERVER)
    ensures B.InTime(b + [r], B.RespSize, B.SERVER)
  {
    forall k | 0 < k < |b + [r]| ensures !B.Full((b + [r])[..k], B.RespSize, B.SERVER) {
      assert (b + [r])[..k] == if k < |b| then b[..k] else b;
    }
  }

  lemma RoutingMovesOn(n: Net)
    requires GroupsOk(n) && CanStep(n, RouteNext)
    ensures var m := Next(n, RouteNext);
            && m.inbox == m.batch[|m.batch| - |m.inbox|..] && m.off == Off(Lengths(m.batch), |m.batch| - |m.inbox|)
            && (!m.panicked ==> m.off <= CHUNK)
  {
    var i := |n.batch| - |n.inbox|;
    assert n.inbox[0] == n.batch[i] && n.inbox[1..] == n.batch[i + 1..];
    assert Lengths(n.batch)[i] == |RespBody(n.inbox[0])|;
  }

  lemma GatherKeepsGroups(n: Net)
    requires GroupsOk(n) && CanStep(n, GatherResponse)
    ensures GroupsOk(Next(n, GatherResponse))
  {
    GatherKeepsInTime(n.resps, n.respCH[0]);
  }

  lemma StepKeepsGroups(n: Net, a: Step)
    requires GroupsOk(n) && CanStep(n, a)
    ensures GroupsOk(Next(n, a))
  {
    match a
    case GatherResponse => GatherKeepsGroups(n);
    case FlushResponses => FlushKeepsGroups(n);
    case ReceiveReplies => ReceiveKeepsGroups(n);
    case RouteNext => RouteKeepsGroups(n);
    case _ => SameGroupsAreOk(n, Next(n, a));
  }

  lemma RouteKeepsGroups(n: Net)
    requires GroupsOk(n) && CanStep(n, RouteNext)
    ensures GroupsOk(Next(n, RouteNext))
  {
    RoutingMovesOn(n);
  }

  lemma SameGroupsAreOk(n: Net, m: Net)
    requires GroupsOk(n) && SameGroups(n, m)
    ensures GroupsOk(m)
  {
  }

  /** Nothing that GroupsOk speaks of has changed. */
  predicate SameGroups(n: Net, m: Net)
  {
    && m.resps == n.resps && m.replies == n.replies && m.inbox == n.inbox && m.batch == n.batch && m.off == n.off
    && m.panicked == n.panicked
  }

  lemma ReceiveKeepsGroups(n: Net)
    requires GroupsOk(n) && CanStep(n, ReceiveReplies)
    ensures GroupsOk(Next(n, ReceiveReplies))
  {
  }

  lemma FlushKeepsGroups(n: Net)
    requires GroupsOk(n) && CanStep(n, FlushResponses)
    ensures GroupsOk(Next(n, FlushResponses))
  {
  }

  ghost predicate Good(n: Net, gen: DataGen)
  {
    && n.gen == gen && Gathered(n) && GroupsOk(n)
    && (!n.panicked ==> Inv(View(n)))
    && AllSized(n.batch) && (HasData(gen) ==> !n.panicked && AllMade(n.batch))
  }

  ghost predicate AllSized(rs: seq<Resp>) { forall r :: r in rs ==> B.Sized(r) }

  ghost predicate AllMade(rs: seq<Resp>) { forall r :: r in rs ==> B.Made(r) }

  /** With data of at most 4 MiB for each command, everything a worker makes is a response that the
      batching carries to the client (JnetBatching.FromServerToClient). */
  lemma ProcessedIsMade(gen: DataGen, t: Token, stale: bool)
    ensures B.Made(Process(gen, t, stale)) <==> (t.CMD <= 4 ==> |gen(t.CMD)| <= CHUNK && (stale || gen(t.CMD) != []))
  {
  }

  /** So all that is on its way back was made that way. */
  lemma AnsweringIsMade(n: Net, r: Resp)
    requires !n.panicked && Inv(View(n)) && r in Answering(n)
    ensures B.Sized(r) && (HasData(n.gen) ==> B.Made(r))
  {
    var s := View(n);
    var i :| 0 <= i < |s.answered| && s.answered[i] == r;
    assert AnsweredOk(s, i);
  }

  lemma {:induction false} InFlat(bs: seq<seq<Resp>>, i: nat, r: Resp)
    requires i < |bs| && r in bs[i]
    ensures r in Flat(bs, Itself)
  {
    if i > 0 {
      InFlat(bs[1..], i - 1, r);
    }
  }

  lemma RepliesAreMade(n: Net, i: nat)
    requires !n.panicked && Inv(View(n)) && i < |n.replies|
    ensures AllSized(n.replies[i]) && (HasData(n.gen) ==> AllMade(n.replies[i]))
  {
    forall r | r in n.replies[i] ensures B.Sized(r) && (HasData(n.gen) ==> B.Made(r)) {
      InFlat(n.replies, i, r);
      AnsweringIsMade(n, r);
    }
  }

  lemma StepKeepsInv(n: Net, a: Step, gen: DataGen)
    requires Good(n, gen) && CanStep(n, a) && FreshCookie(n, a)
    ensures !Next(n, a).panicked ==> Inv(View(Next(n, a)))
    ensures HasData(gen) ==> !Next(n, a).panicked
  {
    StepRefines(n, a);
    var v := View(n);
    match ActionOf(n, a)
    case None =>
    case Some(b) =>
      match b
      case Ask(CMD) => AskKeepsInv(v, CMD);
      case Flush(k) => FlushKeepsInv(v, k);
      case Take(w) => TakeKeepsInv(v, w);
      case Answer(w, stale) => AnswerKeepsInv(v, w, stale);
      case Complete(off) =>
        RoutePanicsExactlyWhen(v, off);
        if Comes(v, off) {
          CompleteKeepsInv(v, off);
        }
  }

  lemma StepKeepsGood(n: Net, a: Step, gen: DataGen)
    requires Good(n, gen) && CanStep(n, a) && FreshCookie(n, a)
    ensures Good(Next(n, a), gen)
  {
    StepRefines(n, a);
    StepKeepsInv(n, a, gen);
    StepKeepsGroups(n, a);
    if a.ReceiveReplies? {
      RepliesAreMade(n, 0);
    }
  }

  lemma {:induction false} ReachableIsGood(run: seq<Net>, steps: seq<Step>, gen: DataGen, i: nat)
    requires IsRun(run, steps, gen) && FreshCookies(run, steps) && i < |run|
    ensures Good(run[i], gen)
  {
    if i == 0 {
      assert View(run[0]) == State(gen, [], [], 0, map[], [], map[], [], false);
    } else {
      ReachableIsGood(run, steps, gen, i - 1);
      assert StepOf(run[i - 1], steps[i - 1], run[i]) && FreshCookie(run[i - 1], steps[i - 1]);
      StepKeepsGood(run[i - 1], steps[i - 1], gen);
    }
  }

  /** How many batches have left. */
  function Flushes(steps: seq<Step>): nat
  {
    if steps == [] then 0 else Flushes(steps[..|steps| - 1]) + if steps[|steps| - 1].FlushBatch? then 1 else 0
  }

  /** Before the counter wraps, it is the number of batches and larger than every cookie in use. */
  lemma {:induction false} CookiesGrow(run: seq<Net>, steps: seq<Step>, gen: DataGen, i: nat)
    requires IsRun(run, steps, gen) && i < |run| && Flushes(steps[..i]) < 0x1_0000_0000_0000_0000
    ensures run[i].nextCookie == Flushes(steps[..i])
    ensures forall k :: k in run[i].inflight ==> k < run[i].nextCookie
  {
    if i > 0 {
      assert steps[..i][..i - 1] == steps[..i - 1];
      CookiesGrow(run, steps, gen, i - 1);
      assert StepOf(run[i - 1], steps[i - 1], run[i]);
      CookiesStay(run[i - 1], steps[i - 1]);
    }
  }

  lemma CookiesStay(n: Net, a: Step)
    requires CanStep(n, a)
    ensures var m := Next(n, a);
            && m.nextCookie == (if a.FlushBatch? then NextCookie(n.nextCookie) else n.nextCookie)
            && forall k :: k in m.inflight ==> k in n.inflight || (a.FlushBatch? && k == n.nextCookie)
  {
  }

  lemma {:induction false} CookieIsFresh(run: seq<Net>, steps: seq<Step>, gen: DataGen, i: nat)
    requires IsRun(run, steps, gen) && Flushes(steps) <= 0x1_0000_0000_0000_0000 && i < |steps|
    ensures FreshCookie(run[i], steps[i])
  {
    if steps[i].FlushBatch? {
      assert steps[..i + 1][..i] == steps[..i];
      FlushesGrow(steps, i + 1);
      CookiesGrow(run, steps, gen, i);
    }
  }

  /** So no cookie is used twice at the same time in a run of at most 2^64 batches. */
  lemma {:induction false} CookiesAreFresh(run: seq<Net>, steps: seq<Step>, gen: DataGen)
    requires IsRun(run, steps, gen) && Flushes(steps) <= 0x1_0000_0000_0000_0000
    ensures FreshCookies(run, steps)
  {
    forall i | 0 <= i < |steps| ensures FreshCookie(run[i], steps[i]) { CookieIsFresh(run, steps, gen, i); }
  }

  lemma {:induction false} FlushesGrow(steps: seq<Step>, i: nat)
    requires i <= |steps|
    ensures Flushes(steps[..i]) <= Flushes(steps)
    decreases |steps|
  {
    if i < |steps| {
      FlushesGrow(steps[..|steps| - 1], i);
      assert steps[..|steps| - 1][..i] == steps[..i];
    } else {
      assert steps[..i] == steps;
    }
  }
}
