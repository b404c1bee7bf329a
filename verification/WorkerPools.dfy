/** The pool that runs jnet requests: a submitter takes a ready worker off a list and hands it
    the request over the worker's own unbuffered channel, or starts a new worker. */
module WorkerPools {
  import opened Messages

  type ReqId = nat
  type WorkerId = nat

  // ---- The list of ready workers ---------------------------------------------------------

  /** The list and its two locked sections. It is a stack. */
  class WorkerPool {
    var ready: seq<WorkerId>

    constructor ()
      ensures ready == []
    {
      ready := [];
    }

    method Pop() returns (ent: Option<WorkerId>)
      modifies this
      ensures ent == TopOf(old(ready)) && ready == RestOf(old(ready))
    {
      if |ready| > 0 {
        ent := Some(ready[|ready| - 1]);
        ready := ready[..|ready| - 1];
      } else {
        ent := None;
      }
    }

    method Push(ent: WorkerId)
      modifies this
      ensures TopOf(ready) == Some(ent) && RestOf(ready) == old(ready)
    {
      ready := ready + [ent];
    }
  }

  function TopOf(ready: seq<WorkerId>): Option<WorkerId>
  {
    if ready == [] then None else Some(ready[|ready| - 1])
  }

  function RestOf(ready: seq<WorkerId>): seq<WorkerId>
  {
    if ready == [] then [] else ready[..|ready| - 1]
  }

  // ---- Submitters and workers --------------------------------------------------------------

  /** A call of Submit: before its locked section, about to send on the channel of the worker
      it took off the list, or about to start a goroutine. */
  datatype Submitter = Entering | Sending(worker: WorkerId) | Spawning

  /** A worker processes a request, has processed one and is about to go on the list, is on its
      way to its channel, or receives from it. For the last two, `taker` is history: the
      submitter that took the worker off the list. */
  datatype Worker =
    | Busy(req: ReqId)
    | Returning
    | Heading(taker: Option<ReqId>)
    | Receiving(taker: Option<ReqId>)

  /** Where a request is; history. */
  datatype Place = WithSubmitter | WithWorker(worker: WorkerId) | Processed

  /** A request that was submitted, and how often it was processed. */
  datatype Job = Job(place: Place, runs: nat)

  datatype State = State(
    ready: seq<WorkerId>,
    submitters: map<ReqId, Submitter>,
    workers: map<WorkerId, Worker>,
    jobs: seq<Job>)

  datatype Action =
    | Submit
    | Lock(req: ReqId)
    | Spawn(req: ReqId, worker: WorkerId)
    | Send(req: ReqId)
    | Process(worker: WorkerId)
    | PushReady(worker: WorkerId)
    | Receive(worker: WorkerId)

  const EMPTY := State([], map[], map[], [])

  predicate Enabled(s: State, a: Action)
  {
    match a
    case Submit => true
    case Lock(r) => r in s.submitters && s.submitters[r].Entering?
    case Spawn(r, w) => r in s.submitters && s.submitters[r].Spawning? && w !in s.workers
    case Send(r) =>
      && r in s.submitters && s.submitters[r].Sending?
      && var w := s.submitters[r].worker; w in s.workers && s.workers[w].Receiving?
    case Process(w) => w in s.workers && s.workers[w].Busy?
    case PushReady(w) => w in s.workers && s.workers[w].Returning?
    case Receive(w) => w in s.workers && s.workers[w].Heading?
  }

  function Placed(jobs: seq<Job>, r: ReqId, place: Place): (jobs': seq<Job>)
    ensures |jobs'| == |jobs|
  {
    if r < |jobs| then jobs[r := jobs[r].(place := place)] else jobs
  }

  /** The worker taken off the list by `r`. */
  function TakenBy(worker: Worker, r: ReqId): Worker
  {
    match worker
    case Heading(_) => Heading(Some(r))
    case Receiving(_) => Receiving(Some(r))
    case other => other
  }

  function DoLock(s: State, r: ReqId): State
    requires Enabled(s, Lock(r))
  {
    match TopOf(s.ready)
    case None => s.(submitters := s.submitters[r := Spawning])
    case Some(w) =>
      s.(ready := RestOf(s.ready), submitters := s.submitters[r := Sending(w)],
         workers := if w in s.workers then s.workers[w := TakenBy(s.workers[w], r)] else s.workers)
  }

  function DoProcess(s: State, w: WorkerId): State
    requires Enabled(s, Process(w))
  {
    var r := s.workers[w].req;
    s.(workers := s.workers[w := Returning],
       jobs := if r < |s.jobs| then s.jobs[r := Job(Processed, s.jobs[r].runs + 1)] else s.jobs)
  }

  function Apply(s: State, a: Action): State
    requires Enabled(s, a)
  {
    match a
    case Submit =>
      s.(submitters := s.submitters[|s.jobs| := Entering], jobs := s.jobs + [Job(WithSubmitter, 0)])
    case Lock(r) => DoLock(s, r)
    case Spawn(r, w) =>
      s.(submitters := s.submitters - {r}, workers := s.workers[w := Busy(r)], jobs := Placed(s.jobs, r, WithWorker(w)))
    case Send(r) =>
      var w := s.submitters[r].worker;
      s.(submitters := s.submitters - {r}, workers := s.workers[w := Busy(r)], jobs := Placed(s.jobs, r, WithWorker(w)))
    case Process(w) => DoProcess(s, w)
    case PushReady(w) =>
      s.(ready := s.ready + [w], workers := s.workers[w := Heading(None)])
    case Receive(w) =>
      s.(workers := s.workers[w := Receiving(s.workers[w].taker)])
  }

  // ---- The invariant -------------------------------------------------------------------------

  predicate Idle(worker: Worker) { worker.Heading? || worker.Receiving? }

  predicate ReadyOk(s: State, i: nat)
    requires i < |s.ready|
  {
    s.ready[i] in s.workers && Idle(s.workers[s.ready[i]]) && s.workers[s.ready[i]].taker.None?
  }

  predicate SubmitterOk(s: State, r: ReqId)
    requires r in s.submitters
  {
    && r < |s.jobs| && s.jobs[r].place.WithSubmitter?
    && (s.submitters[r].Sending? ==>
         var w := s.submitters[r].worker;
         w in s.workers && Idle(s.workers[w]) && s.workers[w].taker == Some(r))
  }

  predicate WorkerOk(s: State, w: WorkerId)
    requires w in s.workers
  {
    match s.workers[w]
    case Busy(r) => r < |s.jobs| && s.jobs[r].place == WithWorker(w)
    case Returning => true
    case _ =>
      match s.workers[w].taker
      case None => w in s.ready
      case Some(r) => r in s.submitters && s.submitters[r] == Sending(w)
  }

  predicate JobOk(s: State, r: ReqId)
    requires r < |s.jobs|
  {
    match s.jobs[r].place
    case WithSubmitter => r in s.submitters && s.jobs[r].runs == 0
    case WithWorker(w) => w in s.workers && s.workers[w] == Busy(r) && s.jobs[r].runs == 0
    case Processed => s.jobs[r].runs == 1
  }

  predicate Inv(s: State)
  {
    && (forall i, j :: 0 <= i < j < |s.ready| ==> s.ready[i] != s.ready[j])
    && (forall i {:trigger ReadyOk(s, i)} :: 0 <= i < |s.ready| ==> ReadyOk(s, i))
    && (forall r {:trigger SubmitterOk(s, r)} :: r in s.submitters ==> SubmitterOk(s, r))
    && (forall w {:trigger WorkerOk(s, w)} :: w in s.workers ==> WorkerOk(s, w))
    && (forall r {:trigger JobOk(s, r)} :: 0 <= r < |s.jobs| ==> JobOk(s, r))
  }

  lemma StepKeepsInv(s: State, a: Action)
    requires Inv(s) && Enabled(s, a)
    ensures Inv(Apply(s, a))
  {
    match a
    case Submit => SubmitKeepsInv(s);
    case Lock(r) => LockKeepsInv(s, r);
    case Spawn(r, w) => HandOverKeepsInv(s, r, w, Apply(s, a));
    case Send(r) =>
      assert SubmitterOk(s, r);
      HandOverKeepsInv(s, r, s.submitters[r].worker, Apply(s, a));
    case Process(w) => ProcessKeepsInv(s, w);
    case PushReady(w) => PushKeepsInv(s, w);
    case Receive(w) => ReceiveKeepsInv(s, w);
  }

  lemma SubmitKeepsInv(s: State)
    requires Inv(s)
    ensures Inv(Apply(s, Submit))
  {
    var t := Apply(s, Submit);
    forall r | r in s.submitters ensures r != |s.jobs| { assert SubmitterOk(s, r); }
    forall i | 0 <= i < |t.ready| ensures ReadyOk(t, i) { assert ReadyOk(s, i); }
    forall r | r in t.submitters ensures SubmitterOk(t, r) {
      if r != |s.jobs| {
        assert SubmitterOk(s, r);
      }
    }
    forall w | w in t.workers ensures WorkerOk(t, w) {
      assert WorkerOk(s, w);
    }
    forall r | 0 <= r < |t.jobs| ensures JobOk(t, r) {
      if r < |s.jobs| {
        assert JobOk(s, r);
      }
    }
  }

  lemma LockKeepsInv(s: State, r: ReqId)
    requires Inv(s) && Enabled(s, Lock(r))
    ensures Inv(DoLock(s, r))
  {
    var t := DoLock(s, r);
    assert SubmitterOk(s, r);
    if s.ready != [] {
      var w, top := s.ready[|s.ready| - 1], |s.ready| - 1;
      assert ReadyOk(s, top);
      assert s.ready == t.ready + [w];
    }
    forall i | 0 <= i < |t.ready| ensures ReadyOk(t, i) { assert ReadyOk(s, i); }
    forall q | q in t.submitters ensures SubmitterOk(t, q) { assert SubmitterOk(s, q); }
    forall v | v in t.workers ensures WorkerOk(t, v) { assert WorkerOk(s, v); }
    forall q | 0 <= q < |t.jobs| ensures JobOk(t, q) { assert JobOk(s, q); }
  }

  /** A request goes from its submitter to a worker: a new one, or the one it was promised. */
  lemma HandOverKeepsInv(s: State, r: ReqId, w: WorkerId, t: State)
    requires Inv(s) && r in s.submitters
    requires if w in s.workers then s.submitters[r] == Sending(w) else s.submitters[r].Spawning?
    requires t == s.(submitters := s.submitters - {r}, workers := s.workers[w := Busy(r)],
                     jobs := Placed(s.jobs, r, WithWorker(w)))
    ensures Inv(t)
  {
    assert SubmitterOk(s, r) && JobOk(s, r);
    forall i | 0 <= i < |t.ready| ensures ReadyOk(t, i) { assert ReadyOk(s, i); }
    forall q | q in t.submitters ensures SubmitterOk(t, q) { assert SubmitterOk(s, q); }
    forall v | v in t.workers ensures WorkerOk(t, v) {
      if v != w {
        assert WorkerOk(s, v);
      }
    }
    forall q | 0 <= q < |t.jobs| ensures JobOk(t, q) { assert JobOk(s, q); }
  }

  lemma ProcessKeepsInv(s: State, w: WorkerId)
    requires Inv(s) && Enabled(s, Process(w))
    ensures Inv(DoProcess(s, w))
  {
    var t := DoProcess(s, w);
    assert WorkerOk(s, w) && JobOk(s, s.workers[w].req);
    forall i | 0 <= i < |t.ready| ensures ReadyOk(t, i) { assert ReadyOk(s, i); }
    forall q | q in t.submitters ensures SubmitterOk(t, q) { assert SubmitterOk(s, q); }
    forall v | v in t.workers ensures WorkerOk(t, v) { assert WorkerOk(s, v); }
    forall q | 0 <= q < |t.jobs| ensures JobOk(t, q) { assert JobOk(s, q); }
  }

  lemma PushKeepsInv(s: State, w: WorkerId)
    requires Inv(s) && Enabled(s, PushReady(w))
    ensures Inv(Apply(s, PushReady(w)))
  {
    var t := Apply(s, PushReady(w));
    assert t.ready[|s.ready|] == w;
    forall i | 0 <= i < |t.ready| ensures ReadyOk(t, i) && (i < |s.ready| ==> t.ready[i] != w) {
      if i < |s.ready| {
        assert ReadyOk(s, i);
      }
    }
    forall q | q in t.submitters ensures SubmitterOk(t, q) { assert SubmitterOk(s, q); }
    forall v | v in t.workers ensures WorkerOk(t, v) { assert WorkerOk(s, v); }
    forall q | 0 <= q < |t.jobs| ensures JobOk(t, q) { assert JobOk(s, q); }
  }

  lemma ReceiveKeepsInv(s: State, w: WorkerId)
    requires Inv(s) && Enabled(s, Receive(w))
    ensures Inv(Apply(s, Receive(w)))
  {
    var t := Apply(s, Receive(w));
    assert WorkerOk(s, w);
    forall i | 0 <= i < |t.ready| ensures ReadyOk(t, i) { assert ReadyOk(s, i); }
    forall q | q in t.submitters ensures SubmitterOk(t, q) { assert SubmitterOk(s, q); }
    forall v | v in t.workers ensures WorkerOk(t, v) { assert WorkerOk(s, v); }
    forall q | 0 <= q < |t.jobs| ensures JobOk(t, q) { assert JobOk(s, q); }
  }

  // ---- Runs ----------------------------------------------------------------------------------

  ghost predicate IsRun(states: seq<State>, actions: seq<Action>)
  {
    && |states| == |actions| + 1 && states[0] == EMPTY
    && forall i {:trigger actions[i]} :: 0 <= i < |actions| ==>
         Enabled(states[i], actions[i]) && states[i + 1] == Apply(states[i], actions[i])
  }

  lemma {:induction false} ReachableInv(states: seq<State>, actions: seq<Action>, i: nat)
    requires IsRun(states, actions) && i < |states|
    ensures Inv(states[i])
  {
    if i > 0 {
      ReachableInv(states, actions, i - 1);
      assert Enabled(states[i - 1], actions[i - 1]);
      StepKeepsInv(states[i - 1], actions[i - 1]);
    }
  }

  /** Who has a request: its submitter or a worker. */
  datatype Holder = TheSubmitter | TheWorker(worker: WorkerId)

  predicate Holds(s: State, h: Holder, r: ReqId)
  {
    match h
    case TheSubmitter => r in s.submitters
    case TheWorker(w) => w in s.workers && s.workers[w] == Busy(r)
  }

  /** A request is processed at most once, and until then somebody has it, and nobody else. */
  lemma HeldByOneUntilProcessed(states: seq<State>, actions: seq<Action>, i: nat, r: ReqId)
    requires IsRun(states, actions) && i < |states| && r < |states[i].jobs|
    ensures var s := states[i];
            && s.jobs[r].runs <= 1
            && (s.jobs[r].runs == 0 <==> exists h :: Holds(s, h, r))
            && forall g, h :: Holds(s, g, r) && Holds(s, h, r) ==> g == h
  {
    ReachableInv(states, actions, i);
    var s := states[i];
    assert JobOk(s, r);
    forall h | Holds(s, h, r)
      ensures s.jobs[r].place == match h case TheSubmitter => WithSubmitter case TheWorker(w) => WithWorker(w)
    {
      match h
      case TheSubmitter => assert SubmitterOk(s, r);
      case TheWorker(w) => assert WorkerOk(s, w);
    }
    match s.jobs[r].place
    case WithSubmitter => assert Holds(s, TheSubmitter, r);
    case WithWorker(w) => assert Holds(s, TheWorker(w), r);
    case Processed =>
  }

  /** The list has no entry twice, and each entry's worker is idle, heading for its channel or
      there, and promised to nobody. */
  lemma ReadyWorkersAreIdle(states: seq<State>, actions: seq<Action>, i: nat, j: nat)
    requires IsRun(states, actions) && i < |states| && j < |states[i].ready|
    ensures var s, w := states[i], states[i].ready[j];
            && w in s.workers && Idle(s.workers[w])
            && (forall k :: 0 <= k < |s.ready| && s.ready[k] == w ==> k == j)
            && forall r :: r in s.submitters ==> s.submitters[r] != Sending(w)
  {
    ReachableInv(states, actions, i);
    var s := states[i];
    assert ReadyOk(s, j);
    forall r | r in s.submitters ensures s.submitters[r] != Sending(s.ready[j]) { assert SubmitterOk(s, r); }
  }

  /** An idle worker is on the list or promised to a submitter: none is forgotten. */
  lemma IdleWorkersAreFound(states: seq<State>, actions: seq<Action>, i: nat, w: WorkerId)
    requires IsRun(states, actions) && i < |states| && w in states[i].workers && Idle(states[i].workers[w])
    ensures var s := states[i];
            w in s.ready <==> !exists r :: r in s.submitters && s.submitters[r] == Sending(w)
  {
    ReachableInv(states, actions, i);
    var s := states[i];
    assert WorkerOk(s, w);
    if w in s.ready {
      var j :| 0 <= j < |s.ready| && s.ready[j] == w;
      ReadyWorkersAreIdle(states, actions, i, j);
    }
  }

  /** No two submitters have taken the same worker, and the worker a submitter has taken is
      idle: it receives the request as soon as it reaches its channel. */
  lemma TakenWorkersAreOnesOwn(states: seq<State>, actions: seq<Action>, i: nat, r: ReqId)
    requires IsRun(states, actions) && i < |states|
    requires r in states[i].submitters && states[i].submitters[r].Sending?
    ensures var s, w := states[i], states[i].submitters[r].worker;
            && (forall q :: q in s.submitters && s.submitters[q] == Sending(w) ==> q == r)
            && (Enabled(s, Send(r)) || (Enabled(s, Receive(w)) && Enabled(Apply(s, Receive(w)), Send(r))))
  {
    ReachableInv(states, actions, i);
    var s := states[i];
    assert SubmitterOk(s, r);
    forall q | q in s.submitters && s.submitters[q] == s.submitters[r] ensures q == r { assert SubmitterOk(s, q); }
  }
}
