/** What the client's invariant means: statements about every state that any sequence of
    steps can reach, against any server that answers no request before it was sent. What one
    that does can bring about is in IorpcWitness. */
module IorpcClientTheorems {
  import opened Messages
  import opened Cardinality
  import opened MessageIds
  import opened IorpcClient
  import opened IorpcClientCount
  import opened IorpcClientInv

  ghost predicate IsRun(states: seq<State>, actions: seq<Action>)
  {
    && |states| == |actions| + 1 && Init(states[0])
    && forall i :: 0 <= i < |actions| ==>
         Enabled(states[i], actions[i]) && states[i + 1] == Apply(states[i], actions[i])
  }

  /** No object was released between the two looks of a writer at its `done`. */
  ghost predicate NothingReleasedEarly(states: seq<State>, actions: seq<Action>)
    requires |states| == |actions| + 1
  {
    forall i :: 0 <= i < |actions| ==> StillTracked(states[i], actions[i])
  }

  lemma InitialInv(s: State)
    requires Init(s)
    ensures Inv(s)
  {
    assert Charges(s) == {} && Uncounted(s) == {};
  }

  lemma {:induction false} ReachableInv(states: seq<State>, actions: seq<Action>, i: nat)
    requires IsRun(states, actions) && NothingReleasedEarly(states, actions) && i < |states|
    ensures Inv(states[i])
  {
    if i == 0 {
      InitialInv(states[0]);
    } else {
      ReachableInv(states, actions, i - 1);
      assert StillTracked(states[i - 1], actions[i - 1]);
      StepKeepsInv(states[i - 1], actions[i - 1]);
    }
  }

  // ---- One place at a time ---------------------------------------------------------------

  /** A container of the client that can hold an AsyncResult. */
  datatype Spot =
    | InPool
    | WithCaller(c: CallId)
    | InQueue(i: nat)
    | WithEvictor(c: CallId)
    | WithWriter(k: ConnId)
    | InPending(k: ConnId, id: MsgId)
    | WithReader(k: ConnId)

  predicate Occupies(s: State, o: ObjId, spot: Spot)
  {
    match spot
    case InPool => o in s.pool
    case WithCaller(c) => c in s.calls && Holding(s.calls[c].phase) && s.calls[c].obj == o
    case InQueue(i) => i < |s.queue| && s.queue[i] == o
    case WithEvictor(c) => c in s.calls && s.calls[c].phase == Disposing(o)
    case WithWriter(k) => k in s.conns && WriterHolds(s.conns[k].writer, o)
    case InPending(k, id) => k in s.conns && id in s.conns[k].pending && s.conns[k].pending[id] == o
    case WithReader(k) =>
      k in s.conns && (ReaderHolds(s.conns[k].reader, o, true) || ReaderHolds(s.conns[k].reader, o, false))
  }

  /** No AsyncResult is ever in two containers, and none is twice in the pool. */
  lemma NeverInTwoPlaces(s: State, o: ObjId, a: Spot, b: Spot)
    requires Inv(s) && Occupies(s, o, a) && Occupies(s, o, b)
    ensures a == b && s.pool[o] <= 1
  {
    Located(s, o, a);
    Located(s, o, b);
    assert ObjOk(s, o);
  }

  function LocOf(spot: Spot, s: State, o: ObjId): Loc
  {
    match spot
    case InPool => Pooled
    case WithCaller(c) => Offered(c)
    case InQueue(_) => Queued
    case WithEvictor(c) => Evicted(c)
    case WithWriter(k) => Held(k)
    case InPending(k, id) => Pending(k, id)
    case WithReader(k) => Matched(k, k in s.conns && ReaderHolds(s.conns[k].reader, o, true))
  }

  lemma Located(s: State, o: ObjId, spot: Spot)
    requires Inv(s) && Occupies(s, o, spot)
    ensures o in s.objs && s.objs[o].loc == LocOf(spot, s, o)
  {
    assert ObjOk(s, o);
    match spot {
      case InPool =>
      case WithCaller(c) => assert CallOk(s, c);
      case InQueue(i) => assert At(s, s.queue[i], Queued);
      case WithEvictor(c) => assert CallOk(s, c);
      case WithWriter(k) => assert HandsOk(s, k);
      case InPending(k, id) => assert PendingOk(s, k, id);
      case WithReader(k) => assert HandsOk(s, k);
    }
  }

  /** A call that was accepted and expects an answer has either been completed, once, and
      its object is held nowhere; or it has not, and some container holds it. */
  lemma AcceptedCallIsInOnePlace(s: State, c: CallId)
    requires Inv(s) && c in s.calls && s.calls[c].kind != OneWay && Admitted(s.calls[c].phase)
    ensures |s.calls[c].ends| <= 1
    ensures s.calls[c].ends == [] ==>
              exists spot :: Occupies(s, s.calls[c].obj, spot) && !spot.InPool? && !spot.WithCaller?
    ensures s.calls[c].ends != [] ==> forall spot :: !Occupies(s, s.calls[c].obj, spot)
  {
    var o := s.calls[c].obj;
    assert CallOk(s, c) && ObjOk(s, o);
    match s.objs[o].loc {
      case Queued => var i :| 0 <= i < |s.queue| && s.queue[i] == o; assert Occupies(s, o, InQueue(i));
      case Evicted(e) => assert Occupies(s, o, WithEvictor(e));
      case Held(k) => assert Occupies(s, o, WithWriter(k));
      case Pending(k, id) => assert Occupies(s, o, InPending(k, id));
      case Matched(k, _) => assert Occupies(s, o, WithReader(k));
      case Ended =>
        forall spot ensures !Occupies(s, o, spot) {
          if Occupies(s, o, spot) { Located(s, o, spot); }
        }
      case _ =>
    }
  }

  /** The response that belongs to a result. */
  function Own(r: Result): Response { if r.Answer? then ResponseOf(r.reply) else EMPTY_RESPONSE }

  /** The error that CallTimeout hands to its caller is what the call was completed with, even
      though the object goes back to the pool and serves other calls afterwards. The response is
      the call's own exactly when it was answered, or the object came without headers: release
      keeps them, and nothing but an answer overwrites them. */
  lemma ReturnedResultIsTheCallsExactlyWhen(s: State, c: CallId, r: Result, response: Response)
    requires Inv(s) && InPhase(s, c, Phase.Returned(r, response))
    ensures s.calls[c].ends == [r]
    ensures response == Own(r) <==> r.Answer? || s.calls[c].stale.None?
    ensures !r.Answer? ==> response == Response(s.calls[c].stale, NO_BODY)
  {
    assert CallOk(s, c);
  }

  /** release does not clear the cancellation flag, yet nothing in the pool is canceled, and
      a pooled object is referenced by nothing else. */
  lemma PoolIsClean(s: State, o: ObjId)
    requires Inv(s) && o in s.pool
    ensures s.pool[o] == 1 && o in s.objs
    ensures !s.objs[o].canceled && !s.objs[o].tracked && s.objs[o].result.None? && s.objs[o].response.Body == NO_BODY
    ensures forall spot :: Occupies(s, o, spot) ==> spot.InPool?
  {
    assert ObjOk(s, o);
    forall spot | Occupies(s, o, spot) ensures spot.InPool? { NeverInTwoPlaces(s, o, spot, InPool); }
  }

  /** So the branch of the writer that releases a canceled one-way request never runs. */
  lemma OneWayIsNeverCanceled(s: State, k: ConnId, o: ObjId)
    requires Inv(s) && k in s.conns && s.conns[k].writer == WTaken(o) && s.Object(o).canceled
    ensures s.objs[o].tracked
  {
    assert HandsOk(s, k) && ObjOk(s, o) && CallOk(s, s.objs[o].call);
  }

  /** A call that finds the queue full takes the place of the oldest one in it, when nobody
      interferes: the oldest fails with an overflow, or goes back to the pool when nobody waits
      for it. */
  lemma OverflowReplacesTheOldest(s: State, c: CallId)
    requires Inv(s) && InPhase(s, c, Offering) && s.calls[c].kind != OneWay && |s.queue| == s.limit > 0
    ensures var oldest := s.queue[0];
            var s1 := OfferStep(s, c);
            var s2 := EvictStep(s1, c);
            var s3 := DisposeStep(s2, c, oldest);
            var t := RetryStep(s3, c);
            && InPhase(s1, c, Evicting) && InPhase(s2, c, Disposing(oldest)) && InPhase(s3, c, Retrying)
            && InPhase(t, c, Accepted) && t.queue == s.queue[1..] + [s.calls[c].obj]
            && (s.Object(oldest).tracked ==> t.Owner(oldest).ends == [Overflow])
            && (!s.Object(oldest).tracked ==> oldest in t.pool)
  {
    var oldest := s.queue[0];
    assert At(s, oldest, Queued);
    assert ObjOk(s, oldest) && CallOk(s, c) && ObjOk(s, s.calls[c].obj);
    assert CallOk(s, s.objs[oldest].call);
  }

  // ---- The counter -----------------------------------------------------------------------

  /** Entries of all pending maps together. */
  function Entries(s: State): set<(ConnId, MsgId)>
  {
    set k, id | k in s.conns && id in s.conns[k].pending :: (k, id)
  }

  /** Readers that have taken a call out of a map and not yet lowered the counter. */
  function Removers(s: State): set<ConnId> { set k | k in s.conns && s.conns[k].reader.RMatched? }

  function EntryAt(s: State, e: (ConnId, MsgId)): ObjId
  {
    if e.0 in s.conns && e.1 in s.conns[e.0].pending then s.conns[e.0].pending[e.1] else 0
  }

  function InHand(s: State, k: ConnId): ObjId
  {
    if k in s.conns && s.conns[k].reader.RMatched? then s.conns[k].reader.obj else 0
  }

  lemma ChargesAreEntries(s: State)
    requires Inv(s)
    ensures |Charges(s)| == |Entries(s)| + |Removers(s)|
  {
    var filed := set o | o in s.objs && s.objs[o].loc.Pending?;
    var taken := set o | o in s.objs && s.objs[o].loc.Matched? && s.objs[o].loc.counted;
    EntriesAreFiled(s, filed);
    RemoversHold(s, taken);
    assert Charges(s) == filed + taken && filed !! taken;
  }

  lemma EntriesAreFiled(s: State, filed: set<ObjId>)
    requires Inv(s) && filed == set o | o in s.objs && s.objs[o].loc.Pending?
    ensures |Entries(s)| == |filed|
  {
    var f := (e: (ConnId, MsgId)) => EntryAt(s, e);
    forall e | e in Entries(s) ensures f(e) in filed && s.objs[f(e)].loc == Pending(e.0, e.1) {
      assert PendingOk(s, e.0, e.1);
    }
    forall o | o in filed ensures exists e :: e in Entries(s) && f(e) == o {
      assert ObjOk(s, o);
      var e := (s.objs[o].loc.conn, s.objs[o].loc.id);
      assert e in Entries(s) && f(e) == o;
    }
    SameSize(Entries(s), filed, f);
  }

  lemma RemoversHold(s: State, taken: set<ObjId>)
    requires Inv(s) && taken == set o | o in s.objs && s.objs[o].loc.Matched? && s.objs[o].loc.counted
    ensures |Removers(s)| == |taken|
  {
    var f := (k: ConnId) => InHand(s, k);
    forall k | k in Removers(s) ensures f(k) in taken && s.objs[f(k)].loc == Matched(k, true) {
      assert HandsOk(s, k);
    }
    forall o | o in taken ensures exists k :: k in Removers(s) && f(k) == o {
      assert ObjOk(s, o);
      var k := s.objs[o].loc.conn;
      assert k in Removers(s) && f(k) == o;
    }
    SameSize(Removers(s), taken, f);
  }

  /** The counter, up to the width of a uint32, is the total size of the pending maps,
      plus the readers, minus the writers, that stand between the map and the counter. */
  lemma CounterIsTotal(s: State)
    requires Inv(s)
    ensures (s.count + |Uncounted(s)| - |Entries(s)| - |Removers(s)|) % UINT32 == 0
  {
    ChargesAreEntries(s);
  }

  /** It still finds the call in its map: nobody has answered a request that was not sent. */
  predicate Prompt(s: State, k: ConnId)
  {
    k in s.conns && Filing(s.conns[k].writer) ==>
      s.conns[k].writer.id in s.conns[k].pending && s.conns[k].pending[s.conns[k].writer.id] == s.conns[k].writer.obj
  }

  /** Then its second look at `done` is safe. */
  lemma PromptIsStillTracked(s: State, k: ConnId)
    requires Inv(s) && Prompt(s, k)
    ensures StillTracked(s, Retest(k))
  {
    if k in s.conns && Filing(s.conns[k].writer) {
      assert PendingOk(s, k, s.conns[k].writer.id) && ObjOk(s, s.conns[k].writer.obj);
    }
  }

  function BeingCounted(s: State, k: ConnId): ObjId
  {
    if k in s.conns && s.conns[k].writer.WRegistered? then s.conns[k].writer.obj else 0
  }

  /** Against an honest server the counter is exact and never negative; while a reader or the
      clean-up is about to lower it, it is at least one. */
  lemma CounterIsExact(s: State)
    requires Inv(s) && (forall k {:trigger Prompt(s, k)} :: Prompt(s, k))
    requires |Charges(s)| < UINT32
    ensures s.count == |Entries(s)| + |Removers(s)| - |Uncounted(s)|
    ensures Entries(s) == {} && Removers(s) == {} ==> s.count == 0
    ensures forall k :: k in s.conns && s.conns[k].reader.RMatched? ==> s.count > 0
    ensures forall k, id :: k in s.conns && s.conns[k].writer.WStopped? && id in s.conns[k].pending ==> s.count > 0
  {
    ChargesAreEntries(s);
    var f := (k: ConnId) => BeingCounted(s, k);
    var now := set k | k in Uncounted(s) :: f(k);
    forall k | k in Uncounted(s)
      ensures f(k) in Charges(s) && s.objs[f(k)].loc == Pending(k, s.conns[k].writer.id)
    {
      assert Prompt(s, k) && PendingOk(s, k, s.conns[k].writer.id);
    }
    SameSize(Uncounted(s), now, f);
    Fewer(now, Charges(s));
    forall k | k in s.conns && s.conns[k].reader.RMatched? ensures s.count > 0 {
      assert HandsOk(s, k);
      Fewer(now, Charges(s) - {s.conns[k].reader.obj});
    }
    forall k, id | k in s.conns && s.conns[k].writer.WStopped? && id in s.conns[k].pending ensures s.count > 0 {
      assert PendingOk(s, k, id);
      Fewer(now, Charges(s) - {s.conns[k].pending[id]});
    }
  }

  /** No map of pending calls outgrows ten times the queue by more than two. */
  lemma PendingIsBounded(s: State, k: ConnId)
    requires Inv(s) && k in s.conns
    ensures |s.conns[k].pending| <= 10 * s.limit + 2
  {
    assert BoundOk(s, k);
  }
}
