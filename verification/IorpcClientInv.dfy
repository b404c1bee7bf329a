/** What every step of the client keeps, whatever the server sends, as long as no request is
    answered before it was sent (StillTracked); RetestKeepsInvExactlyWhen says that this cannot
    be left out. The invariant is a
    statement about each object, each call and each connection, one about the queue and one
    about the counter. An object's recorded place names the one container that holds it, and
    every container holds only objects whose place says so; hence no object is in two of them.
    There is one lemma a step, or two where one would be too much: objects and calls in one
    (KeepsOwners), connections, queue and counter in the other (KeepsConns). Each lemma first
    says what holds of the object that the step moves, and then goes through the elements one
    by one: a step touches one object, one call and one connection and leaves the others as they
    were. CallerStepKeepsInv and LoopStepKeepsInv put the lemmas together. */
module IorpcClientInv {
  import opened Messages
  import opened MessageIds
  import opened IorpcClient
  import opened IorpcClientCount

  predicate Holding(phase: Phase) { phase.Offering? || phase.Evicting? || phase.Disposing? || phase.Retrying? }

  predicate Admitted(phase: Phase) { phase.Accepted? || phase.TimedOut? }

  /** Places in which a request has not been handed to a connection yet. */
  predicate Early(loc: Loc) { loc.Offered? || loc.Queued? || loc.Evicted? || loc.Held? }

  predicate WriterHolds(w: Writer, o: ObjId)
  {
    || w == WTaken(o) || w == WReady(o)
    || (w.WLoading? && !w.filed && w.obj == o) || (w.WLoaded? && !w.filed && w.obj == o)
  }

  /** The response in an object whose call was completed, and that came with headers. */
  function Given(r: Result, stale: Option<Headers>): Response
  {
    if r.Answer? then ResponseOf(r.reply) else Response(stale, NO_BODY)
  }

  predicate ReaderHolds(r: Reader, o: ObjId, counted: bool)
  {
    if counted then r.RMatched? && r.obj == o else r.RDelivering? && r.obj == o
  }

  /** The container that an object's place names does hold the object. */
  predicate Placed(s: State, o: ObjId)
    requires o in s.objs
  {
    match s.objs[o].loc
    case Pooled => s.pool[o] == 1
    case Offered(c) => c in s.calls && Holding(s.calls[c].phase) && s.calls[c].obj == o
    case Queued => o in s.queue
    case Evicted(c) => c in s.calls && s.calls[c].phase == Disposing(o)
    case Held(k) => k in s.conns && WriterHolds(s.conns[k].writer, o)
    case Pending(k, id) => k in s.conns && id in s.conns[k].pending && s.conns[k].pending[id] == o
    case Matched(k, counted) => k in s.conns && ReaderHolds(s.conns[k].reader, o, counted)
    case Ended => true
  }

  /** A free object has been cleared, but for the headers, and nobody has canceled it. Any other
      belongs to one call, that call to it, and the call is completed exactly when the object
      says so. */
  predicate Owned(s: State, o: ObjId)
    requires o in s.objs
  {
    var b := s.objs[o];
    if b.loc.Pooled? then !b.tracked && !b.canceled && b.result.None? && b.response.Body == NO_BODY
    else
      && b.call in s.calls && s.calls[b.call].obj == o
      && var c := s.calls[b.call];
      && b.tracked == (c.kind != OneWay) && b.req == c.req
      && b.response == (if b.result.Some? then Given(b.result.value, c.stale) else Response(c.stale, NO_BODY))
      && (if b.loc.Ended? then b.result.Some? && c.ends == [b.result.value] else c.ends == [] && b.result.None?)
      && (if b.loc.Offered? then b.loc.caller == b.call else Admitted(c.phase))
      && (if Early(b.loc) then c.via.None? else b.tracked)
      && (b.canceled ==> c.phase.TimedOut? || (c.phase.Accepted? && c.kind == Async))
  }

  predicate ObjOk(s: State, o: ObjId)
  {
    if o in s.objs then (s.pool[o] != 0 ==> s.objs[o].loc.Pooled?) && Placed(s, o) && Owned(s, o)
    else s.pool[o] == 0
  }

  predicate At(s: State, o: ObjId, loc: Loc) { o in s.objs && s.objs[o].loc == loc }

  /** A call that can still learn its result owns its object; what was handed to the caller
      is what the call was completed with. */
  predicate CallOk(s: State, c: CallId)
  {
    c in s.calls ==>
      var r := s.calls[c];
      && |r.ends| <= 1
      && (Holding(r.phase) ==> At(s, r.obj, Offered(c)))
      && (r.phase.Disposing? ==> At(s, r.phase.victim, Evicted(c)))
      && (r.kind != OneWay && (Holding(r.phase) || Admitted(r.phase)) ==>
            r.obj in s.objs && !s.objs[r.obj].loc.Pooled? && s.objs[r.obj].call == c)
      && (r.phase.TimedOut? ==> r.kind == Timed)
      && (r.kind == OneWay || r.phase.Rejected? ==> r.ends == [])
      && (r.phase.Returned? ==> r.ends == [r.phase.result] && r.phase.response == Given(r.phase.result, r.stale))
  }

  /** A writer that has filed a call and not sent it yet. */
  predicate Filing(w: Writer) { w.WRegistered? || (w.WLoading? && w.filed) || (w.WLoaded? && w.filed) }

  /** What a writer holds is located there. What it has filed may be anywhere by now. */
  predicate WriterOk(s: State, k: ConnId, w: Writer)
  {
    match w
    case WTaken(o) => At(s, o, Held(k))
    case WReady(o) => At(s, o, Held(k))
    case WRegistered(o, _, _) => o in s.objs
    case WLoading(o, id, filed) => o in s.objs && (!filed ==> id == 0 && At(s, o, Held(k)) && !s.objs[o].tracked)
    case WLoaded(o, id, filed, call, req) =>
      o in s.objs
      && (!filed ==>
            id == 0 && At(s, o, Held(k)) && !s.objs[o].tracked && s.objs[o].call == call && s.objs[o].req == req)
    case _ => true
  }

  /** What a connection's writer and reader have in hand is located there. */
  predicate HandsOk(s: State, k: ConnId)
  {
    k in s.conns ==>
      var conn := s.conns[k];
      && WriterOk(s, k, conn.writer)
      && (conn.reader.RMatched? ==> At(s, conn.reader.obj, Matched(k, true)))
      && (conn.reader.RDelivering? ==> At(s, conn.reader.obj, Matched(k, false)))
  }

  predicate PendingOk(s: State, k: ConnId, id: MsgId)
  {
    k in s.conns && id in s.conns[k].pending ==> At(s, s.conns[k].pending[id], Pending(k, id))
  }

  /** The map of pending calls stays near ten times the size of the queue. */
  predicate BoundOk(s: State, k: ConnId)
  {
    k in s.conns ==>
      var n := |s.conns[k].pending|;
      match s.conns[k].writer
      case WRegistered(_, _, before) => n <= before + 1 && before <= 10 * s.limit + 1
      case WStopped => n <= 10 * s.limit + 2
      case _ => n <= 10 * s.limit + 1
  }

  predicate QueueOk(s: State)
  {
    && |s.queue| <= s.limit
    && (forall i :: 0 <= i < |s.queue| ==> At(s, s.queue[i], Queued))
    && (forall i, j :: 0 <= i < j < |s.queue| ==> s.queue[i] != s.queue[j])
  }

  ghost predicate ObjsOk(s: State) { forall o {:trigger ObjOk(s, o)} :: ObjOk(s, o) }
  ghost predicate CallsOk(s: State) { forall c {:trigger CallOk(s, c)} :: CallOk(s, c) }
  ghost predicate ConnsOk(s: State)
  {
    && (forall k {:trigger HandsOk(s, k)} :: HandsOk(s, k))
    && (forall k, id {:trigger PendingOk(s, k, id)} :: PendingOk(s, k, id))
    && (forall k {:trigger BoundOk(s, k)} :: BoundOk(s, k))
  }

  ghost predicate Inv(s: State) { ObjsOk(s) && CallsOk(s) && ConnsOk(s) && QueueOk(s) && CountOk(s) }

  // ---- One lemma a step ------------------------------------------------------------------

  lemma BeginKeepsOwners(s: State, c: CallId, kind: Kind, req: Request, o: ObjId)
    requires Inv(s)
    requires Enabled(s, Begin(c, kind, req, o))
    ensures ObjsOk(BeginStep(s, c, kind, req, o)) && CallsOk(BeginStep(s, c, kind, req, o))
  {
    assert ObjOk(s, o);
    var t := BeginStep(s, c, kind, req, o);
    forall o' ensures ObjOk(t, o') { assert ObjOk(s, o'); }
    forall c' ensures CallOk(t, c') { assert CallOk(s, c'); }
  }

  lemma BeginKeepsConns(s: State, c: CallId, kind: Kind, req: Request, o: ObjId)
    requires Inv(s)
    requires Enabled(s, Begin(c, kind, req, o))
    ensures ConnsOk(BeginStep(s, c, kind, req, o)) && QueueOk(BeginStep(s, c, kind, req, o))
    ensures CountOk(BeginStep(s, c, kind, req, o))
  {
    assert ObjOk(s, o);
    var t := BeginStep(s, c, kind, req, o);
    CountAfter(s, t, o, 0);
    forall k' ensures HandsOk(t, k') { assert HandsOk(s, k'); }
    forall k', id' ensures PendingOk(t, k', id') { assert PendingOk(s, k', id'); }
    forall k' ensures BoundOk(t, k') { assert BoundOk(s, k'); }
  }

  lemma EnqueueKeepsOwners(s: State, c: CallId)
    requires Inv(s)
    requires InPhase(s, c, Offering) || InPhase(s, c, Retrying)
    requires |s.queue| < s.limit
    ensures ObjsOk(Enqueued(s, c)) && CallsOk(Enqueued(s, c))
  {
    assert CallOk(s, c);
    assert ObjOk(s, s.calls[c].obj);
    var t := Enqueued(s, c);
    forall o' ensures ObjOk(t, o') { assert ObjOk(s, o'); }
    forall c' ensures CallOk(t, c') { assert CallOk(s, c'); }
  }

  lemma EnqueueKeepsConns(s: State, c: CallId)
    requires Inv(s)
    requires InPhase(s, c, Offering) || InPhase(s, c, Retrying)
    requires |s.queue| < s.limit
    ensures ConnsOk(Enqueued(s, c)) && QueueOk(Enqueued(s, c)) && CountOk(Enqueued(s, c))
  {
    assert CallOk(s, c);
    assert ObjOk(s, s.calls[c].obj);
    var t := Enqueued(s, c);
    CountAfter(s, t, s.calls[c].obj, 0);
    forall k' ensures HandsOk(t, k') { assert HandsOk(s, k'); }
    forall k', id' ensures PendingOk(t, k', id') { assert PendingOk(s, k', id'); }
    forall k' ensures BoundOk(t, k') { assert BoundOk(s, k'); }
  }

  lemma RefuseKeepsInv(s: State, c: CallId)
    requires Inv(s)
    requires InPhase(s, c, Offering) || InPhase(s, c, Retrying)
    ensures Inv(WithPhase(Released(s, s.calls[c].obj), c, Rejected))
  {
    assert CallOk(s, c);
    assert ObjOk(s, s.calls[c].obj);
    var t := WithPhase(Released(s, s.calls[c].obj), c, Rejected);
    CountAfter(s, t, s.calls[c].obj, 0);
    forall o' ensures ObjOk(t, o') { assert ObjOk(s, o'); }
    forall c' ensures CallOk(t, c') { assert CallOk(s, c'); }
    forall k' ensures HandsOk(t, k') { assert HandsOk(s, k'); }
    forall k', id' ensures PendingOk(t, k', id') { assert PendingOk(s, k', id'); }
    forall k' ensures BoundOk(t, k') { assert BoundOk(s, k'); }
  }

  lemma OverflowedKeepsInv(s: State, c: CallId)
    requires Inv(s)
    requires InPhase(s, c, Offering)
    ensures Inv(WithPhase(s, c, Evicting))
  {
    assert CallOk(s, c);
    var t := WithPhase(s, c, Evicting);
    CountAfter(s, t, 0, 0);
    forall o' ensures ObjOk(t, o') { assert ObjOk(s, o'); }
    forall c' ensures CallOk(t, c') { assert CallOk(s, c'); }
    forall k' ensures HandsOk(t, k') { assert HandsOk(s, k'); }
    forall k', id' ensures PendingOk(t, k', id') { assert PendingOk(s, k', id'); }
    forall k' ensures BoundOk(t, k') { assert BoundOk(s, k'); }
  }

  lemma EvictKeepsOwners(s: State, c: CallId)
    requires Inv(s)
    requires InPhase(s, c, Evicting)
    ensures ObjsOk(EvictStep(s, c)) && CallsOk(EvictStep(s, c))
  {
    assert CallOk(s, c);
    assert s.queue != [] ==> At(s, s.queue[0], Queued) && ObjOk(s, s.queue[0]);
    var t := EvictStep(s, c);
    forall o' ensures ObjOk(t, o') { assert ObjOk(s, o'); }
    forall c' ensures CallOk(t, c') { assert CallOk(s, c'); }
  }

  lemma EvictKeepsConns(s: State, c: CallId)
    requires Inv(s)
    requires InPhase(s, c, Evicting)
    ensures ConnsOk(EvictStep(s, c)) && QueueOk(EvictStep(s, c)) && CountOk(EvictStep(s, c))
  {
    assert CallOk(s, c);
    assert s.queue != [] ==> At(s, s.queue[0], Queued) && ObjOk(s, s.queue[0]);
    var t := EvictStep(s, c);
    CountAfter(s, t, if s.queue == [] then 0 else s.queue[0], 0);
    forall k' ensures HandsOk(t, k') { assert HandsOk(s, k'); }
    forall k', id' ensures PendingOk(t, k', id') { assert PendingOk(s, k', id'); }
    forall k' ensures BoundOk(t, k') { assert BoundOk(s, k'); }
  }

  lemma DisposeKeepsObjects(s: State, c: CallId, v: ObjId)
    requires Inv(s)
    requires InPhase(s, c, Disposing(v))
    ensures ObjsOk(DisposeStep(s, c, v))
  {
    assert CallOk(s, c);
    assert ObjOk(s, v);
    assert CallOk(s, s.objs[v].call);
    var t := DisposeStep(s, c, v);
    forall o' ensures ObjOk(t, o') { assert ObjOk(s, o'); }
  }

  lemma DisposeKeepsCalls(s: State, c: CallId, v: ObjId)
    requires Inv(s)
    requires InPhase(s, c, Disposing(v))
    ensures CallsOk(DisposeStep(s, c, v))
  {
    assert CallOk(s, c);
    assert ObjOk(s, v);
    assert CallOk(s, s.objs[v].call);
    var t := DisposeStep(s, c, v);
    forall c' ensures CallOk(t, c') { assert CallOk(s, c'); }
  }

  lemma DisposeKeepsConns(s: State, c: CallId, v: ObjId)
    requires Inv(s)
    requires InPhase(s, c, Disposing(v))
    ensures ConnsOk(DisposeStep(s, c, v)) && QueueOk(DisposeStep(s, c, v)) && CountOk(DisposeStep(s, c, v))
  {
    assert CallOk(s, c);
    assert ObjOk(s, v);
    assert CallOk(s, s.objs[v].call);
    var t := DisposeStep(s, c, v);
    CountAfter(s, t, v, 0);
    forall k' ensures HandsOk(t, k') { assert HandsOk(s, k'); }
    forall k', id' ensures PendingOk(t, k', id') { assert PendingOk(s, k', id'); }
    forall k' ensures BoundOk(t, k') { assert BoundOk(s, k'); }
  }

  lemma CollectKeepsInv(s: State, c: CallId, r: Result)
    requires Inv(s)
    requires InPhase(s, c, Accepted) && s.calls[c].kind == Timed
    requires s.Object(s.calls[c].obj).result == Some(r)
    ensures Inv(CollectStep(s, c, r))
  {
    assert CallOk(s, c);
    assert ObjOk(s, s.calls[c].obj);
    var t := CollectStep(s, c, r);
    CountAfter(s, t, s.calls[c].obj, 0);
    forall o' ensures ObjOk(t, o') { assert ObjOk(s, o'); }
    forall c' ensures CallOk(t, c') { assert CallOk(s, c'); }
    forall k' ensures HandsOk(t, k') { assert HandsOk(s, k'); }
    forall k', id' ensures PendingOk(t, k', id') { assert PendingOk(s, k', id'); }
    forall k' ensures BoundOk(t, k') { assert BoundOk(s, k'); }
  }

  lemma TimeOutKeepsOwners(s: State, c: CallId)
    requires Inv(s)
    requires InPhase(s, c, Accepted) && s.calls[c].kind == Timed
    ensures ObjsOk(WithPhase(Flagged(s, s.calls[c].obj), c, TimedOut))
    ensures CallsOk(WithPhase(Flagged(s, s.calls[c].obj), c, TimedOut))
  {
    assert CallOk(s, c);
    assert ObjOk(s, s.calls[c].obj);
    var t := WithPhase(Flagged(s, s.calls[c].obj), c, TimedOut);
    forall o' ensures ObjOk(t, o') { assert ObjOk(s, o'); }
    forall c' ensures CallOk(t, c') { assert CallOk(s, c'); }
  }

  lemma TimeOutKeepsConns(s: State, c: CallId)
    requires Inv(s)
    requires InPhase(s, c, Accepted) && s.calls[c].kind == Timed
    ensures ConnsOk(WithPhase(Flagged(s, s.calls[c].obj), c, TimedOut))
    ensures QueueOk(WithPhase(Flagged(s, s.calls[c].obj), c, TimedOut))
    ensures CountOk(WithPhase(Flagged(s, s.calls[c].obj), c, TimedOut))
  {
    assert CallOk(s, c);
    assert ObjOk(s, s.calls[c].obj);
    var t := WithPhase(Flagged(s, s.calls[c].obj), c, TimedOut);
    CountAfter(s, t, s.calls[c].obj, 0);
    forall k' ensures HandsOk(t, k') { assert HandsOk(s, k'); }
    forall k', id' ensures PendingOk(t, k', id') { assert PendingOk(s, k', id'); }
    forall k' ensures BoundOk(t, k') { assert BoundOk(s, k'); }
  }

  lemma CancelKeepsInv(s: State, c: CallId)
    requires Inv(s)
    requires InPhase(s, c, Accepted) && s.calls[c].kind == Async
    ensures Inv(Flagged(s, s.calls[c].obj))
  {
    assert CallOk(s, c);
    assert ObjOk(s, s.calls[c].obj);
    var t := Flagged(s, s.calls[c].obj);
    CountAfter(s, t, s.calls[c].obj, 0);
    forall o' ensures ObjOk(t, o') { assert ObjOk(s, o'); }
    forall c' ensures CallOk(t, c') { assert CallOk(s, c'); }
    forall k' ensures HandsOk(t, k') { assert HandsOk(s, k'); }
    forall k', id' ensures PendingOk(t, k', id') { assert PendingOk(s, k', id'); }
    forall k' ensures BoundOk(t, k') { assert BoundOk(s, k'); }
  }

  lemma ConnectKeepsInv(s: State, k: ConnId)
    requires Inv(s)
    requires k !in s.conns
    ensures Inv(s.(conns := s.conns[k := Conn(WIdle, RIdle, map[], 0)]))
  {
    var t := s.(conns := s.conns[k := Conn(WIdle, RIdle, map[], 0)]);
    CountAfter(s, t, 0, k);
    forall o' ensures ObjOk(t, o') { assert ObjOk(s, o'); }
    forall c' ensures CallOk(t, c') { assert CallOk(s, c'); }
    forall k' ensures HandsOk(t, k') { assert HandsOk(s, k'); }
    forall k', id' ensures PendingOk(t, k', id') { assert PendingOk(s, k', id'); }
    forall k' ensures BoundOk(t, k') { assert BoundOk(s, k'); }
  }

  lemma TakeKeepsOwners(s: State, k: ConnId)
    requires Inv(s)
    requires k in s.conns && s.conns[k].writer.WIdle? && s.queue != []
    ensures ObjsOk(TakeStep(s, k, s.queue[0])) && CallsOk(TakeStep(s, k, s.queue[0]))
  {
    assert At(s, s.queue[0], Queued) && ObjOk(s, s.queue[0]);
    assert HandsOk(s, k) && BoundOk(s, k);
    var t := TakeStep(s, k, s.queue[0]);
    forall o' ensures ObjOk(t, o') { assert ObjOk(s, o'); }
    forall c' ensures CallOk(t, c') { assert CallOk(s, c'); }
  }

  lemma TakeKeepsConns(s: State, k: ConnId)
    requires Inv(s)
    requires k in s.conns && s.conns[k].writer.WIdle? && s.queue != []
    ensures ConnsOk(TakeStep(s, k, s.queue[0])) && QueueOk(TakeStep(s, k, s.queue[0]))
    ensures CountOk(TakeStep(s, k, s.queue[0]))
  {
    assert At(s, s.queue[0], Queued) && ObjOk(s, s.queue[0]);
    assert HandsOk(s, k) && BoundOk(s, k);
    var t := TakeStep(s, k, s.queue[0]);
    CountAfter(s, t, s.queue[0], k);
    forall k' ensures HandsOk(t, k') { assert HandsOk(s, k'); }
    forall k', id' ensures PendingOk(t, k', id') { assert PendingOk(s, k', id'); }
    forall k' ensures BoundOk(t, k') { assert BoundOk(s, k'); }
  }

  lemma CheckKeepsOwners(s: State, k: ConnId, o: ObjId)
    requires Inv(s)
    requires k in s.conns && s.conns[k].writer == WTaken(o)
    ensures ObjsOk(CheckStep(s, k, o)) && CallsOk(CheckStep(s, k, o))
  {
    assert HandsOk(s, k) && BoundOk(s, k);
    assert ObjOk(s, o);
    assert CallOk(s, s.objs[o].call);
    var t := CheckStep(s, k, o);
    forall o' ensures ObjOk(t, o') { assert ObjOk(s, o'); }
    forall c' ensures CallOk(t, c') { assert CallOk(s, c'); }
  }

  lemma CheckKeepsConns(s: State, k: ConnId, o: ObjId)
    requires Inv(s)
    requires k in s.conns && s.conns[k].writer == WTaken(o)
    ensures ConnsOk(CheckStep(s, k, o)) && QueueOk(CheckStep(s, k, o)) && CountOk(CheckStep(s, k, o))
  {
    assert HandsOk(s, k) && BoundOk(s, k);
    assert ObjOk(s, o);
    assert CallOk(s, s.objs[o].call);
    var t := CheckStep(s, k, o);
    CountAfter(s, t, o, k);
    forall k' ensures HandsOk(t, k') { assert HandsOk(s, k'); }
    forall k', id' ensures PendingOk(t, k', id') { assert PendingOk(s, k', id'); }
    forall k' ensures BoundOk(t, k') { assert BoundOk(s, k'); }
  }

  lemma FileKeepsOwners(s: State, k: ConnId, o: ObjId)
    requires Inv(s)
    requires k in s.conns && s.conns[k].writer == WReady(o)
    requires s.Object(o).tracked && |s.conns[k].pending.Keys| < ID_SPACE
    ensures ObjsOk(FileStep(s, k, o)) && CallsOk(FileStep(s, k, o))
  {
    assert HandsOk(s, k) && BoundOk(s, k);
    assert ObjOk(s, o);
    assert CallOk(s, s.objs[o].call);
    NextIdIsFree(s.conns[k].msgID, s.conns[k].pending.Keys);
    var t := FileStep(s, k, o);
    forall o' ensures ObjOk(t, o') { assert ObjOk(s, o'); }
    forall c' ensures CallOk(t, c') { assert CallOk(s, c'); }
  }

  lemma FileKeepsConns(s: State, k: ConnId, o: ObjId)
    requires Inv(s)
    requires k in s.conns && s.conns[k].writer == WReady(o)
    requires s.Object(o).tracked && |s.conns[k].pending.Keys| < ID_SPACE
    ensures ConnsOk(FileStep(s, k, o)) && QueueOk(FileStep(s, k, o)) && CountOk(FileStep(s, k, o))
  {
    assert HandsOk(s, k) && BoundOk(s, k);
    assert ObjOk(s, o);
    assert CallOk(s, s.objs[o].call);
    NextIdIsFree(s.conns[k].msgID, s.conns[k].pending.Keys);
    var t := FileStep(s, k, o);
    CountAfter(s, t, o, k);
    forall k' ensures HandsOk(t, k') { assert HandsOk(s, k'); }
    forall k', id' ensures PendingOk(t, k', id') { assert PendingOk(s, k', id'); }
    forall k' ensures BoundOk(t, k') { assert BoundOk(s, k'); }
  }

  /** A writer that only moves on: past the first look at an untracked object, past reading the
      request, past encoding, or to its end. */
  predicate Onward(s: State, k: ConnId, from: Writer, to: Writer)
  {
    match from
    case WReady(o) => !s.Object(o).tracked && to == WLoading(o, 0, false)
    case WLoading(o, id, filed) => to == WLoaded(o, id, filed, s.Object(o).call, s.Object(o).req)
    case WLoaded(o, id, _, call, req) => s.Object(o).tracked && to == WSending(id, call, req)
    case WSending(_, _, _) => to.WIdle? || to.WStopped?
    case WIdle => to.WStopped?
    case _ => false
  }

  lemma OnwardKeepsInv(s: State, k: ConnId, w: Writer)
    requires Inv(s)
    requires k in s.conns && Onward(s, k, s.conns[k].writer, w)
    ensures Inv(WithWriter(s, k, w))
  {
    assert HandsOk(s, k) && BoundOk(s, k);
    var t := WithWriter(s, k, w);
    CountAfter(s, t, 0, k);
    forall o' ensures ObjOk(t, o') { assert ObjOk(s, o'); }
    forall c' ensures CallOk(t, c') { assert CallOk(s, c'); }
    forall k' ensures HandsOk(t, k') { assert HandsOk(s, k'); }
    forall k', id' ensures PendingOk(t, k', id') { assert PendingOk(s, k', id'); }
    forall k' ensures BoundOk(t, k') { assert BoundOk(s, k'); }
  }

  /** A one-way request has been read, and its object is released. */
  lemma DetachKeepsOwners(s: State, k: ConnId, o: ObjId, id: MsgId, c: CallId, req: Request)
    requires Inv(s)
    requires k in s.conns && s.conns[k].writer == WLoaded(o, id, false, c, req)
    ensures ObjsOk(RetestStep(s, k, o, id, c, req)) && CallsOk(RetestStep(s, k, o, id, c, req))
  {
    assert HandsOk(s, k) && BoundOk(s, k);
    assert ObjOk(s, o) && CallOk(s, c);
    var t := RetestStep(s, k, o, id, c, req);
    forall o' ensures ObjOk(t, o') { assert ObjOk(s, o'); }
    forall c' ensures CallOk(t, c') { assert CallOk(s, c'); }
  }

  lemma DetachKeepsConns(s: State, k: ConnId, o: ObjId, id: MsgId, c: CallId, req: Request)
    requires Inv(s)
    requires k in s.conns && s.conns[k].writer == WLoaded(o, id, false, c, req)
    ensures ConnsOk(RetestStep(s, k, o, id, c, req)) && QueueOk(RetestStep(s, k, o, id, c, req))
    ensures CountOk(RetestStep(s, k, o, id, c, req))
  {
    assert HandsOk(s, k) && BoundOk(s, k);
    assert ObjOk(s, o) && CallOk(s, c);
    var t := RetestStep(s, k, o, id, c, req);
    CountAfter(s, t, o, k);
    forall k' ensures HandsOk(t, k') { assert HandsOk(s, k'); }
    forall k', id' ensures PendingOk(t, k', id') { assert PendingOk(s, k', id'); }
    forall k' ensures BoundOk(t, k') { assert BoundOk(s, k'); }
  }

  /** The second look at `done` finds a filed object still in use. */
  predicate StillTracked(s: State, a: Action)
  {
    match a
    case Retest(k) =>
      k in s.conns && s.conns[k].writer.WLoaded? && s.conns[k].writer.filed ==> s.Object(s.conns[k].writer.obj).tracked
    case _ => true
  }

  /** Releasing a filed object breaks the invariant wherever the object is by then: in the pool
      it is twice, and a new call that has it loses it. */
  lemma RetestKeepsInvExactlyWhen(s: State, k: ConnId)
    requires Inv(s) && Enabled(s, Retest(k))
    ensures Inv(Apply(s, Retest(k))) <==> StillTracked(s, Retest(k))
  {
    var w := s.conns[k].writer;
    assert HandsOk(s, k);
    if !w.filed {
      DetachKeepsOwners(s, k, w.obj, w.id, w.call, w.req);
      DetachKeepsConns(s, k, w.obj, w.id, w.call, w.req);
    } else if s.Object(w.obj).tracked {
      OnwardKeepsInv(s, k, WSending(w.id, w.call, w.req));
    } else {
      SecondReleaseBreaks(s, k);
    }
  }

  lemma SecondReleaseBreaks(s: State, k: ConnId)
    requires Inv(s) && Enabled(s, Retest(k)) && s.conns[k].writer.filed && !s.Object(s.conns[k].writer.obj).tracked
    ensures !Inv(Apply(s, Retest(k)))
  {
    var o := s.conns[k].writer.obj;
    var t := Apply(s, Retest(k));
    assert HandsOk(s, k) && ObjOk(s, o);
    assert !s.objs[o].loc.Pooled? ==> CallOk(s, s.objs[o].call);
    assert t.pool[o] == s.pool[o] + 1 && t.objs[o].loc.Pooled? && ObjOk(t, o) ==> s.pool[o] == 0;
    match s.objs[o].loc
    case Pooled => assert !ObjOk(t, o);
    case Offered(c) => assert CallOk(s, c); assert !CallOk(t, c);
    case Queued => var i :| 0 <= i < |s.queue| && s.queue[i] == o; assert !At(t, t.queue[i], Queued);
    case Evicted(c) => assert CallOk(s, c); assert !CallOk(t, c);
    case Held(k') => assert HandsOk(s, k'); assert !HandsOk(t, k');
    case _ =>
  }

  lemma CountKeepsInv(s: State, k: ConnId, o: ObjId, id: MsgId, before: nat)
    requires Inv(s)
    requires k in s.conns && s.conns[k].writer == WRegistered(o, id, before)
    ensures Inv(CountStep(s, k, o, id, before))
  {
    assert HandsOk(s, k) && BoundOk(s, k);
    var t := CountStep(s, k, o, id, before);
    CountAfter(s, t, o, k);
    forall o' ensures ObjOk(t, o') { assert ObjOk(s, o'); }
    forall c' ensures CallOk(t, c') { assert CallOk(s, c'); }
    forall k' ensures HandsOk(t, k') { assert HandsOk(s, k'); }
    forall k', id' ensures PendingOk(t, k', id') { assert PendingOk(s, k', id'); }
    forall k' ensures BoundOk(t, k') { assert BoundOk(s, k'); }
  }

  lemma ReceiveKeepsOwners(s: State, k: ConnId, id: MsgId, reply: Reply)
    requires Inv(s)
    requires k in s.conns && s.conns[k].reader.RIdle?
    ensures ObjsOk(ReceiveStep(s, k, id, reply)) && CallsOk(ReceiveStep(s, k, id, reply))
  {
    assert HandsOk(s, k) && BoundOk(s, k) && PendingOk(s, k, id);
    assert id in s.conns[k].pending ==> ObjOk(s, s.conns[k].pending[id]);
    var t := ReceiveStep(s, k, id, reply);
    forall o' ensures ObjOk(t, o') { assert ObjOk(s, o'); }
    forall c' ensures CallOk(t, c') { assert CallOk(s, c'); }
  }

  lemma ReceiveKeepsBounds(s: State, k: ConnId, id: MsgId, reply: Reply)
    requires Inv(s)
    requires k in s.conns && s.conns[k].reader.RIdle?
    ensures var t := ReceiveStep(s, k, id, reply); forall k' {:trigger BoundOk(t, k')} :: BoundOk(t, k')
  {
    var t := ReceiveStep(s, k, id, reply);
    forall k' ensures BoundOk(t, k') { assert BoundOk(s, k'); }
  }

  lemma ReceiveKeepsConns(s: State, k: ConnId, id: MsgId, reply: Reply)
    requires Inv(s)
    requires k in s.conns && s.conns[k].reader.RIdle?
    ensures ConnsOk(ReceiveStep(s, k, id, reply)) && QueueOk(ReceiveStep(s, k, id, reply))
    ensures CountOk(ReceiveStep(s, k, id, reply))
  {
    assert HandsOk(s, k) && BoundOk(s, k) && PendingOk(s, k, id);
    assert id in s.conns[k].pending ==> ObjOk(s, s.conns[k].pending[id]);
    var t := ReceiveStep(s, k, id, reply);
    CountAfter(s, t, if id in s.conns[k].pending then s.conns[k].pending[id] else 0, k);
    forall k' ensures HandsOk(t, k') { assert HandsOk(s, k'); }
    forall k', id' ensures PendingOk(t, k', id') { assert PendingOk(s, k', id'); }
    ReceiveKeepsBounds(s, k, id, reply);
  }

  lemma UncountKeepsOwners(s: State, k: ConnId, o: ObjId, reply: Reply)
    requires Inv(s)
    requires k in s.conns && s.conns[k].reader == RMatched(o, reply)
    ensures ObjsOk(UncountStep(s, k, o, reply)) && CallsOk(UncountStep(s, k, o, reply))
  {
    assert HandsOk(s, k) && BoundOk(s, k);
    assert ObjOk(s, o);
    var t := UncountStep(s, k, o, reply);
    forall o' ensures ObjOk(t, o') { assert ObjOk(s, o'); }
    forall c' ensures CallOk(t, c') { assert CallOk(s, c'); }
  }

  lemma UncountKeepsConns(s: State, k: ConnId, o: ObjId, reply: Reply)
    requires Inv(s)
    requires k in s.conns && s.conns[k].reader == RMatched(o, reply)
    ensures ConnsOk(UncountStep(s, k, o, reply)) && QueueOk(UncountStep(s, k, o, reply))
    ensures CountOk(UncountStep(s, k, o, reply))
  {
    assert HandsOk(s, k) && BoundOk(s, k);
    assert ObjOk(s, o);
    var t := UncountStep(s, k, o, reply);
    CountAfter(s, t, o, k);
    forall k' ensures HandsOk(t, k') { assert HandsOk(s, k'); }
    forall k', id' ensures PendingOk(t, k', id') { assert PendingOk(s, k', id'); }
    forall k' ensures BoundOk(t, k') { assert BoundOk(s, k'); }
  }

  lemma DeliverKeepsOwners(s: State, k: ConnId, o: ObjId, reply: Reply)
    requires Inv(s)
    requires k in s.conns && s.conns[k].reader == RDelivering(o, reply)
    ensures ObjsOk(DeliverStep(s, k, o, reply)) && CallsOk(DeliverStep(s, k, o, reply))
  {
    assert HandsOk(s, k) && BoundOk(s, k);
    assert ObjOk(s, o);
    var t := DeliverStep(s, k, o, reply);
    forall o' ensures ObjOk(t, o') { assert ObjOk(s, o'); }
    forall c' ensures CallOk(t, c') { assert CallOk(s, c'); }
  }

  lemma DeliverKeepsConns(s: State, k: ConnId, o: ObjId, reply: Reply)
    requires Inv(s)
    requires k in s.conns && s.conns[k].reader == RDelivering(o, reply)
    ensures ConnsOk(DeliverStep(s, k, o, reply)) && QueueOk(DeliverStep(s, k, o, reply))
    ensures CountOk(DeliverStep(s, k, o, reply))
  {
    assert HandsOk(s, k) && BoundOk(s, k);
    assert ObjOk(s, o);
    var t := DeliverStep(s, k, o, reply);
    CountAfter(s, t, o, k);
    forall k' ensures HandsOk(t, k') { assert HandsOk(s, k'); }
    forall k', id' ensures PendingOk(t, k', id') { assert PendingOk(s, k', id'); }
    forall k' ensures BoundOk(t, k') { assert BoundOk(s, k'); }
  }

  lemma StopReaderKeepsInv(s: State, k: ConnId)
    requires Inv(s)
    requires k in s.conns && s.conns[k].reader.RIdle?
    ensures Inv(WithReader(s, k, RStopped))
  {
    assert HandsOk(s, k) && BoundOk(s, k);
    var t := WithReader(s, k, RStopped);
    CountAfter(s, t, 0, k);
    forall o' ensures ObjOk(t, o') { assert ObjOk(s, o'); }
    forall c' ensures CallOk(t, c') { assert CallOk(s, c'); }
    forall k' ensures HandsOk(t, k') { assert HandsOk(s, k'); }
    forall k', id' ensures PendingOk(t, k', id') { assert PendingOk(s, k', id'); }
    forall k' ensures BoundOk(t, k') { assert BoundOk(s, k'); }
  }

  lemma CleanUpKeepsOwners(s: State, k: ConnId, id: MsgId, stopping: bool)
    requires Inv(s)
    requires k in s.conns && s.conns[k].writer.WStopped? && s.conns[k].reader.RStopped? && id in s.conns[k].pending
    ensures ObjsOk(CleanUpStep(s, k, id, stopping)) && CallsOk(CleanUpStep(s, k, id, stopping))
  {
    assert HandsOk(s, k) && BoundOk(s, k) && PendingOk(s, k, id);
    assert ObjOk(s, s.conns[k].pending[id]);
    var t := CleanUpStep(s, k, id, stopping);
    forall o' ensures ObjOk(t, o') { assert ObjOk(s, o'); }
    forall c' ensures CallOk(t, c') { assert CallOk(s, c'); }
  }

  lemma CleanUpKeepsConns(s: State, k: ConnId, id: MsgId, stopping: bool)
    requires Inv(s)
    requires k in s.conns && s.conns[k].writer.WStopped? && s.conns[k].reader.RStopped? && id in s.conns[k].pending
    ensures ConnsOk(CleanUpStep(s, k, id, stopping)) && QueueOk(CleanUpStep(s, k, id, stopping))
    ensures CountOk(CleanUpStep(s, k, id, stopping))
  {
    assert HandsOk(s, k) && BoundOk(s, k) && PendingOk(s, k, id);
    assert ObjOk(s, s.conns[k].pending[id]);
    var t := CleanUpStep(s, k, id, stopping);
    CountAfter(s, t, s.conns[k].pending[id], k);
    forall k' ensures HandsOk(t, k') { assert HandsOk(s, k'); }
    forall k', id' ensures PendingOk(t, k', id') { assert PendingOk(s, k', id'); }
    forall k' ensures BoundOk(t, k') { assert BoundOk(s, k'); }
  }

  lemma CallerStepKeepsInv(s: State, a: Action)
    requires Inv(s) && Enabled(s, a)
    requires a.Offer? || a.Evict? || a.Dispose? || a.Retry? || a.Collect? || a.TimeOut? || a.Cancel?
    ensures Inv(Apply(s, a))
  {
    match a {
      case Offer(c) =>
        if |s.queue| < s.limit { EnqueueKeepsOwners(s, c); EnqueueKeepsConns(s, c); }
        else if s.calls[c].kind == OneWay { RefuseKeepsInv(s, c); }
        else { OverflowedKeepsInv(s, c); }
      case Evict(c) => EvictKeepsOwners(s, c); EvictKeepsConns(s, c);
      case Dispose(c) =>
        var v := s.calls[c].phase.victim;
        DisposeKeepsObjects(s, c, v);
        DisposeKeepsCalls(s, c, v);
        DisposeKeepsConns(s, c, v);
      case Retry(c) =>
        if |s.queue| < s.limit { EnqueueKeepsOwners(s, c); EnqueueKeepsConns(s, c); }
        else { RefuseKeepsInv(s, c); }
      case Collect(c) => CollectKeepsInv(s, c, s.Object(s.calls[c].obj).result.value);
      case TimeOut(c) => TimeOutKeepsOwners(s, c); TimeOutKeepsConns(s, c);
      case Cancel(c) => CancelKeepsInv(s, c);
    }
  }

  lemma LoopStepKeepsInv(s: State, a: Action)
    requires Inv(s) && Enabled(s, a) && StillTracked(s, a)
    requires !(a.Begin? || a.Offer? || a.Evict? || a.Dispose? || a.Retry? || a.Collect? || a.TimeOut? || a.Cancel?)
    ensures Inv(Apply(s, a))
  {
    match a {
      case Connect(k) => ConnectKeepsInv(s, k);
      case Take(k) => TakeKeepsOwners(s, k); TakeKeepsConns(s, k);
      case Check(k) => CheckKeepsOwners(s, k, s.conns[k].writer.obj); CheckKeepsConns(s, k, s.conns[k].writer.obj);
      case Register(k) =>
        var o := s.conns[k].writer.obj;
        if s.Object(o).tracked { FileKeepsOwners(s, k, o); FileKeepsConns(s, k, o); }
        else { OnwardKeepsInv(s, k, WLoading(o, 0, false)); }
      case Count(k) => var w := s.conns[k].writer; CountKeepsInv(s, k, w.obj, w.id, w.before);
      case Load(k) =>
        var w := s.conns[k].writer;
        OnwardKeepsInv(s, k, WLoaded(w.obj, w.id, w.filed, s.Object(w.obj).call, s.Object(w.obj).req));
      case Retest(k) => RetestKeepsInvExactlyWhen(s, k);
      case Sent(k) => OnwardKeepsInv(s, k, WIdle);
      case StopWriter(k) => OnwardKeepsInv(s, k, WStopped);
      case Receive(k, id, reply) => ReceiveKeepsOwners(s, k, id, reply); ReceiveKeepsConns(s, k, id, reply);
      case Uncount(k) =>
        var r := s.conns[k].reader;
        UncountKeepsOwners(s, k, r.obj, r.reply); UncountKeepsConns(s, k, r.obj, r.reply);
      case Deliver(k) =>
        var r := s.conns[k].reader;
        DeliverKeepsOwners(s, k, r.obj, r.reply); DeliverKeepsConns(s, k, r.obj, r.reply);
      case StopReader(k) => StopReaderKeepsInv(s, k);
      case CleanUp(k, id, stopping) => CleanUpKeepsOwners(s, k, id, stopping); CleanUpKeepsConns(s, k, id, stopping);
    }
  }

  /** Every step of the client keeps the invariant, whatever the server sends, unless the second
      look at `done` meets a filed object that was released in the meantime. */
  lemma StepKeepsInv(s: State, a: Action)
    requires Inv(s) && Enabled(s, a) && StillTracked(s, a)
    ensures Inv(Apply(s, a))
  {
    if a.Begin? {
      BeginKeepsOwners(s, a.c, a.kind, a.req, a.o);
      BeginKeepsConns(s, a.c, a.kind, a.req, a.o);
    } else if a.Offer? || a.Evict? || a.Dispose? || a.Retry? || a.Collect? || a.TimeOut? || a.Cancel? {
      CallerStepKeepsInv(s, a);
    } else {
      LoopStepKeepsInv(s, a);
    }
  }
}
