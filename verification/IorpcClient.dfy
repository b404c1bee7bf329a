/** The client side of the iorpc call protocol as a step system: concurrent callers, the
    bounded request queue they share, the pool of AsyncResult objects, and for every
    connection one writer loop, one reader loop and the map of pending calls. Every channel
    operation, locked section, atomic counter update and look at a shared object is a step of
    its own. What comes back from the network is arbitrary here: a reader may be given any
    identifier and any reply at any time, even one to a request that has not been sent yet. */
module IorpcClient {
  import opened Messages
  import opened MessageIds

  type ObjId = nat
  type CallId = nat
  type ConnId = nat

  /** Send, CallTimeout and CallAsync. Only the last exposes its AsyncResult to the user. */
  datatype Kind = OneWay | Timed | Async

  /** What a call is completed with when its `done` channel is closed. */
  datatype Result = Answer(reply: Reply) | Overflow | Canceled | Disconnected | StoppedWithoutError

  datatype Phase =
    | Offering
    | Evicting
    | Disposing(victim: ObjId)
    | Retrying
    | Accepted
    | Rejected
    | Returned(result: Result, response: Response)
    | TimedOut

  /** One invocation of callAsync. `ends` records every completion of the call, `via` the
      connection whose writer took the request over and `stale` the response headers that the
      object came with; no step reads them. */
  datatype Call = Call(kind: Kind, req: Request, obj: ObjId, phase: Phase,
                       ends: seq<Result>, via: Option<ConnId>, stale: Option<Headers>)

  /** Where an AsyncResult is. Recorded for the proofs; no step reads it. */
  datatype Loc =
    | Pooled
    | Offered(caller: CallId)
    | Queued
    | Evicted(caller: CallId)
    | Held(conn: ConnId)
    | Pending(conn: ConnId, id: MsgId)
    | Matched(conn: ConnId, counted: bool)
    | Ended

  /** An AsyncResult: `tracked` says that `done` is not nil, `req` and `response` are the fields
      of those names, `result` is what `done` was closed with. `call` and `loc` are history. */
  datatype Obj = Obj(call: CallId, req: Request, tracked: bool, canceled: bool,
                     result: Option<Result>, response: Response, loc: Loc)

  /** A writer waits; has taken an object off the queue; has seen that it is not canceled; has
      filed it and not counted it yet; is about to read the request; has read it and is about to
      look at `done` again; encodes; or is done for. `filed` and `call` are history. */
  datatype Writer =
    | WIdle
    | WTaken(obj: ObjId)
    | WReady(obj: ObjId)
    | WRegistered(obj: ObjId, id: MsgId, before: nat)
    | WLoading(obj: ObjId, id: MsgId, filed: bool)
    | WLoaded(obj: ObjId, id: MsgId, filed: bool, call: CallId, req: Request)
    | WSending(id: MsgId, call: CallId, req: Request)
    | WStopped

  datatype Reader = RIdle | RMatched(obj: ObjId, reply: Reply) | RDelivering(obj: ObjId, reply: Reply) | RStopped

  datatype Conn = Conn(writer: Writer, reader: Reader, pending: map<MsgId, ObjId>, msgID: MsgId)

  /** `limit` is PendingRequests, the capacity of the queue; `count` is the uint32
      pendingRequestsCount. */
  datatype State = State(limit: nat, pool: multiset<ObjId>, queue: seq<ObjId>,
                         objs: map<ObjId, Obj>, calls: map<CallId, Call>,
                         conns: map<ConnId, Conn>, count: nat)
  {
    /** Lookups are total so that steps need no side conditions; the invariant shows that
        the default values are never used. */
    function Object(o: ObjId): Obj
    {
      if o in objs then objs[o] else Obj(0, BLANK_REQUEST, false, false, None, EMPTY_RESPONSE, Ended)
    }
    function CallOf(c: CallId): Call
    {
      if c in calls then calls[c] else Call(OneWay, BLANK_REQUEST, 0, Rejected, [], None, None)
    }
    function Owner(o: ObjId): Call { CallOf(Object(o).call) }
    function Link(k: ConnId): Conn { if k in conns then conns[k] else Conn(WStopped, RStopped, map[], 0) }
  }

  const UINT32: nat := 0x1_0000_0000

  function Increment(count: nat): nat { (count + 1) % UINT32 }
  function Decrement(count: nat): nat { (count + (UINT32 - 1)) % UINT32 }

  datatype Action =
    | Begin(c: CallId, kind: Kind, req: Request, o: ObjId)
    | Offer(c: CallId)
    | Evict(c: CallId)
    | Dispose(c: CallId)
    | Retry(c: CallId)
    | Collect(c: CallId)
    | TimeOut(c: CallId)
    | Cancel(c: CallId)
    | Connect(k: ConnId)
    | Take(k: ConnId)
    | Check(k: ConnId)
    | Register(k: ConnId)
    | Count(k: ConnId)
    | Load(k: ConnId)
    | Retest(k: ConnId)
    | Sent(k: ConnId)
    | StopWriter(k: ConnId)
    | Receive(k: ConnId, id: MsgId, reply: Reply)
    | Uncount(k: ConnId)
    | Deliver(k: ConnId)
    | StopReader(k: ConnId)
    | CleanUp(k: ConnId, id: MsgId, stopping: bool)

  // ---- Pieces of steps ---------------------------------------------------------------

  function Moved(s: State, o: ObjId, loc: Loc): State
  {
    s.(objs := s.objs[o := s.Object(o).(loc := loc)])
  }

  /** Error or response stored in the object, `done` closed. */
  function Completed(s: State, o: ObjId, r: Result): State
  {
    var c := s.Object(o).call;
    s.(objs := s.objs[o := s.Object(o).(result := Some(r), loc := Ended)],
       calls := s.calls[c := s.CallOf(c).(ends := s.CallOf(c).ends + [r])])
  }

  /** releaseAsyncResult: everything is reset except the cancellation flag and the headers of
      the response. */
  function Released(s: State, o: ObjId): State
  {
    var b := s.Object(o);
    s.(objs := s.objs[o := b.(req := BLANK_REQUEST, tracked := false, result := None,
                              response := b.response.(Body := NO_BODY), loc := Pooled)],
       pool := s.pool[o := s.pool[o] + 1])
  }

  /** A dequeued object that will not be sent: a tracked call is told why, an untracked one
      goes back to the pool. */
  function Discarded(s: State, o: ObjId, r: Result): State
  {
    if s.Object(o).tracked then Completed(s, o, r) else Released(s, o)
  }

  function WithPhase(s: State, c: CallId, phase: Phase): State
  {
    s.(calls := s.calls[c := s.CallOf(c).(phase := phase)])
  }

  function WithWriter(s: State, k: ConnId, writer: Writer): State
  {
    s.(conns := s.conns[k := s.Link(k).(writer := writer)])
  }

  function WithReader(s: State, k: ConnId, reader: Reader): State
  {
    s.(conns := s.conns[k := s.Link(k).(reader := reader)])
  }

  // ---- Steps of callers ----------------------------------------------------------------

  function BeginStep(s: State, c: CallId, kind: Kind, req: Request, o: ObjId): State
  {
    var tracked := kind != OneWay;
    var made := Obj(c, req, tracked, false, None, EMPTY_RESPONSE, Offered(c));
    var reused := s.Object(o).(call := c, req := req, tracked := tracked || s.Object(o).tracked, loc := Offered(c));
    s.(pool := if o in s.pool then s.pool[o := s.pool[o] - 1] else s.pool,
       objs := s.objs[o := if o in s.pool then reused else made],
       calls := s.calls[c := Call(kind, req, o, Offering, [], None,
                                    if o in s.pool then s.Object(o).response.Headers else None)])
  }

  /** The non-blocking send into the queue, with what happens when there is no room. */
  function Enqueued(s: State, c: CallId): State
  {
    var o := s.CallOf(c).obj;
    WithPhase(Moved(s, o, Queued).(queue := s.queue + [o]), c, Accepted)
  }

  function OfferStep(s: State, c: CallId): State
  {
    if |s.queue| < s.limit then Enqueued(s, c)
    else if s.CallOf(c).kind == OneWay then WithPhase(Released(s, s.CallOf(c).obj), c, Rejected)
    else WithPhase(s, c, Evicting)
  }

  function EvictStep(s: State, c: CallId): State
  {
    if s.queue == [] then WithPhase(s, c, Retrying)
    else WithPhase(Moved(s, s.queue[0], Evicted(c)).(queue := s.queue[1..]), c, Disposing(s.queue[0]))
  }

  function DisposeStep(s: State, c: CallId, victim: ObjId): State
  {
    WithPhase(Discarded(s, victim, Overflow), c, Retrying)
  }

  function RetryStep(s: State, c: CallId): State
  {
    if |s.queue| < s.limit then Enqueued(s, c)
    else WithPhase(Released(s, s.CallOf(c).obj), c, Rejected)
  }

  /** CallTimeout sees `done` closed: it copies the response and the error, and releases the
      object. */
  function CollectStep(s: State, c: CallId, r: Result): State
  {
    var o := s.CallOf(c).obj;
    WithPhase(Released(s, o), c, Phase.Returned(r, s.Object(o).response))
  }

  function Flagged(s: State, o: ObjId): State
  {
    s.(objs := s.objs[o := s.Object(o).(canceled := true)])
  }

  // ---- Steps of a connection's writer and reader ----------------------------------------

  function TakeStep(s: State, k: ConnId, o: ObjId): State
    requires s.queue != []
  {
    WithWriter(Moved(s, o, Held(k)).(queue := s.queue[1..]), k, WTaken(o))
  }

  function CheckStep(s: State, k: ConnId, o: ObjId): State
  {
    if s.Object(o).canceled then WithWriter(Discarded(s, o, Canceled), k, WIdle)
    else WithWriter(s, k, WReady(o))
  }

  function TakenOver(s: State, c: CallId, k: ConnId): State
  {
    s.(calls := s.calls[c := s.CallOf(c).(via := Some(k))])
  }

  /** A call that expects an answer is filed under a fresh identifier. */
  function FileStep(s: State, k: ConnId, o: ObjId): State
    requires |s.Link(k).pending.Keys| < ID_SPACE
  {
    var pending := s.Link(k).pending;
    var id := NextId(s.Link(k).msgID, pending.Keys);
    var t := TakenOver(Moved(s, o, Pending(k, id)), s.Object(o).call, k);
    t.(conns := t.conns[k := t.Link(k).(writer := WRegistered(o, id, |pending|),
                                        pending := pending[id := o], msgID := id)])
  }

  /** One that does not is to be sent under identifier zero. */
  function RegisterStep(s: State, k: ConnId, o: ObjId): State
    requires |s.Link(k).pending.Keys| < ID_SPACE
  {
    if s.Object(o).tracked then FileStep(s, k, o) else WithWriter(s, k, WLoading(o, 0, false))
  }

  /** The counter is bumped; too many unanswered calls end the connection. */
  function CountStep(s: State, k: ConnId, o: ObjId, id: MsgId, before: nat): State
  {
    WithWriter(s, k, if before > 10 * s.limit then WStopped else WLoading(o, id, true)).(count := Increment(s.count))
  }

  /** The request is read from the object, whatever that is by now. */
  function LoadStep(s: State, k: ConnId, o: ObjId, id: MsgId, filed: bool): State
  {
    WithWriter(s, k, WLoaded(o, id, filed, s.Object(o).call, s.Object(o).req))
  }

  /** The second look at `done`: an object without it is released. */
  function RetestStep(s: State, k: ConnId, o: ObjId, id: MsgId, call: CallId, req: Request): State
  {
    WithWriter(if s.Object(o).tracked then s else TakenOver(Released(s, o), call, k), k, WSending(id, call, req))
  }

  function ReceiveStep(s: State, k: ConnId, id: MsgId, reply: Reply): State
  {
    var conn := s.Link(k);
    if id in conn.pending then
      var o := conn.pending[id];
      Moved(s, o, Matched(k, true))
        .(conns := s.conns[k := conn.(reader := RMatched(o, reply), pending := conn.pending - {id})])
    else
      WithReader(s, k, RStopped)
  }

  function UncountStep(s: State, k: ConnId, o: ObjId, reply: Reply): State
  {
    WithReader(Moved(s, o, Matched(k, false)), k, RDelivering(o, reply)).(count := Decrement(s.count))
  }

  /** The response is stored, then the error if there is one, and `done` is closed. */
  function DeliverStep(s: State, k: ConnId, o: ObjId, reply: Reply): State
  {
    var t := s.(objs := s.objs[o := s.Object(o).(response := ResponseOf(reply))]);
    WithReader(Completed(t, o, Answer(reply)), k, RIdle)
  }

  /** Both loops are over: a call left in the pending map fails, with no error at all when
      the client is being stopped. */
  function CleanUpStep(s: State, k: ConnId, id: MsgId, stopping: bool): State
    requires id in s.Link(k).pending
  {
    var conn := s.Link(k);
    Completed(s, conn.pending[id], if stopping then StoppedWithoutError else Disconnected)
      .(conns := s.conns[k := conn.(pending := conn.pending - {id})], count := Decrement(s.count))
  }

  predicate InPhase(s: State, c: CallId, phase: Phase) { c in s.calls && s.calls[c].phase == phase }

  predicate Enabled(s: State, a: Action)
  {
    match a
    case Begin(c, kind, _, o) => c !in s.calls && if o in s.pool then kind != Async else o !in s.objs
    case Offer(c) => InPhase(s, c, Offering)
    case Evict(c) => InPhase(s, c, Evicting)
    case Dispose(c) => c in s.calls && s.calls[c].phase.Disposing?
    case Retry(c) => InPhase(s, c, Retrying)
    case Collect(c) => InPhase(s, c, Accepted) && s.calls[c].kind == Timed && s.Object(s.calls[c].obj).result.Some?
    case TimeOut(c) => InPhase(s, c, Accepted) && s.calls[c].kind == Timed
    case Cancel(c) => InPhase(s, c, Accepted) && s.calls[c].kind == Async
    case Connect(k) => k !in s.conns
    case Take(k) => k in s.conns && s.conns[k].writer.WIdle? && s.queue != []
    case Check(k) => k in s.conns && s.conns[k].writer.WTaken?
    case Register(k) => k in s.conns && s.conns[k].writer.WReady? && |s.conns[k].pending.Keys| < ID_SPACE
    case Count(k) => k in s.conns && s.conns[k].writer.WRegistered?
    case Load(k) => k in s.conns && s.conns[k].writer.WLoading?
    case Retest(k) => k in s.conns && s.conns[k].writer.WLoaded?
    case Sent(k) => k in s.conns && s.conns[k].writer.WSending?
    case StopWriter(k) => k in s.conns && (s.conns[k].writer.WIdle? || s.conns[k].writer.WSending?)
    case Receive(k, _, _) => k in s.conns && s.conns[k].reader.RIdle?
    case Uncount(k) => k in s.conns && s.conns[k].reader.RMatched?
    case Deliver(k) => k in s.conns && s.conns[k].reader.RDelivering?
    case StopReader(k) => k in s.conns && s.conns[k].reader.RIdle?
    case CleanUp(k, id, _) =>
      k in s.conns && s.conns[k].writer.WStopped? && s.conns[k].reader.RStopped? && id in s.conns[k].pending
  }

  function Apply(s: State, a: Action): State
    requires Enabled(s, a)
  {
    match a
    case Begin(c, kind, req, o) => BeginStep(s, c, kind, req, o)
    case Offer(c) => OfferStep(s, c)
    case Evict(c) => EvictStep(s, c)
    case Dispose(c) => DisposeStep(s, c, s.calls[c].phase.victim)
    case Retry(c) => RetryStep(s, c)
    case Collect(c) => CollectStep(s, c, s.Object(s.calls[c].obj).result.value)
    case TimeOut(c) => WithPhase(Flagged(s, s.calls[c].obj), c, TimedOut)
    case Cancel(c) => Flagged(s, s.calls[c].obj)
    case Connect(k) => s.(conns := s.conns[k := Conn(WIdle, RIdle, map[], 0)])
    case Take(k) => TakeStep(s, k, s.queue[0])
    case Check(k) => CheckStep(s, k, s.conns[k].writer.obj)
    case Register(k) => RegisterStep(s, k, s.conns[k].writer.obj)
    case Count(k) => var w := s.conns[k].writer; CountStep(s, k, w.obj, w.id, w.before)
    case Load(k) => var w := s.conns[k].writer; LoadStep(s, k, w.obj, w.id, w.filed)
    case Retest(k) => var w := s.conns[k].writer; RetestStep(s, k, w.obj, w.id, w.call, w.req)
    case Sent(k) => WithWriter(s, k, WIdle)
    case StopWriter(k) => WithWriter(s, k, WStopped)
    case Receive(k, id, reply) => ReceiveStep(s, k, id, reply)
    case Uncount(k) => var r := s.conns[k].reader; UncountStep(s, k, r.obj, r.reply)
    case Deliver(k) => var r := s.conns[k].reader; DeliverStep(s, k, r.obj, r.reply)
    case StopReader(k) => WithReader(s, k, RStopped)
    case CleanUp(k, id, stopping) => CleanUpStep(s, k, id, stopping)
  }

  predicate Init(s: State)
  {
    s.pool == multiset{} && s.queue == [] && s.objs == map[] && s.calls == map[] && s.conns == map[] && s.count == 0
  }
}
