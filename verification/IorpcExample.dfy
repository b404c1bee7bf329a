/** The protocol can do what it is for: for whatever request and whatever end of the handler there is
    a run in which CallTimeout returns with just that answer, as it arrives, exactly when the two can
    be sent. An answer without a body stays in the server's buffer, so in this run a second call
    follows, whose answer has one and takes the first along. A call's way to the server's encoder is
    written out as the states it leads through from any quiet state (StateAt), and a lemma for each
    stretch of it says that the steps lead from one to the next. */
module IorpcExample {
  import opened Messages
  import opened MessageIds
  import opened WireFormat
  import opened Streams
  import opened Framing
  import C = IorpcClient
  import V = IorpcServer
  import VT = IorpcServerTheorems
  import opened IorpcSystem
  import opened IorpcTheorems
  import opened IorpcBytes
  import opened Runs

  /** A call to be made: its request, what the handler makes of it, and the identifier it gets. */
  datatype Query = Query(reg: Registry, call: nat, obj: nat, id: MsgId, req: Request, end: HandlerEnd)
  {
    function Reply(): Reply { ReplyOf(end) }
    function Sent(): V.Packet { V.Packet(id, call, req) }
    function Packet(): V.Packet { Arriving(reg, Sent()) }
    function Ack(): V.Ack { V.Ack(id, call, Reply()) }
    function Got(): Reply { ArrivingReply(reg, Reply()) }
    function Answer(): C.Result { C.Answer(Got()) }
    function Run(): V.Run { V.Run(ArrivingRequest(reg, req), end) }
  }

  predicate Step(s: State, a: Action, t: State) { Enabled(s, a) && t == Apply(s, a) }

  // ---- From any quiet state to the server's encoder ----------------------------------------

  predicate ClientQuiet(s: C.State, q: Query)
  {
    && q.call !in s.calls && q.obj !in s.objs && q.obj !in s.pool && s.queue == [] && s.limit > 0
    && 0 in s.conns && s.conns[0].writer.WIdle? && s.conns[0].reader.RIdle?
    && |s.conns[0].pending| <= 10 * s.limit && |s.conns[0].pending.Keys| < ID_SPACE
    && q.id == NextId(s.conns[0].msgID, s.conns[0].pending.Keys) && q.id != 0
  }

  predicate ServerQuiet(s: V.State, q: Query)
  {
    && q.id != 0 && q.call !in s.tickets && q.call !in s.serving && s.tokens < s.concurrency && s.backlog > 0
    && 0 in s.pipes && s.pipes[0].reader.SIdle? && s.pipes[0].reqs == [] && s.pipes[0].replies == []
    && s.pipes[0].writing && s.pipes[0].writer.None?
    && q.reg == s.reg && ResponseGoes(s.reg, s.pipes[0].buf, WireOfAck(q.Ack()))
  }

  predicate Quiet(s: State, q: Query)
  {
    && ClientQuiet(s.client, q) && ServerQuiet(s.server, q)
    && RequestGoes(s.server.reg, s.OutboxOf(0).buf, WireOfPacket(q.Sent()))
  }

  const STEPS := 18

  function ActionAt(q: Query, j: nat): Action
  {
    match j
    case 0 => ClientStep(C.Begin(q.call, C.Timed, q.req, q.obj))
    case 1 => ClientStep(C.Offer(q.call))
    case 2 => ClientStep(C.Take(0))
    case 3 => ClientStep(C.Check(0))
    case 4 => ClientStep(C.Register(0))
    case 5 => ClientStep(C.Count(0))
    case 6 => ClientStep(C.Load(0))
    case 7 => ClientStep(C.Retest(0))
    case 8 => Transmit(0)
    case 9 => FlushRequests(0)
    case 10 => ServerStep(V.Read(0))
    case 11 => ServerStep(V.Acquire(0))
    case 12 => ServerStep(V.Spawn(0))
    case 13 => ServerStep(V.Handle(q.call, q.end))
    case 14 => ServerStep(V.Post(q.call))
    case 15 => ServerStep(V.Release(q.call))
    case 16 => ServerStep(V.TakeReply(0))
    case _ => ServerStep(V.Emit(0))
  }

  function ObjAt(q: Query, j: nat): C.Obj
  {
    C.Obj(q.call, q.req, true, false, None, EMPTY_RESPONSE,
          if j <= 1 then C.Offered(q.call) else if j <= 2 then C.Queued else if j <= 4 then C.Held(0)
          else C.Pending(0, q.id))
  }

  function CallAt(q: Query, j: nat): C.Call
  {
    C.Call(C.Timed, q.req, q.obj, if j <= 1 then C.Offering else C.Accepted, [], if j <= 4 then None else Some(0), None)
  }

  function ConnAt(before: C.Conn, q: Query, j: nat): C.Conn
  {
    C.Conn(if j == 3 then C.WTaken(q.obj) else if j == 4 then C.WReady(q.obj)
           else if j == 5 then C.WRegistered(q.obj, q.id, |before.pending|)
           else if j == 6 then C.WLoading(q.obj, q.id, true)
           else if j == 7 then C.WLoaded(q.obj, q.id, true, q.call, q.req)
           else if j == 8 then C.WSending(q.id, q.call, q.req) else C.WIdle,
           before.reader,
           if j <= 4 then before.pending else before.pending[q.id := q.obj],
           if j <= 4 then before.msgID else q.id)
  }

  function ClientAt(s: C.State, q: Query, j: nat): C.State
  {
    s.(queue := if j == 2 then [q.obj] else [],
       objs := if j == 0 then s.objs else s.objs[q.obj := ObjAt(q, j)],
       calls := if j == 0 then s.calls else s.calls[q.call := CallAt(q, j)],
       conns := if j <= 2 then s.conns else s.conns[0 := ConnAt(s.Link(0), q, j)],
       count := if j <= 5 then s.count else C.Increment(s.count))
  }

  function PipeAt(reg: Registry, before: V.Pipe, q: Query, j: nat): V.Pipe
  {
    var f := V.FrameOf(reg, q.Ack());
    before.(reqs := if j == 9 || j == 10 then [q.Packet()] else [],
            reader := if j == 11 then V.SRead(q.Packet()) else if j == 12 then V.SSpawning(q.Packet()) else V.SIdle,
            replies := if j == 15 || j == 16 then [q.Ack()] else [],
            writer := if j == 17 then Some(q.Ack()) else None,
            outs := if j <= 17 then before.outs else before.outs + [q.Ack()],
            emitted := if j <= 17 then before.emitted else before.emitted + [q.Ack()],
            buf := if j <= 17 then before.buf else Framing.Next(before.buf, f),
            flushed := if j <= 17 || !Flushes(before.buf.len, f) then before.flushed else |before.outs| + 1)
  }

  function TicketAt(q: Query, j: nat): V.Ticket
  {
    V.Ticket(0, q.id, q.Packet().req,
             if j <= 10 then V.OnWire else if j <= 12 then V.AtReader else if j <= 14 then V.AtWorker
             else if j <= 16 then V.InChannel else if j <= 17 then V.AtWriter else V.Encoded,
             if j <= 13 then [] else [q.Run()])
  }

  function WorkAt(q: Query, j: nat): V.Serving
  {
    V.Serving(0, q.Packet(), if j <= 13 then V.Handling else if j == 14 then V.Answering(q.Reply()) else V.Finishing)
  }

  function ServerAt(s: V.State, q: Query, j: nat): V.State
  {
    s.(pipes := if j <= 8 then s.pipes else s.pipes[0 := PipeAt(s.reg, s.PipeOf(0), q, j)],
       serving := if 13 <= j <= 15 then s.serving[q.call := WorkAt(q, j)] else s.serving,
       tokens := if 12 <= j <= 15 then s.tokens + 1 else s.tokens,
       tickets := if j <= 8 then s.tickets else s.tickets[q.call := TicketAt(q, j)])
  }

  function OutboxesAt(s: State, q: Query, j: nat): map<nat, Outbox>
  {
    var o := Encode(q.reg, s.OutboxOf(0), q.Sent());
    if j <= 8 then s.outboxes else if j == 9 then s.outboxes[0 := o] else s.outboxes[0 := Emptied(o)]
  }

  function StateAt(s: State, q: Query, j: nat): State
  {
    s.(client := ClientAt(s.client, q, j), server := ServerAt(s.server, q, j), outboxes := OutboxesAt(s, q, j))
  }

  predicate Steps(s: State, q: Query, j: nat) { Step(StateAt(s, q, j), ActionAt(q, j), StateAt(s, q, j + 1)) }

  /** A component that a step changes is replaced. */
  lemma Replaced<K, T>(m: map<K, T>, k: K, x: T, y: T)
    ensures m[k := x][k := y] == m[k := y]
    ensures k !in m ==> m[k := x] - {k} == m
  {
  }

  lemma Single<T>(x: T)
    ensures [] + [x] == [x] && [x][1..] == []
  {
  }

  lemma ClientReplaced(s: C.State, q: Query, j: nat)
    ensures s.objs[q.obj := ObjAt(q, j)][q.obj := ObjAt(q, j + 1)] == s.objs[q.obj := ObjAt(q, j + 1)]
    ensures s.calls[q.call := CallAt(q, j)][q.call := CallAt(q, j + 1)] == s.calls[q.call := CallAt(q, j + 1)]
    ensures var b := s.Link(0);
            s.conns[0 := ConnAt(b, q, j)][0 := ConnAt(b, q, j + 1)] == s.conns[0 := ConnAt(b, q, j + 1)]
    ensures [] + [q.obj] == [q.obj] && [q.obj][1..] == []
  {
    Single(q.obj);
    Replaced(s.objs, q.obj, ObjAt(q, j), ObjAt(q, j + 1));
    Replaced(s.calls, q.call, CallAt(q, j), CallAt(q, j + 1));
    Replaced(s.conns, 0, ConnAt(s.Link(0), q, j), ConnAt(s.Link(0), q, j + 1));
  }

  lemma ServerReplaced(s: V.State, q: Query, j: nat)
    ensures var b := s.PipeOf(0);
            s.pipes[0 := PipeAt(s.reg, b, q, j)][0 := PipeAt(s.reg, b, q, j + 1)]
                == s.pipes[0 := PipeAt(s.reg, b, q, j + 1)]
    ensures s.tickets[q.call := TicketAt(q, j)][q.call := TicketAt(q, j + 1)] == s.tickets[q.call := TicketAt(q, j + 1)]
    ensures s.serving[q.call := WorkAt(q, j)][q.call := WorkAt(q, j + 1)] == s.serving[q.call := WorkAt(q, j + 1)]
    ensures q.call !in s.serving ==> s.serving[q.call := WorkAt(q, j)] - {q.call} == s.serving
    ensures [] + [q.Packet()] == [q.Packet()] && [q.Packet()][1..] == []
    ensures [] + [q.Ack()] == [q.Ack()] && [q.Ack()][1..] == []
    ensures [] + [q.Run()] == [q.Run()]
  {
    Single(q.Packet());
    Single(q.Ack());
    Single(q.Run());
    Replaced(s.pipes, 0, PipeAt(s.reg, s.PipeOf(0), q, j), PipeAt(s.reg, s.PipeOf(0), q, j + 1));
    Replaced(s.tickets, q.call, TicketAt(q, j), TicketAt(q, j + 1));
    Replaced(s.serving, q.call, WorkAt(q, j), WorkAt(q, j + 1));
  }

  lemma CallStarts(s: State, q: Query, j: nat)
    requires Quiet(s, q) && j <= 1
    ensures Steps(s, q, j)
  {
    ClientReplaced(s.client, q, j);
  }

  lemma WriterTakes(s: State, q: Query, j: nat)
    requires Quiet(s, q) && 2 <= j <= 3
    ensures Steps(s, q, j)
  {
    ClientReplaced(s.client, q, j);
  }

  lemma WriterFiles(s: State, q: Query)
    requires Quiet(s, q)
    ensures Steps(s, q, 4)
  {
    ClientReplaced(s.client, q, 4);
  }

  lemma WriterCounts(s: State, q: Query)
    requires Quiet(s, q)
    ensures Steps(s, q, 5)
  {
    ClientReplaced(s.client, q, 5);
  }

  lemma WriterLoads(s: State, q: Query)
    requires Quiet(s, q)
    ensures Steps(s, q, 6)
  {
    ClientReplaced(s.client, q, 6);
  }

  lemma WriterLooksAgain(s: State, q: Query)
    requires Quiet(s, q)
    ensures Steps(s, q, 7)
  {
    ClientReplaced(s.client, q, 7);
  }

  lemma RequestLeaves(s: State, q: Query)
    requires ClientQuiet(s.client, q)
    ensures C.WithWriter(ClientAt(s.client, q, 8), 0, C.WIdle) == ClientAt(s.client, q, 9)
  {
    ClientReplaced(s.client, q, 8);
  }

  lemma RequestArrivesThere(s: State, q: Query)
    requires ServerQuiet(s.server, q)
    ensures V.ArriveStep(ServerAt(s.server, q, 8), 0, q.Packet()) == ServerAt(s.server, q, 9)
  {
    ServerReplaced(s.server, q, 8);
  }

  lemma WriterSends(s: State, q: Query)
    requires Quiet(s, q)
    ensures Steps(s, q, 8)
  {
    RequestLeaves(s, q);
    RequestArrivesThere(s, q);
    var u := StateAt(s, q, 8);
    assert Outgoing(u.client.conns[0].writer) == q.Sent() && u.OutboxOf(0) == s.OutboxOf(0);
    assert TransmitStep(u, 0, q.Sent()) == StateAt(s, q, 9);
  }

  lemma WriterFlushes(s: State, q: Query)
    requires Quiet(s, q)
    ensures Steps(s, q, 9)
  {
    ClientWaits(s.client, q, 9);
    var o := Encode(q.reg, s.OutboxOf(0), q.Sent());
    Replaced(s.outboxes, 0, o, Emptied(o));
    assert ServerAt(s.server, q, 9) == ServerAt(s.server, q, 10);
    assert FlushStep(StateAt(s, q, 9), 0) == StateAt(s, q, 10);
  }

  /** From then on the client only waits. */
  lemma ClientWaits(s: C.State, q: Query, j: nat)
    requires ClientQuiet(s, q) && 9 <= j
    ensures ClientAt(s, q, j) == ClientAt(s, q, j + 1)
    ensures 0 in ClientAt(s, q, j).conns && ClientAt(s, q, j).conns[0].writer.WIdle?
  {
  }

  /** A step of the server alone. */
  predicate ServerMoves(s: V.State, q: Query, j: nat, v: V.Action)
  {
    V.Enabled(ServerAt(s, q, j), v) && V.Apply(ServerAt(s, q, j), v) == ServerAt(s, q, j + 1)
  }

  predicate OfServer(j: nat, v: V.Action)
  {
    !v.Accept? && !v.Arrive? && !v.Depart? && (v.Read? ==> v.k == 0) && (v.Emit? ==> v.k == 0 && j == 17)
  }

  lemma ServerSteps(s: State, q: Query, j: nat, v: V.Action)
    requires Quiet(s, q) && 10 <= j && ActionAt(q, j) == ServerStep(v) && ServerMoves(s.server, q, j, v)
    requires OfServer(j, v)
    ensures Steps(s, q, j)
  {
    ClientWaits(s.client, q, j);
    NothingHeld(s, q, j);
    if v.Emit? { AnswerCanGo(s, q); }
  }

  lemma NothingHeld(s: State, q: Query, j: nat)
    requires 10 <= j
    ensures StateAt(s, q, j).OutboxOf(0).held == 0
  {
  }

  lemma AnswerCanGo(s: State, q: Query)
    requires ServerQuiet(s.server, q)
    ensures CanEmit(StateAt(s, q, 17), 0)
  {
  }

  lemma ServerReads(s: V.State, q: Query)
    requires ServerQuiet(s, q)
    ensures ServerMoves(s, q, 10, V.Read(0))
  {
    ServerReplaced(s, q, 10);
  }

  lemma ServerTakesToken(s: V.State, q: Query)
    requires ServerQuiet(s, q)
    ensures ServerMoves(s, q, 11, V.Acquire(0))
  {
    ServerReplaced(s, q, 11);
  }

  lemma ServerStartsGoroutine(s: V.State, q: Query)
    requires ServerQuiet(s, q)
    ensures ServerMoves(s, q, 12, V.Spawn(0))
  {
    ServerReplaced(s, q, 12);
  }

  lemma HandlerEnds(s: V.State, q: Query)
    requires ServerQuiet(s, q)
    ensures ServerMoves(s, q, 13, V.Handle(q.call, q.end))
  {
    ServerReplaced(s, q, 13);
  }

  lemma GoroutinePosts(s: V.State, q: Query)
    requires ServerQuiet(s, q)
    ensures ServerMoves(s, q, 14, V.Post(q.call))
  {
    ServerReplaced(s, q, 14);
  }

  lemma GoroutineEnds(s: V.State, q: Query)
    requires ServerQuiet(s, q)
    ensures ServerMoves(s, q, 15, V.Release(q.call))
  {
    ServerReplaced(s, q, 15);
  }

  lemma WriterTakesReply(s: V.State, q: Query)
    requires ServerQuiet(s, q)
    ensures ServerMoves(s, q, 16, V.TakeReply(0))
  {
    ServerReplaced(s, q, 16);
  }

  lemma WriterEncodes(s: V.State, q: Query)
    requires ServerQuiet(s, q)
    ensures ServerMoves(s, q, 17, V.Emit(0))
  {
    ServerReplaced(s, q, 17);
  }

  lemma EveryStep(s: State, q: Query, j: nat)
    requires Quiet(s, q) && j < STEPS
    ensures Steps(s, q, j)
  {
    if j <= 1 { CallStarts(s, q, j); }
    else if j <= 3 { WriterTakes(s, q, j); }
    else if j == 4 { WriterFiles(s, q); }
    else if j == 5 { WriterCounts(s, q); }
    else if j == 6 { WriterLoads(s, q); }
    else if j == 7 { WriterLooksAgain(s, q); }
    else if j == 8 { WriterSends(s, q); }
    else if j == 9 { WriterFlushes(s, q); }
    else { ServerStepOf(s, q, j); }
  }

  lemma ServerMovesOn(s: V.State, q: Query, j: nat) returns (v: V.Action)
    requires ServerQuiet(s, q) && 10 <= j < STEPS
    ensures ActionAt(q, j) == ServerStep(v) && ServerMoves(s, q, j, v) && OfServer(j, v)
  {
    match j
    case 10 => ServerReads(s, q); v := V.Read(0);
    case 11 => ServerTakesToken(s, q); v := V.Acquire(0);
    case 12 => ServerStartsGoroutine(s, q); v := V.Spawn(0);
    case 13 => HandlerEnds(s, q); v := V.Handle(q.call, q.end);
    case 14 => GoroutinePosts(s, q); v := V.Post(q.call);
    case 15 => GoroutineEnds(s, q); v := V.Release(q.call);
    case 16 => WriterTakesReply(s, q); v := V.TakeReply(0);
    case _ => WriterEncodes(s, q); v := V.Emit(0);
  }

  lemma ServerStepOf(s: State, q: Query, j: nat)
    requires Quiet(s, q) && 10 <= j < STEPS
    ensures Steps(s, q, j)
  {
    var v := ServerMovesOn(s.server, q, j);
    ServerSteps(s, q, j, v);
  }

  lemma {:induction false} WayToTheEncoder(s: State, q: Query, j: nat) returns (actions: seq<Action>)
    requires Quiet(s, q) && j <= STEPS
    ensures Leads(Step, StateAt(s, q, j), actions, StateAt(s, q, STEPS))
    decreases STEPS - j
  {
    if j == STEPS {
      actions := [];
    } else {
      var rest := WayToTheEncoder(s, q, j + 1);
      EveryStep(s, q, j);
      StepFirst(Step, StateAt(s, q, j), ActionAt(q, j), StateAt(s, q, j + 1), rest, StateAt(s, q, STEPS));
      actions := [ActionAt(q, j)] + rest;
    }
  }

  // ---- And back to the caller ----------------------------------------------------------------

  /** The call's answer is the next one on the wire. */
  predicate Answered(s: State, q: Query)
  {
    && q.call in s.client.calls && s.client.calls[q.call] == CallAt(q, STEPS)
    && q.obj in s.client.objs && s.client.objs[q.obj] == ObjAt(q, STEPS) && q.obj !in s.client.pool
    && 0 in s.client.conns && s.client.conns[0].reader.RIdle?
    && q.id in s.client.conns[0].pending && s.client.conns[0].pending[q.id] == q.obj
    && q.reg == s.server.reg && 0 in s.server.pipes && s.server.pipes[0].flushed > 0
    && s.server.pipes[0].outs != [] && s.server.pipes[0].outs[0] == q.Ack()
    && q.reg == s.server.reg && q.call in s.server.tickets && s.server.tickets[q.call].runs == [q.Run()]
  }

  /** The call has returned with the handler's answer, and its object is back in the pool. */
  predicate Done(s: State, q: Query)
  {
    && s.client.pool[q.obj] == 1 && q.obj in s.client.objs
    && s.client.objs[q.obj] == C.Obj(q.call, BLANK_REQUEST, false, false, None,
                                     ResponseOf(q.Got()).(Body := NO_BODY), C.Pooled)
    && C.InPhase(s.client, q.call, C.Phase.Returned(q.Answer(), ResponseOf(q.Got())))
    && s.client.calls[q.call].req == q.req
    && SpecOf(s, q.call) == Spec(q.Packet().req, [q.Run()], [q.Answer()])
  }

  /** The call waits, its object has been taken out of the map, and the reader holds the answer. */
  predicate Matched(s: State, q: Query, reader: C.Reader)
  {
    && q.call in s.client.calls && s.client.calls[q.call] == CallAt(q, STEPS)
    && q.obj in s.client.objs && s.client.objs[q.obj] == ObjAt(q, STEPS).(loc := C.Matched(0, reader.RMatched?))
    && q.obj !in s.client.pool
    && 0 in s.client.conns && s.client.conns[0].reader == reader
    && q.reg == s.server.reg && q.call in s.server.tickets && s.server.tickets[q.call].runs == [q.Run()]
  }

  /** Otherwise all is as it was. */
  predicate Unmoved(s: State, t: State)
  {
    && t.outboxes == s.outboxes && t.lost == s.lost && t.server.PipeOf(0).emitted == s.server.PipeOf(0).emitted
    && t.client.limit == s.client.limit && t.client.queue == s.client.queue
         && t.client.calls.Keys == s.client.calls.Keys
    && 0 in s.client.conns && 0 in t.client.conns && t.client.conns[0].writer == s.client.conns[0].writer
  }

  lemma ComesBack(s: State, q: Query) returns (t: State)
    requires Answered(s, q)
    ensures Step(s, Return(0), t) && Matched(t, q, C.RMatched(q.obj, q.Got())) && Unmoved(s, t)
    ensures t.client.conns[0].pending == s.client.conns[0].pending - {q.id}
  {
    t := ReturnStep(s, 0, q.Ack());
  }

  lemma IsUncounted(s: State, q: Query) returns (t: State)
    requires Matched(s, q, C.RMatched(q.obj, q.Got()))
    ensures Step(s, ClientStep(C.Uncount(0)), t) && Matched(t, q, C.RDelivering(q.obj, q.Got())) && Unmoved(s, t)
    ensures t.client.conns[0].pending == s.client.conns[0].pending
  {
    t := s.(client := C.UncountStep(s.client, 0, q.obj, q.Got()));
  }

  /** The call is completed, and its caller has not looked yet. */
  predicate Completed(s: State, q: Query)
  {
    && q.call in s.client.calls && s.client.calls[q.call] == CallAt(q, STEPS).(ends := [q.Answer()])
    && q.obj in s.client.objs && q.obj !in s.client.pool
    && s.client.objs[q.obj]
       == ObjAt(q, STEPS).(result := Some(q.Answer()), response := ResponseOf(q.Got()), loc := C.Ended)
    && 0 in s.client.conns && s.client.conns[0].reader.RIdle?
    && q.reg == s.server.reg && q.call in s.server.tickets && s.server.tickets[q.call].runs == [q.Run()]
  }

  lemma IsDelivered(s: State, q: Query) returns (t: State)
    requires Matched(s, q, C.RDelivering(q.obj, q.Got()))
    ensures Step(s, ClientStep(C.Deliver(0)), t) && Completed(t, q) && Unmoved(s, t)
    ensures t.client.conns[0].pending == s.client.conns[0].pending
  {
    t := s.(client := C.DeliverStep(s.client, 0, q.obj, q.Got()));
  }

  lemma IsCollected(s: State, q: Query) returns (t: State)
    requires Completed(s, q)
    ensures Step(s, ClientStep(C.Collect(q.call)), t) && Done(t, q) && Unmoved(s, t)
    ensures t.client.conns[0].pending == s.client.conns[0].pending && t.client.conns[0].reader.RIdle?
  {
    t := s.(client := C.CollectStep(s.client, q.call, q.Answer()));
  }

  lemma WayBack(s: State, q: Query) returns (actions: seq<Action>, t: State)
    requires Answered(s, q)
    ensures Leads(Step, s, actions, t) && Done(t, q) && Unmoved(s, t)
    ensures t.client.conns[0].pending == s.client.conns[0].pending - {q.id} && t.client.conns[0].reader.RIdle?
  {
    var s1 := ComesBack(s, q);
    var s2 := IsUncounted(s1, q);
    var s3 := IsDelivered(s2, q);
    t := IsCollected(s3, q);
    var a, b, c := ClientStep(C.Uncount(0)), ClientStep(C.Deliver(0)), ClientStep(C.Collect(q.call));
    StepFirst(Step, s3, c, t, [], t);
    StepFirst(Step, s2, b, s3, [c] + [], t);
    StepFirst(Step, s1, a, s2, [b] + ([c] + []), t);
    actions := [a] + ([b] + ([c] + []));
    StepFirst(Step, s, Return(0), s1, actions, t);
    actions := [Return(0)] + actions;
  }

  // ---- The run ---------------------------------------------------------------------------------

  datatype Setup = Setup(limit: nat, reg: Registry, concurrency: nat, backlog: nat, req: Request, end: HandlerEnd)
  {
    function First(): Query { Query(reg, 0, 0, 1, req, end) }

    /** A call whose answer has a body of one byte. */
    function Second(): Query
    {
      Query(reg, 1, 1, 2, BLANK_REQUEST, Returned(Some(Response(None, Body(1, Some([7]))))))
    }

    predicate HasRoom() { limit > 0 && concurrency > 0 && backlog > 0 && reg.Valid() }

    predicate Valid()
    {
      && HasRoom() && RequestGoes(reg, FRESH, WireOfPacket(First().Sent()))
      && ResponseGoes(reg, FRESH, WireOfAck(First().Ack()))
    }
  }

  function StartOf(p: Setup): State
  {
    State(C.State(p.limit, multiset{}, [], map[], map[], map[], 0),
          V.State(p.reg, p.concurrency, p.backlog, map[], map[], 0, map[]), map[], {})
  }

  function Connected(p: Setup): State { Apply(StartOf(p), Open(0)) }

  function AfterFirst(p: Setup): State { StateAt(Connected(p), p.First(), STEPS) }

  function AfterBoth(p: Setup): State { StateAt(AfterFirst(p), p.Second(), STEPS) }

  lemma FirstIsFirst(p: Setup)
    requires p.Valid()
    ensures Quiet(Connected(p), p.First())
  {
    assert NextId(0, {}) == 1;
  }

  /** Frames without headers keep their line in any buffer. */
  lemma SecondGoes(p: Setup, b: Buf)
    ensures RequestGoes(p.reg, b, WireOfPacket(p.Second().Sent()))
    ensures ResponseGoes(p.reg, b, WireOfAck(p.Second().Ack()))
    ensures Flushes(b.len, V.FrameOf(p.reg, p.Second().Ack()))
  {
  }

  lemma SecondIsQuiet(p: Setup)
    requires p.Valid()
    ensures Quiet(AfterFirst(p), p.Second())
  {
    var t := AfterFirst(p);
    SecondGoes(p, t.OutboxOf(0).buf);
    SecondGoes(p, t.server.pipes[0].buf);
    assert t.client.conns[0].pending == map[1 := 0];
    assert t.client.conns[0].pending.Keys == {1};
    assert NextId(1, {1}) == 2;
  }

  lemma FirstIsEncoded(p: Setup)
    requires p.Valid()
    ensures var t := AfterFirst(p);
            && 0 in t.server.pipes && t.server.pipes[0].outs == t.server.pipes[0].emitted == [p.First().Ack()]
            && t.OutboxOf(0).sent == [p.First().Sent()]
  {
  }

  /** Its body takes along what waits. */
  lemma SecondFlushes(p: Setup, t: State)
    requires 0 in t.server.pipes && t.server.pipes[0].outs == t.server.pipes[0].emitted == [p.First().Ack()]
    requires t.OutboxOf(0).sent == [p.First().Sent()] && t.server.reg == p.reg
    ensures var u := StateAt(t, p.Second(), STEPS);
            && 0 in u.server.pipes && u.server.pipes[0].outs == [p.First().Ack(), p.Second().Ack()]
            && u.server.pipes[0].flushed == 2 && u.server.pipes[0].emitted[0] == p.First().Ack()
            && u.OutboxOf(0).sent == [p.First().Sent(), p.Second().Sent()]
  {
    SecondGoes(p, t.server.pipes[0].buf);
  }

  lemma SecondTakesFirstAlong(p: Setup)
    requires p.Valid()
    ensures Answered(AfterBoth(p), p.First()) && IsFirst(AfterBoth(p), 0, 0) && AfterBoth(p).lost == {}
  {
    FirstIsEncoded(p);
    SecondFlushes(p, AfterFirst(p));
    FirstWaits(p);
    FirstWasHandled(p);
  }

  /** What of the first call is in the client while the second goes through. */
  lemma FirstWaits(p: Setup)
    requires p.Valid()
    ensures var s, q := AfterBoth(p).client, p.First();
            && q.call in s.calls && s.calls[q.call] == CallAt(q, STEPS)
            && q.obj in s.objs && s.objs[q.obj] == ObjAt(q, STEPS) && q.obj !in s.pool
            && 0 in s.conns && s.conns[0].reader.RIdle?
            && q.id in s.conns[0].pending && s.conns[0].pending[q.id] == q.obj
  {
    assert AfterFirst(p).client.conns[0].pending == map[1 := 0];
  }

  /** And on the server. */
  lemma FirstWasHandled(p: Setup)
    requires p.Valid()
    ensures var s, q := AfterBoth(p).server, p.First();
            q.call in s.tickets && s.tickets[q.call].runs == [q.Run()] && s.reg == q.reg
  {
  }

  /** The call's request is the first on the connection, and its answer the first back. */
  predicate IsFirst(s: State, k: nat, c: nat)
  {
    && s.OutboxOf(k).sent != [] && s.OutboxOf(k).sent[0].call == c
    && s.server.PipeOf(k).emitted != [] && s.server.PipeOf(k).emitted[0].call == c
  }

  lemma AtStart(s: State, q: Query)
    requires Quiet(s, q)
    ensures StateAt(s, q, 0) == s
  {
  }

  lemma WayFrom(s: State, q: Query) returns (actions: seq<Action>)
    requires Quiet(s, q)
    ensures Leads(Step, s, actions, StateAt(s, q, STEPS))
  {
    AtStart(s, q);
    actions := WayToTheEncoder(s, q, 0);
  }

  lemma FirstWay(p: Setup) returns (actions: seq<Action>)
    requires p.Valid()
    ensures Leads(Step, StartOf(p), actions, AfterFirst(p))
  {
    FirstIsFirst(p);
    var rest := WayFrom(Connected(p), p.First());
    StepFirst(Step, StartOf(p), Open(0), Connected(p), rest, AfterFirst(p));
    actions := [Open(0)] + rest;
  }

  lemma SecondWay(p: Setup) returns (actions: seq<Action>)
    requires p.Valid()
    ensures Leads(Step, AfterFirst(p), actions, AfterBoth(p))
  {
    SecondIsQuiet(p);
    actions := WayFrom(AfterFirst(p), p.Second());
  }

  lemma WholeWay(p: Setup) returns (actions: seq<Action>, t: State)
    requires p.Valid()
    ensures Leads(Step, StartOf(p), actions, t) && Done(t, p.First()) && IsFirst(t, 0, 0) && t.lost == {}
  {
    var first := FirstWay(p);
    var second := SecondWay(p);
    SecondTakesFirstAlong(p);
    var back, end := WayBack(AfterBoth(p), p.First());
    LeadsOn(Step, StartOf(p), first, AfterFirst(p), second, AfterBoth(p));
    LeadsOn(Step, StartOf(p), first + second, AfterBoth(p), back, end);
    actions, t := first + second + back, end;
  }

  /** Call 0, which has gone first both ways, has returned with what the handler ended in, as that
      arrives, after the handler ran once on the request as it arrives; and no stream was lost. */
  ghost predicate HasReturned(p: Setup, s: State)
  {
    && s.lost == {} && (exists k :: IsFirst(s, k, 0))
    && C.InPhase(s.client, 0, C.Phase.Returned(p.First().Answer(), ResponseOf(p.First().Got())))
    && s.client.calls[0].req == p.req
    && SpecOf(s, 0) == Spec(ArrivingRequest(p.reg, p.req), [p.First().Run()], [p.First().Answer()])
  }

  /** Some run from the start leads there. */
  ghost predicate CanReturn(p: Setup)
  {
    exists states: seq<State>, actions: seq<Action> ::
      IsRun(states, actions) && states[0] == StartOf(p) && HasReturned(p, states[|actions|])
  }

  lemma ItReturns(p: Setup)
    requires p.Valid()
    ensures CanReturn(p)
  {
    var actions, t := WholeWay(p);
    var states := StatesOf(Step, StartOf(p), actions, t);
    forall i | 0 <= i < |actions|
      ensures Enabled(states[i], actions[i]) && states[i + 1] == Apply(states[i], actions[i])
    {
      assert Step(states[i], actions[i], states[i + 1]);
    }
    assert IsRun(states, actions);
  }

  /** What has returned could be sent. */
  lemma ReturnedIsValid(p: Setup, states: seq<State>, actions: seq<Action>)
    requires p.HasRoom() && IsRun(states, actions) && states[0] == StartOf(p) && HasReturned(p, states[|actions|])
    requires states[|actions|].server.reg == p.reg
    ensures p.Valid()
  {
    ReachableSound(states, actions, |actions|);
    FirstFramesWent(p, states[|actions|]);
  }

  lemma FirstFramesWent(p: Setup, s: State)
    requires p.HasRoom() && HasReturned(p, s) && BytesOk(s) && s.server.reg == p.reg
    ensures p.Valid()
  {
    var k :| IsFirst(s, k, 0);
    var sent, ack := s.OutboxOf(k).sent[0], s.server.PipeOf(k).emitted[0];
    assert RequestsOk(s, k) && AnswersOk(s.server, k);
    assert IsCalls(s.client, sent) && AckOk(s.server, ack);
    assert SpecOf(s, 0).runs == [p.First().Run()];
    assert ack.reply == ReplyOf(p.end);
    assert VT.Frames(p.reg, s.server.PipeOf(k).emitted)[0] == V.FrameOf(p.reg, ack);
    GoesUnderAnyId(p, sent, ack);
  }

  /** Whether a frame goes does not depend on its identifier. */
  lemma GoesUnderAnyId(p: Setup, sent: V.Packet, ack: V.Ack)
    requires sent.req == p.req && RequestGoes(p.reg, FRESH, WireOfPacket(sent))
    requires ack.reply == ReplyOf(p.end) && FineReply(p.reg, ack.reply) && Kept(FRESH, V.FrameOf(p.reg, ack))
    ensures RequestGoes(p.reg, FRESH, WireOfPacket(p.First().Sent()))
    ensures ResponseGoes(p.reg, FRESH, WireOfAck(p.First().Ack()))
  {
    var w := WireOfAck(p.First().Ack());
    assert w.Error == [] || p.reg.BytesOf(w.Headers) == [];
    assert w.Error + [] == [] + w.Error && p.reg.BytesOf(w.Headers) + [] == [] + p.reg.BytesOf(w.Headers);
  }

  lemma {:induction false} RegistryStays(states: seq<State>, actions: seq<Action>, i: nat)
    requires IsRun(states, actions) && i < |states|
    ensures states[i].server.reg == states[0].server.reg
  {
    if i > 0 {
      RegistryStays(states, actions, i - 1);
      StepKeepsRegistry(states[i - 1], actions[i - 1]);
    }
  }

  lemma StepKeepsRegistry(s: State, a: Action)
    requires Enabled(s, a)
    ensures Apply(s, a).server.reg == s.server.reg
  {
    if a.ServerStep? { VT.StepKeepsRegistry(s.server, a.v); }
  }

  /** What can be sent as the first frame of a connection. */
  predicate Sends(reg: Registry, h: Option<Headers>, body: Body)
  {
    |reg.BytesOf(h)| <= HEADER_BUFFER_SIZE - LINE && Sendable(body)
  }

  lemma ValidExactlyWhen(p: Setup)
    requires p.HasRoom()
    ensures p.Valid() <==>
              var r := ResponseOf(ReplyOf(p.end));
              && Sends(p.reg, p.req.Headers, p.req.Body) && Sends(p.reg, r.Headers, r.Body)
              && |ReplyOf(p.end).error| < 0x1_0000_0000
  {
    var w := WireOfAck(p.First().Ack());
    assert w.Error == [] || p.reg.BytesOf(w.Headers) == [];
    assert w.Error + [] == [] + w.Error && p.reg.BytesOf(w.Headers) + [] == [] + p.reg.BytesOf(w.Headers);
  }

  /** For every configuration with room for one call, every request and every way the handler can end:
      that end can be returned to the first call of a connection exactly when the bodies of both are
      supplied, by a reader with at least the announced bytes, and the headers fit the buffer behind
      the start line. */
  lemma EveryAnswerCanBeReturnedExactlyWhen(p: Setup)
    requires p.HasRoom()
    ensures CanReturn(p) <==>
              var r := ResponseOf(ReplyOf(p.end));
              && Sends(p.reg, p.req.Headers, p.req.Body) && Sends(p.reg, r.Headers, r.Body)
              && |ReplyOf(p.end).error| < 0x1_0000_0000
  {
    ValidExactlyWhen(p);
    if p.Valid() {
      ItReturns(p);
    }
    if CanReturn(p) {
      var states: seq<State>, actions: seq<Action> :|
        IsRun(states, actions) && states[0] == StartOf(p) && HasReturned(p, states[|actions|]);
      RegistryStays(states, actions, |actions|);
      ReturnedIsValid(p, states, actions);
    }
  }

  // ---- Frames that do not arrive ---------------------------------------------------------------

  /** A body that announces five bytes and has no reader: the answer is never returned. */
  lemma AnswerWithoutReaderIsNotReturned(reg: Registry)
    requires reg.Valid()
    ensures !CanReturn(Setup(1, reg, 1, 1, Request(1, None, NO_BODY), Returned(Some(Response(None, Body(5, None))))))
  {
    EveryAnswerCanBeReturnedExactlyWhen(
      Setup(1, reg, 1, 1, Request(1, None, NO_BODY), Returned(Some(Response(None, Body(5, None))))));
  }

  /** A request whose reader has less than it announces: encoding fails, and the handler never runs. */
  lemma RequestWithShortReaderIsNotAnswered(reg: Registry)
    requires reg.Valid()
    ensures !CanReturn(Setup(1, reg, 1, 1, Request(1, None, Body(5, Some([]))), Returned(None)))
  {
    EveryAnswerCanBeReturnedExactlyWhen(Setup(1, reg, 1, 1, Request(1, None, Body(5, Some([]))), Returned(None)));
  }

  /** Headers of a type that is not registered: the answer can be returned, but without them. */
  lemma UnregisteredHeadersAreDropped(reg: Registry, h: Headers)
    requires reg.Valid() && TypeOf(h) !in reg.indexes
    ensures var p := Setup(1, reg, 1, 1, Request(1, None, NO_BODY), Returned(Some(Response(Some(h), NO_BODY))));
            CanReturn(p) && ResponseOf(p.First().Got()) == Response(None, Arrived(NO_BODY))
  {
    EveryAnswerCanBeReturnedExactlyWhen(
      Setup(1, reg, 1, 1, Request(1, None, NO_BODY), Returned(Some(Response(Some(h), NO_BODY)))));
  }
}
