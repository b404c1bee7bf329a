/** Two things that can go wrong with the objects that calls share. A server that answers a request
    while its writer has not sent it yet makes the client release the object twice, and two later
    calls then have one object; the server modelled here cannot do that. And a call that is ended
    by a stop of the client returns, without an error, the headers of the answer to an earlier call
    that had its object; this is a run of the whole protocol. Both runs are given by what the states
    at their points look like. */
module IorpcWitness {
  import opened Messages
  import opened MessageIds
  import C = IorpcClient
  import CT = IorpcClientTheorems
  import V = IorpcServer
  import opened Framing
  import opened IorpcSystem
  import opened IorpcTheorems
  import opened IorpcExample
  import opened Runs

  // ---- An answer before the request ----------------------------------------------------------

  /** What the client makes of a state when it takes a step. */
  predicate ClientMoves(s: C.State, a: C.Action, t: C.State) { C.Enabled(s, a) && t == C.Apply(s, a) }

  function EarlyAction(req: Request, reply: Reply, j: nat): C.Action
  {
    match j
    case 0 => C.Begin(0, C.Timed, req, 0)
    case 1 => C.Offer(0)
    case 2 => C.Connect(0)
    case 3 => C.Take(0)
    case 4 => C.Check(0)
    case 5 => C.Register(0)
    case 6 => C.Count(0)
    case 7 => C.Load(0)
    case 8 => C.Receive(0, 1, reply)
    case 9 => C.Uncount(0)
    case 10 => C.Deliver(0)
    case 11 => C.Collect(0)
    case 12 => C.Retest(0)
    case 13 => C.Begin(1, C.Timed, req, 0)
    case _ => C.Begin(2, C.Timed, req, 0)
  }

  predicate EarlyCall(s: C.State, reply: Reply, j: nat)
  {
    && (forall c :: c in s.calls ==> (c == 0 && j >= 1) || (c == 1 && j >= 14) || (c == 2 && j >= 15))
    && (1 <= j ==> 0 in s.calls && s.calls[0].obj == 0 && s.calls[0].kind.Timed?)
    && (j == 1 ==> s.calls[0].phase.Offering?)
    && (2 <= j <= 11 ==> s.calls[0].phase.Accepted?)
    && (14 <= j ==> 1 in s.calls && s.calls[1].obj == 0 && s.calls[1].phase.Offering?)
    && (15 <= j ==> 2 in s.calls && s.calls[2].obj == 0 && s.calls[2].phase.Offering?)
  }

  predicate EarlyObject(s: C.State, reply: Reply, j: nat)
  {
    && (j == 0 ==> s.objs == map[])
    && (1 <= j ==> 0 in s.objs && !s.objs[0].canceled)
    && (1 <= j ==> s.objs[0].tracked == (j <= 11 || j >= 14))
    && (1 <= j <= 11 ==> s.objs[0].call == 0 && s.objs[0].result == if j <= 10 then None else Some(C.Answer(reply)))
    && s.pool[0] == (if j <= 11 then 0 else if j == 12 || j == 14 then 1 else if j == 13 then 2 else 0)
  }

  predicate EarlyConn(s: C.State, reply: Reply, j: nat)
  {
    && s.limit > 0 && s.queue == (if j == 2 || j == 3 then [0] else [])
    && (j <= 2 ==> s.conns == map[])
    && (3 <= j <= 12 ==>
          && 0 in s.conns && s.conns[0].msgID == (if j <= 5 then 0 else 1)
          && s.conns[0].pending == (if 6 <= j <= 8 then map[1 := 0] else map[])
          && match j
             case 3 => s.conns[0].writer.WIdle?
             case 4 => s.conns[0].writer == C.WTaken(0)
             case 5 => s.conns[0].writer == C.WReady(0)
             case 6 => s.conns[0].writer == C.WRegistered(0, 1, 0)
             case 7 => s.conns[0].writer == C.WLoading(0, 1, true)
             case _ => s.conns[0].writer.WLoaded? && s.conns[0].writer.obj == 0 && s.conns[0].writer.call == 0)
    && (3 <= j <= 12 ==>
          s.conns[0].reader == if j == 9 then C.RMatched(0, reply) else if j == 10 then C.RDelivering(0, reply)
              else C.RIdle)
  }

  predicate Early(s: C.State, reply: Reply, j: nat)
  {
    EarlyCall(s, reply, j) && EarlyObject(s, reply, j) && EarlyConn(s, reply, j)
  }

  lemma EarlyStarts(s: C.State, req: Request, reply: Reply, j: nat) returns (t: C.State)
    requires Early(s, reply, j) && j <= 3
    ensures ClientMoves(s, EarlyAction(req, reply, j), t) && Early(t, reply, j + 1)
  {
    assert [] + [0] == [0] && (j == 3 ==> s.queue[0] == 0);
    t := C.Apply(s, EarlyAction(req, reply, j));
  }

  lemma EarlyIsFiled(s: C.State, req: Request, reply: Reply, j: nat) returns (t: C.State)
    requires Early(s, reply, j) && 4 <= j <= 7
    ensures ClientMoves(s, EarlyAction(req, reply, j), t) && Early(t, reply, j + 1)
  {
    assert j == 5 ==> NextId(0, {}) == 1;
    t := C.Apply(s, EarlyAction(req, reply, j));
  }

  lemma EarlyIsAnswered(s: C.State, req: Request, reply: Reply, j: nat) returns (t: C.State)
    requires Early(s, reply, j) && 8 <= j <= 11
    ensures ClientMoves(s, EarlyAction(req, reply, j), t) && Early(t, reply, j + 1)
  {
    t := C.Apply(s, EarlyAction(req, reply, j));
  }

  lemma EarlyIsReleased(s: C.State, req: Request, reply: Reply, j: nat) returns (t: C.State)
    requires Early(s, reply, j) && 12 <= j <= 14
    ensures ClientMoves(s, EarlyAction(req, reply, j), t) && Early(t, reply, j + 1)
  {
    t := C.Apply(s, EarlyAction(req, reply, j));
  }

  lemma {:induction false} EarlyRun(s: C.State, req: Request, reply: Reply, j: nat)
      returns (actions: seq<C.Action>, t: C.State)
    requires Early(s, reply, j) && j <= 15
    ensures Leads(ClientMoves, s, actions, t) && Early(t, reply, 15)
    decreases 15 - j
  {
    if j == 15 {
      actions, t := [], s;
    } else {
      var u;
      if j <= 3 { u := EarlyStarts(s, req, reply, j); }
      else if j <= 7 { u := EarlyIsFiled(s, req, reply, j); }
      else if j <= 11 { u := EarlyIsAnswered(s, req, reply, j); }
      else { u := EarlyIsReleased(s, req, reply, j); }
      actions, t := EarlyRun(u, req, reply, j + 1);
      StepFirst(ClientMoves, s, EarlyAction(req, reply, j), u, actions, t);
      actions := [EarlyAction(req, reply, j)] + actions;
    }
  }

  /** Whatever is called and whatever is answered: when the answer comes before the request was
      sent, there is a run of the client after which one object is in the hands of two calls. */
  lemma EarlyAnswerSharesAnObject(limit: nat, req: Request, reply: Reply)
    requires limit > 0
    ensures exists states: seq<C.State>, actions: seq<C.Action> ::
              && CT.IsRun(states, actions) && states[0].limit == limit && |actions| > 0
              && CT.Occupies(states[|actions|], 0, CT.WithCaller(1))
                   && CT.Occupies(states[|actions|], 0, CT.WithCaller(2))
  {
    var s := C.State(limit, multiset{}, [], map[], map[], map[], 0);
    var actions, t := EarlyRun(s, req, reply, 0);
    assert s != t;
    var states := StatesOf(ClientMoves, s, actions, t);
    forall i | 0 <= i < |actions|
      ensures C.Enabled(states[i], actions[i]) && states[i + 1] == C.Apply(states[i], actions[i])
    {
      assert ClientMoves(states[i], actions[i], states[i + 1]);
    }
    assert CT.IsRun(states, actions);
  }

  // ---- Headers of an earlier call --------------------------------------------------------------

  /** A call that is filed and then ended by a stop of the client. */
  function StopAction(req: Request, id: MsgId, j: nat): C.Action
  {
    match j
    case 0 => C.Begin(1, C.Timed, req, 0)
    case 1 => C.Offer(1)
    case 2 => C.Take(0)
    case 3 => C.Check(0)
    case 4 => C.Register(0)
    case 5 => C.Count(0)
    case 6 => C.Load(0)
    case 7 => C.Retest(0)
    case 8 => C.StopWriter(0)
    case 9 => C.StopReader(0)
    case 10 => C.CleanUp(0, id, true)
    case _ => C.Collect(1)
  }

  predicate StoppingObject(s: C.State, h: Option<Headers>, j: nat)
  {
    && 0 in s.objs && !s.objs[0].canceled && s.objs[0].response == Response(h, NO_BODY)
    && s.pool[0] == One(j == 0 || j == 12) && s.objs[0].tracked == (1 <= j <= 11)
    && (1 <= j <= 11 ==> s.objs[0].call == 1)
    && (j <= 11 ==> s.objs[0].result == if j <= 10 then None else Some(C.StoppedWithoutError))
  }

  predicate StoppingCall(s: C.State, h: Option<Headers>, j: nat)
  {
    && (j == 0 <==> 1 !in s.calls)
    && (1 <= j ==>
          && s.calls[1].obj == 0 && s.calls[1].kind.Timed?
          && s.calls[1].phase == if j == 1 then C.Offering else if j <= 11 then C.Accepted
                                 else C.Phase.Returned(C.StoppedWithoutError, Response(h, NO_BODY)))
  }

  predicate StoppingConn(s: C.State, id: MsgId, j: nat)
  {
    && s.limit > 0 && s.queue == (if j == 2 then [0] else []) && 0 in s.conns
    && (if j <= 4 then s.conns[0].pending == map[] && NextId(s.conns[0].msgID, {}) == id
        else s.conns[0].pending == if j <= 10 then map[id := 0] else map[])
    && (if j <= 9 then s.conns[0].reader.RIdle? else s.conns[0].reader.RStopped?)
    && match j
       case 3 => s.conns[0].writer == C.WTaken(0)
       case 4 => s.conns[0].writer == C.WReady(0)
       case 5 => s.conns[0].writer == C.WRegistered(0, id, 0)
       case 6 => s.conns[0].writer == C.WLoading(0, id, true)
       case 7 => s.conns[0].writer.WLoaded? && s.conns[0].writer.obj == 0 && s.conns[0].writer.call == 1
       case 8 => s.conns[0].writer.WSending?
       case _ => if j <= 2 then s.conns[0].writer.WIdle? else s.conns[0].writer.WStopped?
  }

  predicate Stopping(s: C.State, h: Option<Headers>, id: MsgId, j: nat)
  {
    StoppingObject(s, h, j) && StoppingCall(s, h, j) && StoppingConn(s, id, j)
  }

  lemma StoppingStarts(s: C.State, req: Request, h: Option<Headers>, id: MsgId, j: nat) returns (t: C.State)
    requires Stopping(s, h, id, j) && j <= 3
    ensures ClientMoves(s, StopAction(req, id, j), t) && Stopping(t, h, id, j + 1)
  {
    assert [] + [0] == [0];
    t := C.Apply(s, StopAction(req, id, j));
  }

  lemma StoppingIsFiled(s: C.State, req: Request, h: Option<Headers>, id: MsgId, j: nat) returns (t: C.State)
    requires Stopping(s, h, id, j) && 4 <= j <= 7
    ensures ClientMoves(s, StopAction(req, id, j), t) && Stopping(t, h, id, j + 1)
  {
    t := C.Apply(s, StopAction(req, id, j));
  }

  lemma StoppingEnds(s: C.State, req: Request, h: Option<Headers>, id: MsgId, j: nat) returns (t: C.State)
    requires Stopping(s, h, id, j) && 8 <= j <= 11
    ensures ClientMoves(s, StopAction(req, id, j), t) && Stopping(t, h, id, j + 1)
  {
    t := C.Apply(s, StopAction(req, id, j));
  }

  lemma StoppingStep(s: C.State, req: Request, h: Option<Headers>, id: MsgId, j: nat) returns (t: C.State)
    requires Stopping(s, h, id, j) && j < 12
    ensures ClientMoves(s, StopAction(req, id, j), t) && Stopping(t, h, id, j + 1)
  {
    if j <= 3 { t := StoppingStarts(s, req, h, id, j); }
    else if j <= 7 { t := StoppingIsFiled(s, req, h, id, j); }
    else { t := StoppingEnds(s, req, h, id, j); }
  }

  lemma OfTheWhole(s: State, a: C.Action, u: C.State)
    requires ClientMoves(s.client, a, u) && !a.Connect? && !a.Sent? && !a.Receive?
    ensures Step(s, ClientStep(a), s.(client := u))
  {
  }

  lemma {:induction false} StoppingRun(s: State, req: Request, h: Option<Headers>, id: MsgId, j: nat)
    returns (actions: seq<Action>, t: State)
    requires Stopping(s.client, h, id, j) && j <= 12
    ensures Leads(Step, s, actions, t) && Stopping(t.client, h, id, 12) && t.lost == s.lost
    decreases 12 - j
  {
    if j == 12 {
      actions, t := [], s;
    } else {
      var u := StoppingStep(s.client, req, h, id, j);
      actions, t := StoppingRun(s.(client := u), req, h, id, j + 1);
      OfTheWhole(s, StopAction(req, id, j), u);
      StepFirst(Step, s, ClientStep(StopAction(req, id, j)), s.(client := u), actions, t);
      actions := [ClientStep(StopAction(req, id, j))] + actions;
    }
  }

  /** Answers with headers and a body of one byte. */
  function WithHeaders(h: Headers): HandlerEnd { Returned(Some(Response(Some(h), Body(1, Some([7]))))) }

  lemma FirstIsAnswered(p: Setup, h: Headers)
    requires p.Valid() && p.end == WithHeaders(h)
    ensures Answered(AfterFirst(p), p.First()) && AfterFirst(p).client.conns[0].pending - {1} == map[]
    ensures AfterFirst(p).lost == {}
  {
    FirstIsEncoded(p);
    assert Flushes(FRESH.len, V.FrameOf(p.reg, p.First().Ack()));
  }

  /** The client after the first call has gone out. */
  predicate Idle(s: C.State)
  {
    && s.limit > 0 && s.queue == [] && s.calls.Keys == {0} && 0 in s.conns && s.conns[0].writer.WIdle?
  }

  lemma AfterFirstIsIdle(p: Setup)
    requires p.Valid()
    ensures Idle(AfterFirst(p).client)
  {
  }

  lemma ItsObjectKeepsThem(p: Setup, h: Headers, s: State, t: State)
    requires p.end == WithHeaders(h) && Done(t, p.First()) && Idle(s.client) && Unmoved(s, t)
    requires t.client.conns[0].pending == map[] && t.client.conns[0].reader.RIdle?
    ensures Stopping(t.client, p.reg.Known(Some(h)), NextId(t.client.conns[0].msgID, {}), 0)
  {
  }

  lemma AnswerWithHeadersReturns(p: Setup, h: Headers) returns (actions: seq<Action>, t: State)
    requires p.Valid() && p.end == WithHeaders(h)
    ensures Leads(Step, StartOf(p), actions, t) && t.lost == {}
    ensures exists id :: Stopping(t.client, p.reg.Known(Some(h)), id, 0)
  {
    var first := FirstWay(p);
    FirstIsAnswered(p, h);
    AfterFirstIsIdle(p);
    var back, end := WayBack(AfterFirst(p), p.First());
    LeadsOn(Step, StartOf(p), first, AfterFirst(p), back, end);
    actions, t := first + back, end;
    ItsObjectKeepsThem(p, h, AfterFirst(p), end);
  }

  /** Whatever headers a handler answers with that can be sent, there is a run of client and server in
      which another call, of any request, returns just these headers, as they arrive, and no error,
      although it was never answered: the client was stopped. No stream is lost. */
  lemma StoppedCallReturnsForeignHeaders(p: Setup, h: Headers, req: Request)
    requires p.Valid() && p.end == WithHeaders(h)
    ensures exists states: seq<State>, actions: seq<Action> ::
              && IsRun(states, actions) && states[0] == StartOf(p) && |actions| > 0 && states[|actions|].lost == {}
              && C.InPhase(states[|actions|].client, 1,
                           C.Phase.Returned(C.StoppedWithoutError, Response(p.reg.Known(Some(h)), NO_BODY)))
  {
    var first, mid := AnswerWithHeadersReturns(p, h);
    var id :| Stopping(mid.client, p.reg.Known(Some(h)), id, 0);
    var second, t := StoppingRun(mid, req, p.reg.Known(Some(h)), id, 0);
    LeadsOn(Step, StartOf(p), first, mid, second, t);
    var actions := first + second;
    var states := StatesOf(Step, StartOf(p), actions, t);
    forall i | 0 <= i < |actions|
      ensures Enabled(states[i], actions[i]) && states[i + 1] == Apply(states[i], actions[i])
    {
      assert Step(states[i], actions[i], states[i + 1]);
    }
    assert IsRun(states, actions);
    assert C.InPhase(t.client, 1, C.Phase.Returned(C.StoppedWithoutError, Response(p.reg.Known(Some(h)), NO_BODY)));
  }
}
