/** End-to-end statements about every state that the joined protocol can reach, over every
    interleaving of callers, both connection loops, server goroutines and disconnects, as long as
    no frame went out that cannot be decoded to what was encoded (`lost` is empty). */
module IorpcTheorems {
  import opened Messages
  import opened MessageIds
  import C = IorpcClient
  import CC = IorpcClientCount
  import CI = IorpcClientInv
  import CT = IorpcClientTheorems
  import V = IorpcServer
  import VI = IorpcServerInv
  import VT = IorpcServerTheorems
  import opened WireFormat
  import opened Streams
  import Framing
  import opened Runs
  import opened IorpcSystem

  ghost predicate IsRun(states: seq<State>, actions: seq<Action>)
  {
    && |states| == |actions| + 1 && Init(states[0])
    && forall i :: 0 <= i < |actions| ==>
         Enabled(states[i], actions[i]) && states[i + 1] == Apply(states[i], actions[i])
  }

  lemma InitialInv(s: State)
    requires Init(s)
    ensures Inv(s)
  {
    CT.InitialInv(s.client);
    assert VI.Spawners(s.server) == {};
  }

  lemma {:induction false} ReachableInv(states: seq<State>, actions: seq<Action>, i: nat)
    requires IsRun(states, actions) && i < |states|
    ensures Linked(states[i])
  {
    if i == 0 {
      InitialInv(states[0]);
    } else {
      ReachableInv(states, actions, i - 1);
      StepKeepsLinked(states[i - 1], actions[i - 1]);
    }
  }

  ghost predicate Linked(s: State) { s.lost == {} ==> Inv(s) }

  lemma StepKeepsLinked(s: State, a: Action)
    requires Linked(s) && Enabled(s, a)
    ensures Linked(Apply(s, a))
  {
    if Apply(s, a).lost == {} {
      LostStaysLost(s, a);
      StepKeepsInv(s, a);
    }
  }

  // ---- Refinement of "run the handler, get its answer" ------------------------------------

  /** A call as its user should see it: its request as it arrives, the runs of the handler on it,
      and what it was completed with. */
  datatype Spec = Spec(req: Request, runs: seq<V.Run>, ends: seq<C.Result>)

  /** Nothing happens; or the handler runs, for the first time, on the call's request; or the
      call is completed, for the first time, and if with an answer then with the one that the
      one run of the handler gave, as that arrives. */
  predicate SpecStep(reg: Registry, a: Spec, b: Spec)
  {
    || b == a
    || (a.runs == [] && |b.runs| == 1 && b.runs[0].req == a.req && b == a.(runs := b.runs))
    || (a.ends == [] && |b.ends| == 1 && b == a.(ends := b.ends)
        && (b.ends[0].Answer? ==> |a.runs| == 1 && b.ends[0].reply == ArrivingReply(reg, ReplyOf(a.runs[0].end))))
  }

  function SpecOf(s: State, c: nat): Spec
    requires c in s.client.calls
  {
    Spec(ArrivingRequest(s.server.reg, s.client.calls[c].req),
         if c in s.server.tickets then s.server.tickets[c].runs else [],
         s.client.calls[c].ends)
  }

  /** A step leaves a call's request alone and only adds completions. */
  predicate CallGrows(s: C.State, t: C.State, c: nat)
  {
    if c in s.calls then c in t.calls && t.calls[c].req == s.calls[c].req && s.calls[c].ends <= t.calls[c].ends
    else c in t.calls ==> t.calls[c].ends == []
  }

  lemma SendingStepGrows(s: C.State, a: C.Action, c: nat)
    requires CI.Inv(s) && C.Enabled(s, a)
    requires Sending(a)
    ensures CallGrows(s, C.Apply(s, a), c)
  {
    assert CI.HandsOk(s, a.k);
    match a {
      case Register(k) => assert CI.ObjOk(s, s.conns[k].writer.obj);
      case Retest(k) => assert CI.ObjOk(s, s.conns[k].writer.obj);
      case Deliver(k) => assert CI.ObjOk(s, s.conns[k].reader.obj);
      case CleanUp(k, id, _) => assert CI.PendingOk(s, k, id) && CI.ObjOk(s, s.conns[k].pending[id]);
      case _ =>
    }
  }

  lemma ClientStepGrows(s: C.State, a: C.Action, c: nat)
    requires CI.Inv(s) && C.Enabled(s, a)
    ensures CallGrows(s, C.Apply(s, a), c)
  {
    if Sending(a) {
      SendingStepGrows(s, a, c);
    } else if !(a.Connect? || a.Sent? || a.Receive?) {
      ClientStepIsBystander(s, a);
      assert CallKept(s, C.Apply(s, a), c);
    }
  }

  /** Runs of the handler are only added, and by the server's own steps. */
  lemma ServerStepGrows(s: V.State, v: V.Action, c: nat)
    requires VI.Inv(s) && V.Enabled(s, v) && !v.Arrive? && !v.Accept?
    ensures TicketKept(s, V.Apply(s, v), c)
    ensures !v.Handle? && c in s.tickets ==> V.Apply(s, v).tickets[c].runs == s.tickets[c].runs
  {
    if v.Read? || v.Acquire? || v.Spawn? || v.StopReader? || v.Close? { RequestSideKeepsTickets(s, v); }
    else if v.Handle? || v.Post? || v.Drop? || v.Release? { WorkerKeepsTickets(s, v); }
    else { ReplySideKeepsTickets(s, v); }
    assert TicketKept(s, V.Apply(s, v), c);
  }

  /** For the call, a step of the specification; a call that is new starts from nothing. */
  predicate Refines(s: State, t: State, c: nat)
  {
    c in t.client.calls ==>
      if c in s.client.calls then SpecStep(t.server.reg, SpecOf(s, c), SpecOf(t, c))
      else SpecOf(t, c) == Spec(ArrivingRequest(t.server.reg, t.client.calls[c].req), [], [])
  }

  lemma ClientStepRefines(s: State, a: C.Action, c: nat)
    requires Inv(s) && Enabled(s, ClientStep(a)) && Inv(Apply(s, ClientStep(a)))
    requires c in Apply(s, ClientStep(a)).client.calls
    ensures Refines(s, Apply(s, ClientStep(a)), c)
  {
    var t := Apply(s, ClientStep(a));
    ClientStepGrows(s.client, a, c);
    assert CI.CallOk(s.client, c) && CI.CallOk(t.client, c) && EndLink(t, c) && TicketLink(s, c);
    if c in s.client.calls && t.client.calls[c].ends != s.client.calls[c].ends {
      assert t.client.calls[c].ends[0] in t.client.calls[c].ends;
    }
  }

  lemma ServerStepRefines(s: State, v: V.Action, c: nat)
    requires Inv(s) && Enabled(s, ServerStep(v)) && c in s.client.calls
    ensures SpecStep(s.server.reg, SpecOf(s, c), SpecOf(Apply(s, ServerStep(v)), c))
    ensures Apply(s, ServerStep(v)).server.reg == s.server.reg
  {
    ServerStepGrows(s.server, v, c);
    assert TicketLink(s, c);
    if v.Handle? { assert VI.ServingOk(s.server, v.c); }
  }

  lemma TransmitRefines(s: State, k: nat, c: nat)
    requires Inv(s) && Enabled(s, Transmit(k))
    ensures Refines(s, Apply(s, Transmit(k)), c)
  {
    assert WriterLink(s, k) && TicketLink(s, c);
  }

  lemma ReturnRefines(s: State, k: nat, c: nat)
    requires Inv(s) && Enabled(s, Return(k))
    ensures Refines(s, Apply(s, Return(k)), c)
  {
    var ack := s.server.pipes[k].outs[0];
    ClientStepGrows(s.client, C.Receive(k, ack.id, ArrivingReply(s.server.reg, ack.reply)), c);
    ServerStepGrows(s.server, V.Depart(k), c);
  }

  /** Every step of the protocol is, for every call, a step of the specification: the call is
      new, or one of the three things above happens to it. */
  lemma StepRefines(s: State, a: Action, c: nat)
    requires Inv(s) && Enabled(s, a) && Apply(s, a).lost == {}
    ensures Refines(s, Apply(s, a), c)
  {
    LostStaysLost(s, a);
    if c in Apply(s, a).client.calls {
      match a {
        case ClientStep(x) =>
          StepKeepsInv(s, a);
          ClientStepRefines(s, x, c);
        case ServerStep(v) => ServerStepRefines(s, v, c);
        case Open(_) =>
        case Transmit(k) => TransmitRefines(s, k, c);
        case Return(k) => ReturnRefines(s, k, c);
        case _ =>
      }
    }
  }

  /** In every reachable state, for every call: the handler has run at most once, on the
      call's own request as it arrives; the call has been completed at most once; and an answer is
      exactly what arrives of what that run of the handler ended in. */
  lemma AnswersAreTheHandlers(states: seq<State>, actions: seq<Action>, i: nat, c: nat)
    requires IsRun(states, actions) && i < |states| && states[i].lost == {} && c in states[i].client.calls
    ensures var spec := SpecOf(states[i], c);
            && |spec.runs| <= 1 && |spec.ends| <= 1
            && (forall run :: run in spec.runs ==> run.req == spec.req)
            && (forall end :: end in spec.ends && end.Answer? ==>
                  |spec.runs| == 1 && end.reply == ArrivingReply(states[i].server.reg, ReplyOf(spec.runs[0].end)))
  {
    ReachableInv(states, actions, i);
    var s := states[i];
    assert CI.CallOk(s.client, c) && EndLink(s, c) && TicketLink(s, c) && VI.TicketOk(s.server, c);
  }

  /** A call that was answered could be: the request and the answer had bodies that were supplied and
      headers short enough, and arrived as they should. */
  lemma AnsweredCallsAreSendable(states: seq<State>, actions: seq<Action>, i: nat, c: nat, r: C.Result)
    requires IsRun(states, actions) && i < |states| && states[i].lost == {} && c in states[i].client.calls
    requires r in states[i].client.calls[c].ends && r.Answer?
    ensures var s, spec := states[i], SpecOf(states[i], c);
            && Sendable(s.client.calls[c].req.Body) && |spec.runs| == 1
            && FineRequest(s.server.reg, WireRequest(0, s.client.calls[c].req))
            && Sendable(ResponseOf(ReplyOf(spec.runs[0].end)).Body)
            && FineReply(s.server.reg, ReplyOf(spec.runs[0].end))
  {
    ReachableInv(states, actions, i);
    assert EndLink(states[i], c) && TicketLink(states[i], c);
  }

  // ---- What the caller sees ---------------------------------------------------------------

  /** The response and the presence of an error, as CallTimeout returns them. The reader makes
      an error only of a text that is not empty. */
  datatype Seen = Seen(response: Response, failed: bool)

  function SeenBy(r: C.Result, response: Response): Seen
  {
    match r
    case Answer(reply) => Seen(response, reply.error != [])
    case StoppedWithoutError => Seen(response, false)
    case _ => Seen(response, true)
  }

  /** A handler that returned without an error, or with one whose text is empty. */
  predicate LooksFine(end: HandlerEnd)
  {
    match end
    case Returned(_) => true
    case ReturnedError(text) => text == []
    case Panicked(_) => false
  }

  /** A caller of CallTimeout sees no error exactly when the client was stopped under the
      call, or the handler ran on this very request and ended without an error text. The response
      is then the handler's, as it arrives; for a call that was stopped it is empty but for the headers that the
      object still had from an earlier call. */
  lemma NoErrorExactlyWhen(states: seq<State>, actions: seq<Action>, i: nat, c: nat, r: C.Result, response: Response)
    requires IsRun(states, actions) && i < |states| && states[i].lost == {}
    requires C.InPhase(states[i].client, c, C.Phase.Returned(r, response))
    ensures var spec := SpecOf(states[i], c);
            !SeenBy(r, response).failed <==>
              r.StoppedWithoutError?
              || (r.Answer? && |spec.runs| == 1 && spec.runs[0].req == spec.req && LooksFine(spec.runs[0].end))
    ensures var spec := SpecOf(states[i], c);
            r.Answer? ==>
              && |spec.runs| == 1
              && SeenBy(r, response).response
                 == ResponseOf(ArrivingReply(states[i].server.reg, ReplyOf(spec.runs[0].end)))
    ensures !r.Answer? ==> SeenBy(r, response).response == Response(states[i].client.calls[c].stale, NO_BODY)
  {
    ReachableInv(states, actions, i);
    AnswersAreTheHandlers(states, actions, i, c);
    CT.ReturnedResultIsTheCallsExactlyWhen(states[i].client, c, r, response);
    assert r in SpecOf(states[i], c).ends;
  }

  /** An error with an empty text reaches the caller as a success. */
  lemma EmptyErrorTextIsLost(reg: Registry)
    ensures var reply := ArrivingReply(reg, ReplyOf(ReturnedError([])));
            SeenBy(C.Answer(reply), ResponseOf(reply)) == Seen(Response(None, Arrived(NO_BODY)), false)
  {
  }

  // ---- Accounting -------------------------------------------------------------------------

  /** pendingRequestsCount in every reachable state of the whole protocol. */
  lemma ReachableCounterIsExact(states: seq<State>, actions: seq<Action>, i: nat)
    requires IsRun(states, actions) && i < |states| && states[i].lost == {}
    requires |CC.Charges(states[i].client)| < C.UINT32
    ensures var c := states[i].client;
            && c.count == |CT.Entries(c)| + |CT.Removers(c)| - |CC.Uncounted(c)|
            && (CT.Entries(c) == {} && CT.Removers(c) == {} ==> c.count == 0)
            && (forall k :: k in c.conns && c.conns[k].reader.RMatched? ==> c.count > 0)
            && (forall k, id :: k in c.conns && c.conns[k].writer.WStopped? && id in c.conns[k].pending ==> c.count > 0)
  {
    ReachableInv(states, actions, i);
    var s := states[i];
    forall k ensures CT.Prompt(s.client, k) { assert WriterLink(s, k); }
    CT.CounterIsExact(s.client);
  }

  /** The reader's "unexpected identifier" error does not arise in any run. */
  lemma ReachableAnswersFindTheirCalls(states: seq<State>, actions: seq<Action>, i: nat, k: nat)
    requires IsRun(states, actions) && i < |states| && states[i].lost == {} && Enabled(states[i], Return(k))
    ensures var s, ack := states[i], states[i].server.pipes[k].outs[0];
            FiledAs(s.client, k, ack.id, ack.call) && Handled(s, ack.call, ArrivingReply(s.server.reg, ack.reply))
  {
    ReachableInv(states, actions, i);
    AnswerFindsItsCall(states[i], k);
  }

  // ---- The server's side, whether streams are lost or not ------------------------------------

  /** In every reachable state the server's own invariant holds, and its writers' buffers are what
      was encoded since the last flush. */
  lemma {:induction false} ReachableServer(states: seq<State>, actions: seq<Action>, i: nat)
    requires IsRun(states, actions) && i < |states|
    ensures Opened(states[i]) && VI.Inv(states[i].server) && states[i].server.reg.Valid()
    ensures forall k {:trigger VT.BufferOk(states[i].server, k)} :: VT.BufferOk(states[i].server, k)
  {
    if i == 0 {
      InitialInv(states[0]);
    } else {
      ReachableServer(states, actions, i - 1);
      assert Enabled(states[i - 1], actions[i - 1]);
      ServerStepKeepsAll(states[i - 1], actions[i - 1]);
    }
  }

  lemma ServerStepKeepsAll(s: State, a: Action)
    requires Opened(s) && VI.Inv(s.server) && s.server.reg.Valid() && Enabled(s, a)
    requires forall k {:trigger VT.BufferOk(s.server, k)} :: VT.BufferOk(s.server, k)
    ensures var t := Apply(s, a);
            && Opened(t) && VI.Inv(t.server) && t.server.reg == s.server.reg
            && (forall k {:trigger VT.BufferOk(t.server, k)} :: VT.BufferOk(t.server, k))
  {
    var t := Apply(s, a);
    StepKeepsOpened(s, a);
    ServerStepsAlone(s, a);
    if ServerPart(s, a).Some? {
      var v := ServerPart(s, a).value;
      VI.StepKeepsInv(s.server, v);
      VT.StepKeepsRegistry(s.server, v);
      forall k ensures VT.BufferOk(t.server, k) {
        assert VT.BufferOk(s.server, k);
        VT.StepKeepsBuffer(s.server, v, k);
      }
    }
  }

  /** Over all connections the tokens in use are the running goroutines and the readers about
      to start one; there are never more than the configured number. */
  lemma ReachableTokens(states: seq<State>, actions: seq<Action>, i: nat)
    requires IsRun(states, actions) && i < |states|
    ensures var v := states[i].server;
            0 <= v.tokens <= v.concurrency && v.tokens == |v.serving| + |VI.Spawners(v)|
  {
    ReachableServer(states, actions, i);
    assert |states[i].server.serving| == |states[i].server.serving.Keys|;
  }

  /** When all connections are closed, every token comes back, however many goroutines there are
      and wherever they stand: from each reachable state some steps of the server lead to one in
      which no token is in use. */
  lemma ReachableTokensDrain(states: seq<State>, actions: seq<Action>, i: nat)
    requires IsRun(states, actions) && i < |states| && VT.AllClosed(states[i].server)
    ensures exists steps: seq<V.Action>, t: V.State ::
              Leads(VT.Step, states[i].server, steps, t) && t.tokens == 0 && t.serving == map[]
  {
    ReachableServer(states, actions, i);
    var steps, t := VT.TokensDrain(states[i].server);
  }

  /** In every reachable state, everything a running writer has encoded is on the wire exactly when
      that is nothing, or the last answer has a body, or its head filled the buffer. */
  lemma ReachableFlushedExactlyWhen(states: seq<State>, actions: seq<Action>, i: nat, k: nat)
    requires IsRun(states, actions) && i < |states|
    requires k in states[i].server.pipes && states[i].server.pipes[k].writing
    ensures var v := states[i].server;
            var p := v.pipes[k];
            var n := |p.emitted| - 1;
            p.flushed == |p.outs| <==>
              || n < 0
              || Framing.Flushes(Framing.After(Framing.FRESH, VT.Frames(v.reg, p.emitted[..n])).len,
                                 V.FrameOf(v.reg, p.emitted[n]))
  {
    ReachableServer(states, actions, i);
    VT.AllFlushedExactlyWhen(states[i].server, k);
  }

  /** And an answer that is still in the buffer has not completed its call. */
  lemma BufferedAnswersHaveNotArrived(states: seq<State>, actions: seq<Action>, i: nat, k: nat, j: nat)
    requires IsRun(states, actions) && i < |states| && states[i].lost == {} && k in states[i].server.pipes
    requires states[i].server.pipes[k].flushed <= j < |states[i].server.pipes[k].outs|
    ensures var call := states[i].server.pipes[k].outs[j].call;
            call in states[i].client.calls && forall r :: r in states[i].client.calls[call].ends ==> !r.Answer?
  {
    ReachableInv(states, actions, i);
    var s := states[i];
    var a := s.server.pipes[k].outs[j];
    assert VI.OutsOk(s.server, k) && VI.Returns(s.server, k, a, V.Encoded);
    assert TicketLink(s, a.call) && EndLink(s, a.call);
  }
}
