/** The joined protocol down to its bytes: in every reachable state in which no stream is lost,
    decoding what is on the wire gives exactly the packets that the server's reader takes and the
    replies that the client's reader is handed. */
module IorpcBytes {
  import opened Messages
  import opened MessageIds
  import opened WireFormat
  import opened Streams
  import opened Framing
  import Connections
  import C = IorpcClient
  import V = IorpcServer
  import VI = IorpcServerInv
  import VT = IorpcServerTheorems
  import opened IorpcSystem
  import opened IorpcTheorems

  // ---- Requests --------------------------------------------------------------------------

  function Wires(ps: seq<V.Packet>): (ws: seq<WireRequest>)
    ensures |ws| == |ps|
  {
    seq(|ps|, i requires 0 <= i < |ps| => WireOfPacket(ps[i]))
  }

  /** Everything encoded is the stream of what was sent, and what is on the wire all of it but the
      requests that are still in the buffer. */
  predicate SentOk(reg: Registry, o: Outbox)
  {
    && o.held <= |o.sent| && (forall p :: p in o.sent ==> FineRequest(reg, WireOfPacket(p)))
    && o.encoded == RequestStream(reg, Wires(o.sent))
    && o.wire == RequestStream(reg, Wires(o.sent[..|o.sent| - o.held]))
    && (if o.sent == [] then o.buf == FRESH else RequestGoes(reg, FRESH, WireOfPacket(o.sent[0])))
  }

  /** The last ones sent, as they arrive, are those the server has not read. */
  predicate Awaited(reg: Registry, o: Outbox, reqs: seq<V.Packet>)
  {
    && o.held <= |reqs| <= |o.sent|
    && forall j :: 0 <= j < |reqs| ==> reqs[j] == Arriving(reg, o.sent[|o.sent| - |reqs| + j])
  }

  predicate LineOk(reg: Registry, o: Outbox, reqs: seq<V.Packet>) { SentOk(reg, o) && Awaited(reg, o, reqs) }

  predicate RequestsOk(s: State, k: nat)
  {
    && LineOk(s.server.reg, s.OutboxOf(k), s.server.PipeOf(k).reqs)
    && (k !in s.server.pipes ==> s.OutboxOf(k) == NEW_OUTBOX)
    && forall p :: p in s.OutboxOf(k).sent ==> IsCalls(s.client, p)
  }

  predicate IsCalls(c: C.State, p: V.Packet) { p.call in c.calls && c.calls[p.call].req == p.req }

  lemma {:induction false} OneRequestMore(reg: Registry, ws: seq<WireRequest>, w: WireRequest)
    ensures RequestStream(reg, ws + [w]) == RequestStream(reg, ws) + RequestFrame(reg, w)
    decreases |ws|
  {
    if ws == [] {
      assert [w][1..] == [] && RequestFrame(reg, w) + [] == RequestFrame(reg, w);
      assert [] + RequestFrame(reg, w) == RequestFrame(reg, w);
    } else {
      assert (ws + [w])[1..] == ws[1..] + [w];
      OneRequestMore(reg, ws[1..], w);
      Joined(RequestFrame(reg, ws[0]), RequestStream(reg, ws[1..]), RequestFrame(reg, w));
    }
  }

  lemma EncodeKeepsSent(reg: Registry, o: Outbox, p: V.Packet)
    requires SentOk(reg, o) && RequestGoes(reg, o.buf, WireOfPacket(p))
    ensures SentOk(reg, Encode(reg, o, p))
  {
    var o', w := Encode(reg, o, p), WireOfPacket(p);
    RequestFrameIs(reg, w);
    OneRequestMore(reg, Wires(o.sent), w);
    assert Wires(o.sent + [p]) == Wires(o.sent) + [w];
    assert o'.sent[..|o'.sent|] == o'.sent;
    assert (o.sent + [p])[..|o.sent| - o.held] == o.sent[..|o.sent| - o.held];
  }

  lemma FlushKeepsSent(reg: Registry, o: Outbox)
    requires SentOk(reg, o)
    ensures SentOk(reg, Emptied(o))
  {
    assert o.sent[..|o.sent|] == o.sent;
  }

  lemma EncodeKeepsLine(reg: Registry, o: Outbox, reqs: seq<V.Packet>, p: V.Packet)
    requires LineOk(reg, o, reqs) && RequestGoes(reg, o.buf, WireOfPacket(p))
    ensures LineOk(reg, Encode(reg, o, p), reqs + [Arriving(reg, p)])
  {
    EncodeKeepsSent(reg, o, p);
    EncodeKeepsAwaited(reg, o, reqs, p);
  }

  lemma EncodeKeepsAwaited(reg: Registry, o: Outbox, reqs: seq<V.Packet>, p: V.Packet)
    requires Awaited(reg, o, reqs)
    ensures Awaited(reg, Encode(reg, o, p), reqs + [Arriving(reg, p)])
  {
    var sent := o.sent + [p];
    assert Encode(reg, o, p).sent == sent && |sent| - |reqs + [Arriving(reg, p)]| == |o.sent| - |reqs|;
    forall j | 0 <= j < |reqs + [Arriving(reg, p)]|
      ensures (reqs + [Arriving(reg, p)])[j] == Arriving(reg, sent[|o.sent| - |reqs| + j])
    {
      if j < |reqs| { assert sent[|o.sent| - |reqs| + j] == o.sent[|o.sent| - |reqs| + j]; }
    }
  }

  /** Nothing that RequestsOk speaks of has changed. */
  predicate SameLine(s: State, t: State, k: nat)
  {
    && t.server.reg == s.server.reg && t.OutboxOf(k) == s.OutboxOf(k)
    && (k in t.server.pipes <==> k in s.server.pipes) && t.server.PipeOf(k).reqs == s.server.PipeOf(k).reqs
    && forall p :: p in s.OutboxOf(k).sent && IsCalls(s.client, p) ==> IsCalls(t.client, p)
  }

  lemma SameLineIsOk(s: State, t: State, k: nat)
    requires RequestsOk(s, k) && SameLine(s, t, k)
    ensures RequestsOk(t, k)
  {
  }

  lemma TransmitKeepsOthers(s: State, k: nat, p: V.Packet, j: nat)
    requires k in s.server.pipes && j != k
    ensures SameLine(s, TransmitStep(s, k, p), j)
  {
  }

  lemma TransmitKeepsOwn(s: State, k: nat, p: V.Packet)
    requires RequestsOk(s, k) && k in s.server.pipes && RequestGoes(s.server.reg, s.OutboxOf(k).buf, WireOfPacket(p))
    requires IsCalls(s.client, p)
    ensures RequestsOk(TransmitStep(s, k, p), k)
  {
    EncodeKeepsLine(s.server.reg, s.OutboxOf(k), s.server.PipeOf(k).reqs, p);
    var t := TransmitStep(s, k, p);
    assert t.OutboxOf(k) == Encode(s.server.reg, s.OutboxOf(k), p);
    assert t.server.PipeOf(k).reqs == s.server.PipeOf(k).reqs + [Arriving(s.server.reg, p)];
    assert t.client.calls == s.client.calls;
  }

  lemma FlushKeepsRequests(s: State, k: nat, j: nat)
    requires RequestsOk(s, j) && k in s.server.pipes
    ensures RequestsOk(FlushStep(s, k), j)
  {
    var t, o := FlushStep(s, k), s.OutboxOf(k);
    if j == k {
      FlushKeepsSent(s.server.reg, o);
      assert t.OutboxOf(k) == Emptied(o);
    } else {
      assert SameLine(s, t, j);
    }
  }

  /** Steps of the server but the reader's leave the requests on the wire alone. */
  lemma ServerKeepsReqs(s: V.State, v: V.Action, j: nat)
    requires VI.Inv(s) && V.Enabled(s, v) && !v.Read? && !v.Arrive? && !v.Accept?
    ensures var t := V.Apply(s, v);
            t.reg == s.reg && (j in t.pipes <==> j in s.pipes) && t.PipeOf(j).reqs == s.PipeOf(j).reqs
  {
    if v.Post? { assert VI.ServingOk(s, v.c); }
  }

  lemma ReadKeepsAwaited(reg: Registry, o: Outbox, reqs: seq<V.Packet>)
    requires Awaited(reg, o, reqs) && o.held < |reqs|
    ensures Awaited(reg, o, reqs[1..])
  {
    forall j | 0 <= j < |reqs| - 1 ensures reqs[1..][j] == Arriving(reg, o.sent[|o.sent| - |reqs[1..]| + j]) {
      assert reqs[1..][j] == reqs[j + 1];
    }
  }

  lemma ReadKeepsRequests(s: State, k: nat, j: nat)
    requires RequestsOk(s, j) && k in s.server.pipes && s.OutboxOf(k).held < |s.server.pipes[k].reqs|
    ensures RequestsOk(s.(server := V.ReadStep(s.server, k)), j)
  {
    var t := s.(server := V.ReadStep(s.server, k));
    if j == k {
      assert t.server.PipeOf(k).reqs == s.server.PipeOf(k).reqs[1..];
      ReadKeepsAwaited(s.server.reg, s.OutboxOf(k), s.server.PipeOf(k).reqs);
    } else {
      assert SameLine(s, t, j);
    }
  }

  lemma ServerStepKeepsRequests(s: State, v: V.Action, j: nat)
    requires VI.Inv(s.server) && RequestsOk(s, j) && Enabled(s, ServerStep(v)) && s.lost == {}
    ensures RequestsOk(Apply(s, ServerStep(v)), j)
  {
    if v.Read? {
      ReadKeepsRequests(s, v.k, j);
    } else {
      ServerKeepsReqs(s.server, v, j);
      SameLineIsOk(s, Apply(s, ServerStep(v)), j);
    }
  }

  lemma ReturnKeepsLine(s: State, k: nat, j: nat)
    requires Inv(s) && Enabled(s, Return(k))
    ensures SameLine(s, Apply(s, Return(k)), j)
  {
    var t, ack := Apply(s, Return(k)), s.server.pipes[k].outs[0];
    ServerKeepsReqs(s.server, V.Depart(k), j);
    forall p | p in s.OutboxOf(j).sent && IsCalls(s.client, p) ensures IsCalls(t.client, p) {
      ClientStepGrows(s.client, C.Receive(k, ack.id, ArrivingReply(s.server.reg, ack.reply)), p.call);
    }
  }

  lemma ClientStepKeepsLine(s: State, c: C.Action, j: nat)
    requires Inv(s) && Enabled(s, ClientStep(c))
    ensures SameLine(s, Apply(s, ClientStep(c)), j)
  {
    var t := Apply(s, ClientStep(c));
    forall p | p in s.OutboxOf(j).sent && IsCalls(s.client, p) ensures IsCalls(t.client, p) {
      ClientStepGrows(s.client, c, p.call);
    }
  }

  lemma OpenKeepsRequests(s: State, k: nat, j: nat)
    requires RequestsOk(s, j) && Enabled(s, Open(k))
    ensures RequestsOk(Apply(s, Open(k)), j)
  {
    var t := Apply(s, Open(k));
    assert t.server.PipeOf(k).reqs == [] && s.server.PipeOf(k).reqs == [];
    assert t.client.calls == s.client.calls;
  }

  lemma TransmitKeepsRequests(s: State, k: nat, j: nat)
    requires Inv(s) && RequestsOk(s, j) && Enabled(s, Transmit(k))
    ensures RequestsOk(Apply(s, Transmit(k)), j)
  {
    var p := Outgoing(s.client.conns[k].writer);
    assert WriterLink(s, k);
    if j == k {
      TransmitKeepsOwn(s, k, p);
    } else {
      TransmitKeepsOthers(s, k, p, j);
      SameLineIsOk(s, TransmitStep(s, k, p), j);
    }
  }

  lemma StepKeepsRequests(s: State, a: Action, j: nat)
    requires Opened(s) && Inv(s) && RequestsOk(s, j) && Enabled(s, a) && Apply(s, a).lost == {}
    ensures RequestsOk(Apply(s, a), j)
  {
    LostStaysLost(s, a);
    match a
    case ClientStep(c) => ClientStepKeepsLine(s, c, j); SameLineIsOk(s, Apply(s, a), j);
    case ServerStep(v) => ServerStepKeepsRequests(s, v, j);
    case Open(k) => OpenKeepsRequests(s, k, j);
    case Transmit(k) => TransmitKeepsRequests(s, k, j);
    case FlushRequests(k) => FlushKeepsRequests(s, k, j);
    case Return(k) => ReturnKeepsLine(s, k, j); SameLineIsOk(s, Apply(s, a), j);
    case _ =>
  }

  /** What the server's decoder makes of all that is on the wire: the requests that were sent, as
      they arrive, with nothing left over; and the last ones, which its reader has not taken yet,
      are just the packets that it will take. */
  predicate WireReadsAs(reg: Registry, o: Outbox, reqs: seq<V.Packet>)
    requires reg.Valid()
  {
    var read := RequestsIn(reg, o.wire);
    && o.held <= |reqs| <= |o.sent| && read.left == [] && |read.messages| == |o.sent| - o.held
    && (forall j :: 0 <= j < |read.messages| ==> read.messages[j] == RequestArrives(reg, WireOfPacket(o.sent[j])))
    && (forall j :: 0 <= j < |reqs| - o.held ==>
          && WireOfPacket(reqs[j]) == read.messages[|o.sent| - |reqs| + j]
          && reqs[j].call == o.sent[|o.sent| - |reqs| + j].call)
  }

  lemma WiresAreFine(reg: Registry, ps: seq<V.Packet>, n: nat)
    requires n <= |ps| && forall p :: p in ps ==> FineRequest(reg, WireOfPacket(p))
    ensures forall w :: w in Wires(ps[..n]) ==> FineRequest(reg, w)
  {
    forall w | w in Wires(ps[..n]) ensures FineRequest(reg, w) {
      var j :| 0 <= j < n && Wires(ps[..n])[j] == w;
      assert ps[j] in ps;
    }
  }

  lemma LineReadsAs(reg: Registry, o: Outbox, reqs: seq<V.Packet>)
    requires reg.Valid() && LineOk(reg, o, reqs)
    ensures WireReadsAs(reg, o, reqs)
  {
    LineReads(reg, o);
    LastAreAwaited(reg, o, reqs, RequestsIn(reg, o.wire).messages);
  }

  lemma LineReads(reg: Registry, o: Outbox)
    requires reg.Valid() && SentOk(reg, o)
    ensures var read := RequestsIn(reg, o.wire);
            && read.left == [] && |read.messages| == |o.sent| - o.held
            && forall j :: 0 <= j < |read.messages| ==>
                 read.messages[j] == RequestArrives(reg, WireOfPacket(o.sent[j]))
  {
    var ws := Wires(o.sent[..|o.sent| - o.held]);
    WiresAreFine(reg, o.sent, |ws|);
    RequestStreamRoundTrip(reg, ws);
  }

  lemma LastAreAwaited(reg: Registry, o: Outbox, reqs: seq<V.Packet>, messages: seq<WireRequest>)
    requires Awaited(reg, o, reqs) && |messages| == |o.sent| - o.held
    requires forall j :: 0 <= j < |messages| ==> messages[j] == RequestArrives(reg, WireOfPacket(o.sent[j]))
    ensures forall j :: 0 <= j < |reqs| - o.held ==>
              && WireOfPacket(reqs[j]) == messages[|o.sent| - |reqs| + j]
              && reqs[j].call == o.sent[|o.sent| - |reqs| + j].call
  {
  }

  // ---- Answers ---------------------------------------------------------------------------

  predicate AckOk(s: V.State, a: V.Ack)
  {
    FineReply(s.reg, a.reply) && a.call in s.tickets && VI.Answers(s.tickets[a.call], a.reply)
  }

  /** All that was emitted kept its start line and can arrive; the last ones have not been handed to
      the client. */
  predicate AnswersOk(s: V.State, k: nat)
  {
    k in s.pipes ==>
      var p := s.pipes[k];
      AnswersKept(s.reg, p) && forall a :: a in p.emitted ==> AckOk(s, a)
  }

  predicate AnswersKept(reg: Registry, p: V.Pipe)
  {
    && AllKept(FRESH, VT.Frames(reg, p.emitted))
    && p.flushed <= |p.outs| <= |p.emitted| && p.outs == p.emitted[|p.emitted| - |p.outs|..]
  }

  lemma {:induction false} OneFrameMoreKept(b: Buf, fs: seq<Frame>, f: Frame)
    ensures AllKept(b, fs + [f]) <==> AllKept(b, fs) && Kept(After(b, fs), f)
    decreases |fs|
  {
    if fs == [] {
      assert [f][1..] == [];
    } else {
      OneFrameMoreKept(Next(b, fs[0]), fs[1..], f);
      assert (fs + [f])[1..] == fs[1..] + [f];
    }
  }

  lemma EmitKeepsAnswers(s: V.State, k: nat, a: V.Ack)
    requires k in s.pipes && AnswersKept(s.reg, s.pipes[k])
    requires s.pipes[k].buf == After(FRESH, VT.Frames(s.reg, s.pipes[k].emitted))
    requires ResponseGoes(s.reg, s.pipes[k].buf, WireOfAck(a))
    ensures AnswersKept(s.reg, V.EmitStep(s, k, a).pipes[k])
    ensures V.EmitStep(s, k, a).pipes[k].emitted == s.pipes[k].emitted + [a]
  {
    var p, f := s.pipes[k], V.FrameOf(s.reg, a);
    assert VT.Frames(s.reg, p.emitted + [a]) == VT.Frames(s.reg, p.emitted) + [f];
    OneFrameMoreKept(FRESH, VT.Frames(s.reg, p.emitted), f);
    assert (p.emitted + [a])[|p.emitted| - |p.outs|..] == p.emitted[|p.emitted| - |p.outs|..] + [a];
  }

  /** A run of the handler is not forgotten. */
  lemma AckStaysOk(s: V.State, v: V.Action, a: V.Ack)
    requires VI.Inv(s) && V.Enabled(s, v) && AckOk(s, a)
    ensures AckOk(V.Apply(s, v), a)
  {
    VT.StepKeepsRegistry(s, v);
    if !v.Arrive? && !v.Accept? {
      ServerStepGrows(s, v, a.call);
    }
  }

  predicate SameAnswers(p: V.Pipe, q: V.Pipe) 
  {
    q.emitted == p.emitted && q.outs == p.outs && p.flushed <= q.flushed <= |q.outs|
  }

  lemma MostStepsLeaveAnswers(s: V.State, v: V.Action, k: nat)
    requires VI.Inv(s) && V.Enabled(s, v) && !(v.Emit? && v.k == k) && !v.Depart? && !v.Accept?
    ensures var t := V.Apply(s, v);
            (k in t.pipes <==> k in s.pipes) && (k in t.pipes ==> SameAnswers(s.pipes[k], t.pipes[k]))
  {
    assert VI.OutsOk(s, k);
    if v.Post? { assert VI.ServingOk(s, v.c); }
  }

  /** What a step adds to what was emitted. */
  lemma StepKeepsPipe(s: State, v: V.Action, k: nat)
    requires VI.Inv(s.server) && AnswersOk(s.server, k) && VT.BufferOk(s.server, k) && V.Enabled(s.server, v)
    requires v.Emit? ==> CanEmit(s, v.k)
    requires k in V.Apply(s.server, v).pipes
    ensures var p := V.Apply(s.server, v).pipes[k];
            && AnswersKept(s.server.reg, p)
            && forall a :: a in p.emitted ==>
                 || (k in s.server.pipes && a in s.server.pipes[k].emitted)
                 || (v == V.Emit(k) && s.server.pipes[k].writer == Some(a))
  {
    if v.Emit? && v.k == k {
      EmitKeepsAnswers(s.server, k, s.server.pipes[k].writer.value);
    } else if v.Depart? {
      DepartKeepsPipe(s.server, v.k, k);
    } else if v.Accept? {
      assert VT.Frames(s.server.reg, []) == [];
    } else {
      MostStepsLeaveAnswers(s.server, v, k);
    }
  }

  lemma DepartKeepsPipe(s: V.State, j: nat, k: nat)
    requires V.Enabled(s, V.Depart(j)) && k in s.pipes && AnswersKept(s.reg, s.pipes[k])
    ensures var t := V.DepartStep(s, j);
            k in t.pipes && AnswersKept(s.reg, t.pipes[k]) && t.pipes[k].emitted == s.pipes[k].emitted
  {
  }

  lemma StepKeepsAnswers(s: State, v: V.Action, k: nat)
    requires VI.Inv(s.server) && AnswersOk(s.server, k) && VT.BufferOk(s.server, k) && V.Enabled(s.server, v)
    requires v.Emit? ==> CanEmit(s, v.k)
    ensures AnswersOk(V.Apply(s.server, v), k)
  {
    var t := V.Apply(s.server, v);
    VT.StepKeepsRegistry(s.server, v);
    if k in t.pipes {
      StepKeepsPipe(s, v, k);
      forall a | a in t.pipes[k].emitted ensures AckOk(t, a) {
        if v == V.Emit(k) && s.server.pipes[k].writer == Some(a) { WriterIsOk(s, k); }
        AckStaysOk(s.server, v, a);
      }
    }
  }

  lemma WriterIsOk(s: State, k: nat)
    requires VI.Inv(s.server) && CanEmit(s, k)
    ensures AckOk(s.server, s.server.pipes[k].writer.value)
  {
    assert VI.RepliesOk(s.server, k) && VI.Returns(s.server, k, s.server.pipes[k].writer.value, V.AtWriter);
  }

  // ---- Every reachable state -----------------------------------------------------------------

  ghost predicate BytesOk(s: State)
  {
    && (forall k {:trigger RequestsOk(s, k)} :: RequestsOk(s, k))
    && (forall k {:trigger AnswersOk(s.server, k)} :: AnswersOk(s.server, k))
  }

  lemma InitialBytesOk(s: State)
    requires Init(s)
    ensures BytesOk(s)
  {
    assert Wires([]) == [] && NEW_OUTBOX.sent[..0] == [];
  }

  lemma StepKeepsBytes(s: State, a: Action)
    requires Opened(s) && Inv(s) && BytesOk(s) && Enabled(s, a) && Apply(s, a).lost == {}
    requires forall k {:trigger VT.BufferOk(s.server, k)} :: VT.BufferOk(s.server, k)
    ensures BytesOk(Apply(s, a))
  {
    var t := Apply(s, a);
    LostStaysLost(s, a);
    ServerStepsAlone(s, a);
    forall k ensures RequestsOk(t, k) {
      assert RequestsOk(s, k);
      StepKeepsRequests(s, a, k);
    }
    forall k ensures AnswersOk(t.server, k) {
      assert AnswersOk(s.server, k) && VT.BufferOk(s.server, k);
      if ServerPart(s, a).Some? { StepKeepsAnswers(s, ServerPart(s, a).value, k); }
    }
  }

  /** What holds in every reachable state; some of it only as long as no stream is lost. */
  ghost predicate Sound(s: State)
  {
    && ServerSound(s)
    && (s.lost == {} ==> Inv(s) && BytesOk(s))
  }

  ghost predicate ServerSound(s: State)
  {
    && Opened(s) && VI.Inv(s.server) && s.server.reg.Valid()
    && (forall k {:trigger VT.BufferOk(s.server, k)} :: VT.BufferOk(s.server, k))
  }

  lemma StepKeepsSound(s: State, a: Action)
    requires Sound(s) && Enabled(s, a)
    ensures Sound(Apply(s, a))
  {
    ServerStepKeepsAll(s, a);
    if Apply(s, a).lost == {} {
      LostStaysLost(s, a);
      StepKeepsInv(s, a);
      StepKeepsBytes(s, a);
    }
  }

  lemma InitialSound(s: State)
    requires Init(s)
    ensures Sound(s)
  {
    InitialInv(s);
    InitialBytesOk(s);
  }

  lemma {:induction false} ReachableSound(states: seq<State>, actions: seq<Action>, i: nat)
    requires IsRun(states, actions) && i < |states|
    ensures Sound(states[i])
  {
    if i == 0 {
      InitialSound(states[0]);
    } else {
      ReachableSound(states, actions, i - 1);
      StepKeepsSound(states[i - 1], actions[i - 1]);
    }
  }

  /** On each connection the server decodes just the packets that its reader takes. */
  lemma ReachableWireIsPackets(states: seq<State>, actions: seq<Action>, i: nat, k: nat)
    requires IsRun(states, actions) && i < |states| && states[i].lost == {}
    ensures var s := states[i];
            s.server.reg.Valid() && WireReadsAs(s.server.reg, s.OutboxOf(k), s.server.PipeOf(k).reqs)
  {
    ReachableSound(states, actions, i);
    assert RequestsOk(states[i], k);
    LineReadsAs(states[i].server.reg, states[i].OutboxOf(k), states[i].server.PipeOf(k).reqs);
  }

  /** The bytes on the wire to the client: the frames up to the last one that was flushed. */
  function AnswerWire(reg: Registry, p: V.Pipe): bytes
    requires p.flushed <= |p.outs| <= |p.emitted|
  {
    Sent(FRESH, VT.Frames(reg, p.emitted[..|p.emitted| - |p.outs| + p.flushed]))
  }

  /** What the client's decoder makes of them: all answers flushed, as they arrive, with nothing left
      over; and the last ones, which its reader has not taken yet, are the replies that it will be
      handed. */
  predicate AnswersReadAs(reg: Registry, p: V.Pipe)
    requires reg.Valid() && p.flushed <= |p.outs| <= |p.emitted|
  {
    var read := ResponsesIn(reg, [], AnswerWire(reg, p));
    AreRead(reg, p.emitted, |p.emitted| - |p.outs| + p.flushed, read) && AreHanded(reg, p, read.messages)
  }

  predicate AreRead(reg: Registry, acks: seq<V.Ack>, n: nat, read: Replies)
    requires n <= |acks|
  {
    && read.left == [] && |read.messages| == n
    && forall i :: 0 <= i < n ==> read.messages[i] == ResponseArrives(reg, WireOfAck(acks[i]))
  }

  predicate AreHanded(reg: Registry, p: V.Pipe, messages: seq<WireResponse>)
    requires p.flushed <= |p.outs| <= |p.emitted| && |messages| == |p.emitted| - |p.outs| + p.flushed
  {
    forall j :: 0 <= j < p.flushed ==> IsHanded(reg, p.outs[j], messages[|p.emitted| - |p.outs| + j])
  }

  /** What the client's reader passes on of a message. */
  predicate IsHanded(reg: Registry, a: V.Ack, w: WireResponse)
  {
    w.ID == a.id && Reply(Some(Response(w.Headers, w.Body)), w.Error) == ArrivingReply(reg, a.reply)
  }

  function AnswerOf(s: V.State, a: V.Ack): Answer
  {
    Answer(a.id, if a.call in s.tickets && |s.tickets[a.call].runs| == 1 then s.tickets[a.call].runs[0].end
        else Returned(None))
  }

  function AnswersOf(s: V.State, acks: seq<V.Ack>): (answers: seq<Answer>)
    ensures |answers| == |acks|
  {
    seq(|acks|, i requires 0 <= i < |acks| => AnswerOf(s, acks[i]))
  }

  lemma AckIsAnswer(s: V.State, a: V.Ack)
    requires AckOk(s, a)
    ensures ReplyOf(AnswerOf(s, a).end) == a.reply && FineAnswer(s.reg, AnswerOf(s, a))
    ensures AnswerFrameOf(s.reg, AnswerOf(s, a)) == V.FrameOf(s.reg, a)
  {
  }

  lemma AcksAreAnswers(s: V.State, acks: seq<V.Ack>)
    requires forall a :: a in acks ==> AckOk(s, a)
    ensures AnswerFrames(s.reg, AnswersOf(s, acks)) == VT.Frames(s.reg, acks)
    ensures forall x :: x in AnswersOf(s, acks) ==> FineAnswer(s.reg, x)
    ensures forall i :: 0 <= i < |acks| ==>
              WireOf(AnswersOf(s, acks)[i].id, ReplyOf(AnswersOf(s, acks)[i].end)) == WireOfAck(acks[i])
  {
    forall i | 0 <= i < |acks|
      ensures AnswerFrameOf(s.reg, AnswersOf(s, acks)[i]) == V.FrameOf(s.reg, acks[i])
      ensures FineAnswer(s.reg, AnswersOf(s, acks)[i])
      ensures WireOf(AnswersOf(s, acks)[i].id, ReplyOf(AnswersOf(s, acks)[i].end)) == WireOfAck(acks[i])
    {
      assert acks[i] in acks;
      AckIsAnswer(s, acks[i]);
    }
  }

  lemma AcksRead(s: V.State, acks: seq<V.Ack>)
    requires s.reg.Valid() && AllKept(FRESH, VT.Frames(s.reg, acks)) && forall a :: a in acks ==> AckOk(s, a)
    ensures AreRead(s.reg, acks, |acks|, ResponsesIn(s.reg, [], Sent(FRESH, VT.Frames(s.reg, acks))))
  {
    AcksAreAnswers(s, acks);
    Connections.PrefixIsWhole(s.reg, AnswersOf(s, acks));
    ResponseStreamRoundTrip(s.reg, AnswersOf(s, acks));
  }

  lemma PipeReadsAs(s: V.State, k: nat)
    requires s.reg.Valid() && k in s.pipes && AnswersOk(s, k)
    ensures AnswersReadAs(s.reg, s.pipes[k])
  {
    EmittedReadAs(s, s.pipes[k]);
  }

  lemma EmittedReadAs(s: V.State, p: V.Pipe)
    requires s.reg.Valid() && AnswersKept(s.reg, p) && forall a :: a in p.emitted ==> AckOk(s, a)
    ensures AnswersReadAs(s.reg, p)
  {
    WireIsRead(s, p);
    ReadIsHanded(s.reg, p);
  }

  lemma WireIsRead(s: V.State, p: V.Pipe)
    requires s.reg.Valid() && AllKept(FRESH, VT.Frames(s.reg, p.emitted)) && forall a :: a in p.emitted ==> AckOk(s, a)
    requires p.flushed <= |p.outs| <= |p.emitted|
    ensures AreRead(s.reg, p.emitted, |p.emitted| - |p.outs| + p.flushed, ResponsesIn(s.reg, [], AnswerWire(s.reg, p)))
  {
    var n := |p.emitted| - |p.outs| + p.flushed;
    var acks := p.emitted[..n];
    forall a | a in acks ensures AckOk(s, a) { assert a in p.emitted; }
    assert VT.Frames(s.reg, acks) == VT.Frames(s.reg, p.emitted)[..n];
    Connections.KeptPrefix(FRESH, VT.Frames(s.reg, p.emitted), n);
    AcksRead(s, acks);
  }

  lemma ReadIsHanded(reg: Registry, p: V.Pipe)
    requires reg.Valid()
    requires p.flushed <= |p.outs| <= |p.emitted| && p.outs == p.emitted[|p.emitted| - |p.outs|..]
    requires AreRead(reg, p.emitted, |p.emitted| - |p.outs| + p.flushed, ResponsesIn(reg, [], AnswerWire(reg, p)))
    ensures AnswersReadAs(reg, p)
  {
    LastAreHanded(reg, p, ResponsesIn(reg, [], AnswerWire(reg, p)));
  }

  lemma HandedAsItArrives(reg: Registry, a: V.Ack)
    ensures IsHanded(reg, a, ResponseArrives(reg, WireOfAck(a)))
  {
  }

  lemma LastAreHanded(reg: Registry, p: V.Pipe, read: Replies)
    requires p.flushed <= |p.outs| <= |p.emitted| && p.outs == p.emitted[|p.emitted| - |p.outs|..]
    requires AreRead(reg, p.emitted, |p.emitted| - |p.outs| + p.flushed, read)
    ensures AreHanded(reg, p, read.messages)
  {
    forall j | 0 <= j < p.flushed ensures IsHanded(reg, p.outs[j], read.messages[|p.emitted| - |p.outs| + j]) {
      assert p.outs[j] == p.emitted[|p.emitted| - |p.outs| + j];
      HandedAsItArrives(reg, p.outs[j]);
    }
  }

  /** And on each connection the client decodes just the replies that its reader is handed. */
  lemma ReachableWireIsReplies(states: seq<State>, actions: seq<Action>, i: nat, k: nat)
    requires IsRun(states, actions) && i < |states| && states[i].lost == {} && k in states[i].server.pipes
    ensures var v := states[i].server;
            && v.reg.Valid() && v.pipes[k].flushed <= |v.pipes[k].outs| <= |v.pipes[k].emitted|
            && AnswersReadAs(v.reg, v.pipes[k])
  {
    ReachableSound(states, actions, i);
    assert AnswersOk(states[i].server, k);
    PipeReadsAs(states[i].server, k);
  }
}
