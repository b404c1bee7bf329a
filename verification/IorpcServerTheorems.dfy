/** What of a connection's answers is on the wire, and how the tokens come back. */
module IorpcServerTheorems {
  import opened Messages
  import opened MessageIds
  import opened IorpcServer
  import opened IorpcServerInv
  import WireFormat
  import Framing
  import opened Runs

  // ---- The buffer of a writer --------------------------------------------------------------

  function Frames(reg: WireFormat.Registry, acks: seq<Ack>): (fs: seq<Framing.Frame>)
    ensures |fs| == |acks|
  {
    seq(|acks|, i requires 0 <= i < |acks| => FrameOf(reg, acks[i]))
  }

  /** As long as the writer runs, what waits in its buffer are the answers encoded since the last
      one that flushed. */
  predicate BufferOk(s: State, k: ConnId)
  {
    k in s.pipes ==>
      var p := s.pipes[k];
      (p.writer.Some? ==> p.writing) && (p.writing ==> Buffers(s.reg, p))
  }

  predicate Buffers(reg: WireFormat.Registry, p: Pipe)
  {
    var fs := Frames(reg, p.emitted);
    && p.flushed <= |p.outs| <= |p.emitted| && p.outs == p.emitted[|p.emitted| - |p.outs|..]
    && p.buf == Framing.After(Framing.FRESH, fs)
    && |p.outs| - p.flushed == |p.emitted| - Framing.OnWire(0, fs)
  }

  /** The writer's side of a connection is as it was, or the writer has ended. */
  predicate SameBuffer(p: Pipe, q: Pipe)
  {
    && (q.writer.Some? ==> q.writing || (p.writer.Some? && !p.writing))
    && (q.writing ==>
          p.writing && q.outs == p.outs && q.flushed == p.flushed && q.buf == p.buf && q.emitted == p.emitted)
  }

  lemma MostStepsLeaveBuffers(s: State, a: Action, k: ConnId)
    requires Enabled(s, a) && !a.Emit? && !a.Depart? && !a.Accept? && k in Apply(s, a).pipes
    requires a.Post? ==> s.serving[a.c].conn in s.pipes
    ensures k in s.pipes && SameBuffer(s.pipes[k], Apply(s, a).pipes[k]) && Apply(s, a).reg == s.reg
  {
  }

  lemma StepKeepsRegistry(s: State, a: Action)
    requires Enabled(s, a)
    ensures Apply(s, a).reg == s.reg
  {
  }

  lemma StepKeepsBuffer(s: State, a: Action, k: ConnId)
    requires Inv(s) && BufferOk(s, k) && Enabled(s, a)
    ensures BufferOk(Apply(s, a), k)
  {
    if a.Emit? && a.k == k {
      EmitKeepsBuffer(s, k, s.pipes[k].writer.value);
    } else if a.Depart? {
      DepartKeepsBuffer(s, a.k, k);
    } else if a.Accept? {
      assert Frames(s.reg, []) == [];
    } else if !a.Emit? && k in Apply(s, a).pipes {
      assert a.Post? ==> ServingOk(s, a.c);
      MostStepsLeaveBuffers(s, a, k);
    }
  }

  lemma DepartKeepsBuffer(s: State, j: ConnId, k: ConnId)
    requires BufferOk(s, k) && Enabled(s, Depart(j))
    ensures BufferOk(DepartStep(s, j), k)
  {
  }

  lemma EmitKeepsBuffer(s: State, k: ConnId, a: Ack)
    requires BufferOk(s, k) && k in s.pipes && s.pipes[k].writing
    ensures BufferOk(EmitStep(s, k, a), k)
  {
    var p := s.pipes[k];
    var fs := Frames(s.reg, p.emitted);
    assert Frames(s.reg, p.emitted + [a]) == fs + [FrameOf(s.reg, a)];
    Framing.OneFrameMore(Framing.FRESH, fs, FrameOf(s.reg, a));
    assert Framing.OnWire(0, fs) <= |fs|;
    assert (p.emitted + [a])[|p.emitted| - |p.outs|..] == p.emitted[|p.emitted| - |p.outs|..] + [a];
  }

  /** Nothing is left in the buffer exactly when nothing was encoded or the last answer has a body
      or filled it. */
  lemma AllFlushedExactlyWhen(s: State, k: ConnId)
    requires BufferOk(s, k) && k in s.pipes && s.pipes[k].writing
    ensures var p := s.pipes[k];
            var n := |p.emitted| - 1;
            p.flushed == |p.outs| <==>
              n < 0 || Framing.Flushes(Framing.After(Framing.FRESH, Frames(s.reg, p.emitted[..n])).len,
                  FrameOf(s.reg, p.emitted[n]))
  {
    var p := s.pipes[k];
    if p.emitted != [] {
      var n, fs := |p.emitted| - 1, Frames(s.reg, p.emitted);
      assert Frames(s.reg, p.emitted[..n]) == fs[..n];
      Framing.AllOnWireExactlyWhen(Framing.FRESH, fs);
    }
  }

  // ---- Draining ------------------------------------------------------------------------------

  /** What a step of the server makes of a state. */
  predicate Step(s: State, a: Action, t: State) { Enabled(s, a) && t == Apply(s, a) }

  predicate AllClosed(s: State) { forall k :: k in s.pipes ==> !s.pipes[k].open }

  /** The next step of a goroutine: the handler ends, the answer is dropped as the connection is
      closed, or the token is given back. */
  function Onward(s: State, c: CallId): Action
    requires c in s.serving
  {
    match s.serving[c].work
    case Handling => Handle(c, Returned(None))
    case Answering(_) => Drop(c)
    case Finishing => Release(c)
  }

  function Remaining(w: Work): nat { match w case Handling => 3 case Answering(_) => 2 case Finishing => 1 }

  /** A goroutine on a closed connection runs to its end, and gives its token back. */
  lemma {:induction false} GoroutineEnds(s: State, c: CallId) returns (actions: seq<Action>, t: State)
    requires Inv(s) && AllClosed(s) && c in s.serving
    ensures Leads(Step, s, actions, t) && Inv(t) && AllClosed(t)
    ensures t.serving.Keys == s.serving.Keys - {c} && Spawners(t) == Spawners(s)
    decreases Remaining(s.serving[c].work)
  {
    var a := Onward(s, c);
    assert ServingOk(s, c);
    var u := Apply(s, a);
    StepKeepsInv(s, a);
    assert u.pipes == s.pipes;
    if a.Release? {
      actions, t := [a], u;
      StepFirst(Step, s, a, u, [], u);
    } else {
      assert u.serving.Keys == s.serving.Keys;
      actions, t := GoroutineEnds(u, c);
      StepFirst(Step, s, a, u, actions, t);
      actions := [a] + actions;
    }
  }

  lemma SpawningGoesOn(s: State, k: ConnId)
    requires Inv(s) && AllClosed(s) && k in Spawners(s)
    ensures Enabled(s, Spawn(k))
    ensures var t := Apply(s, Spawn(k)); Inv(t) && AllClosed(t) && |Spawners(t)| < |Spawners(s)|
  {
    StepKeepsInv(s, Spawn(k));
    assert Spawners(Apply(s, Spawn(k))) == Spawners(s) - {k};
  }

  /** When all connections are closed, every token comes back: some steps of the server's own lead
      to a state in which none is in use. */
  lemma {:induction false} TokensDrain(s: State) returns (actions: seq<Action>, t: State)
    requires Inv(s) && AllClosed(s)
    ensures Leads(Step, s, actions, t) && t.tokens == 0 && t.serving == map[]
    decreases |Spawners(s)|, |s.serving.Keys|
  {
    if Spawners(s) != {} {
      var k :| k in Spawners(s);
      SpawningGoesOn(s, k);
      actions, t := TokensDrain(Apply(s, Spawn(k)));
      StepFirst(Step, s, Spawn(k), Apply(s, Spawn(k)), actions, t);
      actions := [Spawn(k)] + actions;
    } else if s.serving.Keys != {} {
      var c :| c in s.serving.Keys;
      var first, u := GoroutineEnds(s, c);
      assert |u.serving.Keys| < |s.serving.Keys|;
      actions, t := TokensDrain(u);
      LeadsOn(Step, s, first, u, actions, t);
      actions := first + actions;
    } else {
      actions, t := [], s;
    }
  }
}
