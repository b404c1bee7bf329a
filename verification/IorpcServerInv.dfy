/** What every step of the server keeps. Three groups of statements: about each connection,
    that whatever its stream, reader, channel, writer and stream back hold is where the history
    of the request says it is (PipesOk); about each goroutine and each request, that the handler
    has run at most once, on that request, and that the reply on its way is what the handler
    ended in (WorkOk); and about the tokens (TokensOk). There is one lemma a step, or two where
    one would be too much. Each of them first says what holds of the request that the step
    moves, and then goes through the elements one by one: a step touches one connection and one
    request and leaves the others as they were. */
module IorpcServerInv {
  import opened Messages
  import opened MessageIds
  import opened IorpcServer

  /** The packet is where its history says, and the handler has not seen it. */
  predicate Travels(s: State, k: ConnId, p: Packet, stage: Stage)
  {
    p.call in s.tickets && s.tickets[p.call] == Ticket(k, p.id, p.req, stage, [])
  }

  /** The reply answers the packet that its history belongs to: the handler ran once, on
      that packet's request, and ended in what is being sent. */
  predicate Answers(ticket: Ticket, reply: Reply)
  {
    |ticket.runs| == 1 && ticket.runs[0].req == ticket.req && ReplyOf(ticket.runs[0].end) == reply
  }

  predicate Returns(s: State, k: ConnId, a: Ack, stage: Stage)
  {
    && a.call in s.tickets
    && var t := s.tickets[a.call];
    && t.conn == k && t.id == a.id && t.stage == stage && a.id != 0 && Answers(t, a.reply)
  }

  predicate Apart(s: seq<Ack>) { forall i, j :: 0 <= i < j < |s| ==> s[i].call != s[j].call }

  predicate PacketsOk(s: State, k: ConnId)
  {
    k in s.pipes ==>
      var p := s.pipes[k];
      && (forall i :: 0 <= i < |p.reqs| ==> Travels(s, k, p.reqs[i], OnWire))
      && (forall i, j :: 0 <= i < j < |p.reqs| ==> p.reqs[i].call != p.reqs[j].call)
      && (p.reader.SRead? || p.reader.SSpawning? ==> Travels(s, k, p.reader.packet, AtReader))
  }

  predicate RepliesOk(s: State, k: ConnId)
  {
    k in s.pipes ==>
      var p := s.pipes[k];
      && |p.replies| <= s.backlog
      && Apart(p.replies) && (forall i :: 0 <= i < |p.replies| ==> Returns(s, k, p.replies[i], InChannel))
      && (p.writer.Some? ==> Returns(s, k, p.writer.value, AtWriter))
  }

  predicate OutsOk(s: State, k: ConnId)
  {
    k in s.pipes ==>
      var p := s.pipes[k];
      p.flushed <= |p.outs| && Apart(p.outs) && (forall i :: 0 <= i < |p.outs| ==> Returns(s, k, p.outs[i], Encoded))
  }

  predicate ServingOk(s: State, c: CallId)
  {
    c in s.serving ==>
      && s.serving[c].packet.call == c && c in s.tickets && s.serving[c].conn in s.pipes
      && var v, t := s.serving[c], s.tickets[c];
      && t.conn == v.conn && t.id == v.packet.id && t.req == v.packet.req
      && match v.work
         case Handling => t.stage == AtWorker && t.runs == []
         case Answering(reply) => t.stage == AtWorker && t.id != 0 && Answers(t, reply)
         case Finishing => !t.stage.OnWire? && !t.stage.AtReader?
  }

  /** For each request put on the wire the handler runs at most once, and on that request. */
  predicate TicketOk(s: State, c: CallId)
  {
    c in s.tickets ==> |s.tickets[c].runs| <= 1 && forall r :: r in s.tickets[c].runs ==> r.req == s.tickets[c].req
  }

  // ---- Tokens -------------------------------------------------------------------------

  /** Readers that have taken a token and not yet started the goroutine. */
  function Spawners(s: State): set<ConnId> { set k | k in s.pipes && s.pipes[k].reader.SSpawning? }

  /** Tokens in use, over all connections: one for every goroutine, and one for every reader
      about to start one. */
  predicate TokensOk(s: State)
  {
    0 <= s.tokens <= s.concurrency && s.tokens == |s.serving.Keys| + |Spawners(s)|
  }

  predicate IsSpawner(s: State, k: ConnId) { k in s.pipes && s.pipes[k].reader.SSpawning? }

  lemma PipeChanged(s: State, t: State, k: ConnId, p: Pipe)
    requires t.pipes == s.pipes[k := p]
    ensures |Spawners(t)| == |Spawners(s)| + One(p.reader.SSpawning?) - One(IsSpawner(s, k))
  {
    if p.reader.SSpawning? {
      assert Spawners(t) == Spawners(s) + {k};
    } else {
      assert Spawners(t) == Spawners(s) - {k};
    }
    assert IsSpawner(s, k) <==> k in Spawners(s);
  }

  lemma TokensAfter(s: State, t: State, k: ConnId, c: CallId)
    requires TokensOk(s) && t.concurrency == s.concurrency && t.tokens <= t.concurrency
    requires t.pipes == s.pipes || (k in t.pipes && t.pipes == s.pipes[k := t.pipes[k]])
    requires t.serving.Keys == s.serving.Keys || t.serving.Keys == s.serving.Keys + {c}
               || t.serving.Keys == s.serving.Keys - {c}
    requires t.tokens - s.tokens
          == One(IsSpawner(t, k)) - One(IsSpawner(s, k)) + One(c in t.serving) - One(c in s.serving)
    ensures TokensOk(t)
  {
    if t.pipes != s.pipes { PipeChanged(s, t, k, t.pipes[k]); }
    if c in t.serving && c !in s.serving { assert t.serving.Keys == s.serving.Keys + {c}; }
    if c !in t.serving && c in s.serving { assert t.serving.Keys == s.serving.Keys - {c}; }
    if c in t.serving <==> c in s.serving { assert t.serving.Keys == s.serving.Keys; }
  }

  ghost predicate PipesOk(s: State)
  {
    && (forall k {:trigger PacketsOk(s, k)} :: PacketsOk(s, k))
    && (forall k {:trigger RepliesOk(s, k)} :: RepliesOk(s, k))
    && (forall k {:trigger OutsOk(s, k)} :: OutsOk(s, k))
  }

  ghost predicate WorkOk(s: State)
  {
    && (forall c {:trigger ServingOk(s, c)} :: ServingOk(s, c))
    && (forall c {:trigger TicketOk(s, c)} :: TicketOk(s, c))
  }

  ghost predicate Inv(s: State) { PipesOk(s) && WorkOk(s) && TokensOk(s) }

  // ---- One lemma a step ------------------------------------------------------------------

  lemma AcceptKeepsInv(s: State, k: ConnId)
    requires Inv(s)
    requires k !in s.pipes
    ensures Inv(WithPipe(s, k, NEW_PIPE))
  {
    var t := WithPipe(s, k, NEW_PIPE);
    TokensAfter(s, t, k, 0);
    forall k' ensures PacketsOk(t, k') { assert PacketsOk(s, k'); }
    forall k' ensures RepliesOk(t, k') { assert RepliesOk(s, k'); }
    forall k' ensures OutsOk(t, k') { assert OutsOk(s, k'); }
    forall c' ensures ServingOk(t, c') { assert ServingOk(s, c'); }
    forall c' ensures TicketOk(t, c') { assert TicketOk(s, c'); }
  }

  lemma ArriveKeepsPipes(s: State, k: ConnId, p: Packet)
    requires Inv(s)
    requires k in s.pipes && p.call !in s.tickets
    ensures PipesOk(ArriveStep(s, k, p))
  {
    assert PacketsOk(s, k);
    assert ServingOk(s, p.call);
    var t := ArriveStep(s, k, p);
    forall k' ensures PacketsOk(t, k') { assert PacketsOk(s, k'); }
    forall k' ensures RepliesOk(t, k') { assert RepliesOk(s, k'); }
    forall k' ensures OutsOk(t, k') { assert OutsOk(s, k'); }
  }

  lemma ArriveKeepsWork(s: State, k: ConnId, p: Packet)
    requires Inv(s)
    requires k in s.pipes && p.call !in s.tickets
    ensures WorkOk(ArriveStep(s, k, p)) && TokensOk(ArriveStep(s, k, p))
  {
    assert PacketsOk(s, k);
    assert ServingOk(s, p.call);
    var t := ArriveStep(s, k, p);
    TokensAfter(s, t, k, 0);
    forall c' ensures ServingOk(t, c') { assert ServingOk(s, c'); }
    forall c' ensures TicketOk(t, c') { assert TicketOk(s, c'); }
  }

  lemma ReadKeepsInv(s: State, k: ConnId)
    requires Inv(s)
    requires k in s.pipes && s.pipes[k].reader.SIdle? && s.pipes[k].reqs != []
    ensures Inv(ReadStep(s, k))
  {
    assert PacketsOk(s, k);
    assert Travels(s, k, s.pipes[k].reqs[0], OnWire);
    assert ServingOk(s, s.pipes[k].reqs[0].call);
    var t := ReadStep(s, k);
    TokensAfter(s, t, k, 0);
    forall k' ensures PacketsOk(t, k') { assert PacketsOk(s, k'); }
    forall k' ensures RepliesOk(t, k') { assert RepliesOk(s, k'); }
    forall k' ensures OutsOk(t, k') { assert OutsOk(s, k'); }
    forall c' ensures ServingOk(t, c') { assert ServingOk(s, c'); }
    forall c' ensures TicketOk(t, c') { assert TicketOk(s, c'); }
  }

  lemma AcquireKeepsInv(s: State, k: ConnId, p: Packet)
    requires Inv(s)
    requires k in s.pipes && s.pipes[k].reader == SRead(p) && s.tokens < s.concurrency
    ensures Inv(AcquireStep(s, k, p))
  {
    assert PacketsOk(s, k);
    var t := AcquireStep(s, k, p);
    TokensAfter(s, t, k, 0);
    forall k' ensures PacketsOk(t, k') { assert PacketsOk(s, k'); }
    forall k' ensures RepliesOk(t, k') { assert RepliesOk(s, k'); }
    forall k' ensures OutsOk(t, k') { assert OutsOk(s, k'); }
    forall c' ensures ServingOk(t, c') { assert ServingOk(s, c'); }
    forall c' ensures TicketOk(t, c') { assert TicketOk(s, c'); }
  }

  lemma SpawnKeepsPipes(s: State, k: ConnId, p: Packet)
    requires Inv(s)
    requires k in s.pipes && s.pipes[k].reader == SSpawning(p)
    ensures PipesOk(SpawnStep(s, k, p))
  {
    assert PacketsOk(s, k);
    assert ServingOk(s, p.call);
    var t := SpawnStep(s, k, p);
    forall k' ensures PacketsOk(t, k') { assert PacketsOk(s, k'); }
    forall k' ensures RepliesOk(t, k') { assert RepliesOk(s, k'); }
    forall k' ensures OutsOk(t, k') { assert OutsOk(s, k'); }
  }

  lemma SpawnKeepsWork(s: State, k: ConnId, p: Packet)
    requires Inv(s)
    requires k in s.pipes && s.pipes[k].reader == SSpawning(p)
    ensures WorkOk(SpawnStep(s, k, p)) && TokensOk(SpawnStep(s, k, p))
  {
    assert PacketsOk(s, k);
    assert ServingOk(s, p.call);
    var t := SpawnStep(s, k, p);
    TokensAfter(s, t, k, p.call);
    forall c' ensures ServingOk(t, c') { assert ServingOk(s, c'); }
    forall c' ensures TicketOk(t, c') { assert TicketOk(s, c'); }
  }

  lemma HandleKeepsInv(s: State, c: CallId, end: HandlerEnd)
    requires Inv(s)
    requires c in s.serving && s.serving[c].work.Handling?
    ensures Inv(HandleStep(s, c, end))
  {
    assert ServingOk(s, c);
    var t := HandleStep(s, c, end);
    TokensAfter(s, t, 0, c);
    forall k' ensures PacketsOk(t, k') { assert PacketsOk(s, k'); }
    forall k' ensures RepliesOk(t, k') { assert RepliesOk(s, k'); }
    forall k' ensures OutsOk(t, k') { assert OutsOk(s, k'); }
    forall c' ensures ServingOk(t, c') { assert ServingOk(s, c'); }
    forall c' ensures TicketOk(t, c') { assert TicketOk(s, c'); }
  }

  lemma PostKeepsPipes(s: State, c: CallId, reply: Reply)
    requires Inv(s)
    requires c in s.serving && s.serving[c].work == Answering(reply)
    requires |s.PipeOf(s.serving[c].conn).replies| < s.backlog
    ensures PipesOk(PostStep(s, c, reply))
  {
    assert ServingOk(s, c);
    assert RepliesOk(s, s.serving[c].conn);
    var t := PostStep(s, c, reply);
    forall k' ensures PacketsOk(t, k') { assert PacketsOk(s, k'); }
    forall k' ensures RepliesOk(t, k') { assert RepliesOk(s, k'); }
    forall k' ensures OutsOk(t, k') { assert OutsOk(s, k'); }
  }

  lemma PostKeepsWork(s: State, c: CallId, reply: Reply)
    requires Inv(s)
    requires c in s.serving && s.serving[c].work == Answering(reply)
    requires |s.PipeOf(s.serving[c].conn).replies| < s.backlog
    ensures WorkOk(PostStep(s, c, reply)) && TokensOk(PostStep(s, c, reply))
  {
    assert ServingOk(s, c);
    assert RepliesOk(s, s.serving[c].conn);
    var t := PostStep(s, c, reply);
    TokensAfter(s, t, s.serving[c].conn, c);
    forall c' ensures ServingOk(t, c') { assert ServingOk(s, c'); }
    forall c' ensures TicketOk(t, c') { assert TicketOk(s, c'); }
  }

  lemma DropKeepsInv(s: State, c: CallId)
    requires Inv(s)
    requires c in s.serving && s.serving[c].work.Answering?
    ensures Inv(DropStep(s, c))
  {
    assert ServingOk(s, c);
    var t := DropStep(s, c);
    TokensAfter(s, t, 0, c);
    forall k' ensures PacketsOk(t, k') { assert PacketsOk(s, k'); }
    forall k' ensures RepliesOk(t, k') { assert RepliesOk(s, k'); }
    forall k' ensures OutsOk(t, k') { assert OutsOk(s, k'); }
    forall c' ensures ServingOk(t, c') { assert ServingOk(s, c'); }
    forall c' ensures TicketOk(t, c') { assert TicketOk(s, c'); }
  }

  lemma ReleaseKeepsInv(s: State, c: CallId)
    requires Inv(s)
    requires c in s.serving && s.serving[c].work.Finishing?
    ensures Inv(ReleaseStep(s, c))
  {
    var t := ReleaseStep(s, c);
    TokensAfter(s, t, 0, c);
    forall k' ensures PacketsOk(t, k') { assert PacketsOk(s, k'); }
    forall k' ensures RepliesOk(t, k') { assert RepliesOk(s, k'); }
    forall k' ensures OutsOk(t, k') { assert OutsOk(s, k'); }
    forall c' ensures ServingOk(t, c') { assert ServingOk(s, c'); }
    forall c' ensures TicketOk(t, c') { assert TicketOk(s, c'); }
  }

  lemma TakeReplyKeepsInv(s: State, k: ConnId)
    requires Inv(s)
    requires k in s.pipes && s.pipes[k].writing && s.pipes[k].writer.None? && s.pipes[k].replies != []
    ensures Inv(TakeReplyStep(s, k))
  {
    assert RepliesOk(s, k);
    assert Returns(s, k, s.pipes[k].replies[0], InChannel);
    assert ServingOk(s, s.pipes[k].replies[0].call);
    var t := TakeReplyStep(s, k);
    TokensAfter(s, t, k, 0);
    forall k' ensures PacketsOk(t, k') { assert PacketsOk(s, k'); }
    forall k' ensures RepliesOk(t, k') { assert RepliesOk(s, k'); }
    forall k' ensures OutsOk(t, k') { assert OutsOk(s, k'); }
    forall c' ensures ServingOk(t, c') { assert ServingOk(s, c'); }
    forall c' ensures TicketOk(t, c') { assert TicketOk(s, c'); }
  }

  lemma EmitKeepsPipes(s: State, k: ConnId, a: Ack)
    requires Inv(s)
    requires k in s.pipes && s.pipes[k].writer == Some(a)
    ensures PipesOk(EmitStep(s, k, a))
  {
    assert RepliesOk(s, k) && OutsOk(s, k);
    assert ServingOk(s, a.call);
    var t := EmitStep(s, k, a);
    forall k' ensures PacketsOk(t, k') { assert PacketsOk(s, k'); }
    forall k' ensures RepliesOk(t, k') { assert RepliesOk(s, k'); }
    forall k' ensures OutsOk(t, k') { assert OutsOk(s, k'); }
  }

  lemma EmitKeepsWork(s: State, k: ConnId, a: Ack)
    requires Inv(s)
    requires k in s.pipes && s.pipes[k].writer == Some(a)
    ensures WorkOk(EmitStep(s, k, a)) && TokensOk(EmitStep(s, k, a))
  {
    assert RepliesOk(s, k) && OutsOk(s, k);
    assert ServingOk(s, a.call);
    var t := EmitStep(s, k, a);
    TokensAfter(s, t, k, 0);
    forall c' ensures ServingOk(t, c') { assert ServingOk(s, c'); }
    forall c' ensures TicketOk(t, c') { assert TicketOk(s, c'); }
  }

  lemma DepartKeepsPipes(s: State, k: ConnId)
    requires Inv(s)
    requires k in s.pipes && s.pipes[k].outs != []
    ensures PipesOk(DepartStep(s, k))
  {
    assert OutsOk(s, k);
    assert Returns(s, k, s.pipes[k].outs[0], Encoded);
    assert ServingOk(s, s.pipes[k].outs[0].call);
    var t := DepartStep(s, k);
    forall k' ensures PacketsOk(t, k') { assert PacketsOk(s, k'); }
    forall k' ensures RepliesOk(t, k') { assert RepliesOk(s, k'); }
    forall k' ensures OutsOk(t, k') { assert OutsOk(s, k'); }
  }

  lemma DepartKeepsWork(s: State, k: ConnId)
    requires Inv(s)
    requires k in s.pipes && s.pipes[k].outs != []
    ensures WorkOk(DepartStep(s, k)) && TokensOk(DepartStep(s, k))
  {
    assert OutsOk(s, k);
    assert Returns(s, k, s.pipes[k].outs[0], Encoded);
    assert ServingOk(s, s.pipes[k].outs[0].call);
    var t := DepartStep(s, k);
    TokensAfter(s, t, k, 0);
    forall c' ensures ServingOk(t, c') { assert ServingOk(s, c'); }
    forall c' ensures TicketOk(t, c') { assert TicketOk(s, c'); }
  }

  lemma CloseKeepsInv(s: State, k: ConnId)
    requires Inv(s)
    requires k in s.pipes
    ensures Inv(WithPipe(s, k, s.pipes[k].(open := false)))
  {
    assert PacketsOk(s, k) && RepliesOk(s, k) && OutsOk(s, k);
    var t := WithPipe(s, k, s.pipes[k].(open := false));
    TokensAfter(s, t, k, 0);
    forall k' ensures PacketsOk(t, k') { assert PacketsOk(s, k'); }
    forall k' ensures RepliesOk(t, k') { assert RepliesOk(s, k'); }
    forall k' ensures OutsOk(t, k') { assert OutsOk(s, k'); }
    forall c' ensures ServingOk(t, c') { assert ServingOk(s, c'); }
    forall c' ensures TicketOk(t, c') { assert TicketOk(s, c'); }
  }

  lemma StopReaderKeepsPipes(s: State, k: ConnId)
    requires Inv(s)
    requires k in s.pipes && (s.pipes[k].reader.SIdle? || s.pipes[k].reader.SRead?)
    ensures PipesOk(StopReaderStep(s, k))
  {
    assert PacketsOk(s, k);
    assert s.pipes[k].reader.SRead? ==> ServingOk(s, s.pipes[k].reader.packet.call);
    var t := StopReaderStep(s, k);
    forall k' ensures PacketsOk(t, k') { assert PacketsOk(s, k'); }
    forall k' ensures RepliesOk(t, k') { assert RepliesOk(s, k'); }
    forall k' ensures OutsOk(t, k') { assert OutsOk(s, k'); }
  }

  lemma StopReaderKeepsWork(s: State, k: ConnId)
    requires Inv(s)
    requires k in s.pipes && (s.pipes[k].reader.SIdle? || s.pipes[k].reader.SRead?)
    ensures WorkOk(StopReaderStep(s, k)) && TokensOk(StopReaderStep(s, k))
  {
    assert PacketsOk(s, k);
    assert s.pipes[k].reader.SRead? ==> ServingOk(s, s.pipes[k].reader.packet.call);
    var t := StopReaderStep(s, k);
    TokensAfter(s, t, k, 0);
    forall c' ensures ServingOk(t, c') { assert ServingOk(s, c'); }
    forall c' ensures TicketOk(t, c') { assert TicketOk(s, c'); }
  }

  lemma StopWriterKeepsPipes(s: State, k: ConnId, partly: bool)
    requires Inv(s)
    requires k in s.pipes && s.pipes[k].writing
    ensures PipesOk(StopWriterStep(s, k, partly))
  {
    assert RepliesOk(s, k) && OutsOk(s, k);
    assert s.pipes[k].writer.Some? ==> ServingOk(s, s.pipes[k].writer.value.call);
    var t := StopWriterStep(s, k, partly);
    forall k' ensures PacketsOk(t, k') { assert PacketsOk(s, k'); }
    forall k' ensures RepliesOk(t, k') { assert RepliesOk(s, k'); }
    forall k' ensures OutsOk(t, k') { assert OutsOk(s, k'); }
  }

  lemma StopWriterKeepsWork(s: State, k: ConnId, partly: bool)
    requires Inv(s)
    requires k in s.pipes && s.pipes[k].writing
    ensures WorkOk(StopWriterStep(s, k, partly)) && TokensOk(StopWriterStep(s, k, partly))
  {
    assert RepliesOk(s, k) && OutsOk(s, k);
    assert s.pipes[k].writer.Some? ==> ServingOk(s, s.pipes[k].writer.value.call);
    var t := StopWriterStep(s, k, partly);
    TokensAfter(s, t, k, 0);
    forall c' ensures ServingOk(t, c') { assert ServingOk(s, c'); }
    forall c' ensures TicketOk(t, c') { assert TicketOk(s, c'); }
  }

  /** Every step of the server keeps the invariant. */
  lemma StepKeepsInv(s: State, a: Action)
    requires Inv(s) && Enabled(s, a)
    ensures Inv(Apply(s, a))
  {
    match a {
      case Accept(k) => AcceptKeepsInv(s, k);
      case Arrive(k, p) => ArriveKeepsPipes(s, k, p); ArriveKeepsWork(s, k, p);
      case Read(k) => ReadKeepsInv(s, k);
      case Acquire(k) => var p := s.pipes[k].reader.packet; AcquireKeepsInv(s, k, p);
      case Spawn(k) => var p := s.pipes[k].reader.packet; SpawnKeepsPipes(s, k, p); SpawnKeepsWork(s, k, p);
      case Handle(c, end) => HandleKeepsInv(s, c, end);
      case Post(c) => var r := s.serving[c].work.reply; PostKeepsPipes(s, c, r); PostKeepsWork(s, c, r);
      case Drop(c) => DropKeepsInv(s, c);
      case Release(c) => ReleaseKeepsInv(s, c);
      case TakeReply(k) => TakeReplyKeepsInv(s, k);
      case Emit(k) => var a := s.pipes[k].writer.value; EmitKeepsPipes(s, k, a); EmitKeepsWork(s, k, a);
      case Depart(k) => DepartKeepsPipes(s, k); DepartKeepsWork(s, k);
      case Close(k) => CloseKeepsInv(s, k);
      case StopReader(k) => StopReaderKeepsPipes(s, k); StopReaderKeepsWork(s, k);
      case StopWriter(k, partly) => StopWriterKeepsPipes(s, k, partly); StopWriterKeepsWork(s, k, partly);
    }
  }
}
