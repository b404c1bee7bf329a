/** Client and server joined by ordered streams: the whole iorpc call protocol. A request or an
    answer is handed over as it arrives when the encoder's buffer is as it is at that moment; when
    its frame cannot be decoded to what was encoded the stream is lost, and from then on the other
    side may read anything. The two sides keep their own invariants; what ties them together is
    Link, as long as no stream is lost: a request on its way is filed under its identifier at the
    client for the call it belongs to, what a reader holds and what a call was completed with is
    what the handler made of that very call, and nobody answers a request that was not sent. Most
    steps of the client only stand by: they touch neither what is filed nor what is on its way. */
module IorpcSystem {
  import opened Messages
  import opened MessageIds
  import WireFormat
  import opened Streams
  import opened Framing
  import C = IorpcClient
  import CI = IorpcClientInv
  import V = IorpcServer
  import VI = IorpcServerInv

  /** The encoder of a client's writer: its buffer, and how many requests are still in there; then
      history: the requests as they were encoded, the bytes made of them, and those on the wire. */
  datatype Outbox = Outbox(buf: Buf, held: nat, sent: seq<V.Packet>, encoded: bytes, wire: bytes)

  const NEW_OUTBOX := Outbox(FRESH, 0, [], [], [])

  /** `lost` are the connections on which a frame went out that cannot be decoded to what was
      encoded. */
  datatype State = State(client: C.State, server: V.State, outboxes: map<nat, Outbox>, lost: set<nat>)
  {
    function OutboxOf(k: nat): Outbox { if k in outboxes then outboxes[k] else NEW_OUTBOX }
  }

  /** Opening a connection, putting a request on the wire and taking a reply off it are
      steps of both sides; all others but the last four belong to one. */
  datatype Action =
    | ClientStep(c: C.Action)
    | ServerStep(v: V.Action)
    | Open(k: nat)
    | Transmit(k: nat)
    | FlushRequests(k: nat)
    | Return(k: nat)
    | LoseRequest(k: nat)
    | LoseAnswer(k: nat)
    | MisreadRequest(k: nat, packet: V.Packet)
    | MisreadAnswer(k: nat, id: MsgId, reply: Reply)

  function WireOfPacket(p: V.Packet): WireFormat.WireRequest { WireFormat.WireRequest(p.id, p.req) }

  function WireOfAck(a: V.Ack): WireFormat.WireResponse { WireOf(a.id, a.reply) }

  /** The packet that a writer is about to encode. */
  function Outgoing(w: C.Writer): V.Packet
    requires w.WSending?
  {
    V.Packet(w.id, w.call, w.req)
  }

  function Encode(reg: WireFormat.Registry, o: Outbox, p: V.Packet): Outbox
  {
    var f := RequestFrameOf(reg, WireOfPacket(p));
    var encoded := o.encoded + f.Sent(Kept(o.buf, f));
    if Flushes(o.buf.len, f) then Outbox(Next(o.buf, f), 0, o.sent + [p], encoded, encoded)
    else Outbox(Next(o.buf, f), o.held + 1, o.sent + [p], encoded, o.wire)
  }

  function Emptied(o: Outbox): Outbox { o.(buf := o.buf.(len := 0), held := 0, wire := o.encoded) }

  /** The packet as the server's reader gets it. */
  function Arriving(reg: WireFormat.Registry, p: V.Packet): V.Packet { p.(req := ArrivingRequest(reg, p.req)) }

  predicate CanTransmit(s: State, k: nat)
  {
    && k in s.client.conns && s.client.conns[k].writer.WSending?
    && RequestGoes(s.server.reg, s.OutboxOf(k).buf, WireOfPacket(Outgoing(s.client.conns[k].writer)))
  }

  predicate CanEmit(s: State, k: nat)
  {
    && k in s.server.pipes && s.server.pipes[k].writer.Some?
    && ResponseGoes(s.server.reg, s.server.pipes[k].buf, WireOfAck(s.server.pipes[k].writer.value))
  }

  /** The flush timer runs off between requests, and a request with a body begins with a flush. */
  predicate CanFlush(s: State, k: nat)
  {
    && k in s.client.conns
    && (s.client.conns[k].writer.WIdle?
        || (s.client.conns[k].writer.WSending? && SentAtOnce(s.client.conns[k].writer.req.Body)))
  }

  /** A request that is transmitted is new to the server, whose history goes by the calls; that can
      only fail when requests were misread. */
  predicate Enabled(s: State, a: Action)
  {
    match a
    case ClientStep(c) => !c.Connect? && !c.Sent? && !c.Receive? && C.Enabled(s.client, c)
    case ServerStep(v) =>
      && !v.Accept? && !v.Arrive? && !v.Depart? && V.Enabled(s.server, v)
      && (v.Emit? ==> CanEmit(s, v.k))
      && (v.Read? ==> v.k in s.lost || s.OutboxOf(v.k).held < |s.server.pipes[v.k].reqs|)
    case Open(k) => k !in s.client.conns && k !in s.server.pipes
    case Transmit(k) => CanTransmit(s, k) && s.client.conns[k].writer.call !in s.server.tickets
    case FlushRequests(k) => CanFlush(s, k)
    case Return(k) =>
      k in s.client.conns && s.client.conns[k].reader.RIdle? && V.Enabled(s.server, V.Depart(k))
    case LoseRequest(k) =>
      && k in s.client.conns && s.client.conns[k].writer.WSending? && Supplied(s.client.conns[k].writer.req.Body)
      && (k in s.lost || !CanTransmit(s, k))
    case LoseAnswer(k) => V.Enabled(s.server, V.Emit(k)) && (k in s.lost || !CanEmit(s, k))
    case MisreadRequest(k, packet) => k in s.lost && V.Enabled(s.server, V.Arrive(k, packet))
    case MisreadAnswer(k, id, reply) => k in s.lost && C.Enabled(s.client, C.Receive(k, id, reply))
  }

  function TransmitStep(s: State, k: nat, p: V.Packet): State
  {
    s.(client := C.WithWriter(s.client, k, C.WIdle),
       server := V.ArriveStep(s.server, k, Arriving(s.server.reg, p)),
       outboxes := s.outboxes[k := Encode(s.server.reg, s.OutboxOf(k), p)])
  }

  function FlushStep(s: State, k: nat): State
  {
    s.(outboxes := s.outboxes[k := Emptied(s.OutboxOf(k))])
  }

  function ReturnStep(s: State, k: nat, ack: V.Ack): State
    requires s.server.PipeOf(k).outs != []
  {
    s.(client := C.ReceiveStep(s.client, k, ack.id, ArrivingReply(s.server.reg, ack.reply)),
       server := V.DepartStep(s.server, k))
  }

  function Apply(s: State, a: Action): State
    requires Enabled(s, a)
  {
    match a
    case ClientStep(c) => s.(client := C.Apply(s.client, c))
    case ServerStep(v) => s.(server := V.Apply(s.server, v))
    case Open(k) => s.(client := C.Apply(s.client, C.Connect(k)), server := V.Apply(s.server, V.Accept(k)))
    case Transmit(k) => TransmitStep(s, k, Outgoing(s.client.conns[k].writer))
    case FlushRequests(k) => FlushStep(s, k)
    case Return(k) => ReturnStep(s, k, s.server.pipes[k].outs[0])
    case LoseRequest(k) =>
      s.(client := C.Apply(s.client, C.Sent(k)), lost := s.lost + {k},
         outboxes := s.outboxes[k := Encode(s.server.reg, s.OutboxOf(k), Outgoing(s.client.conns[k].writer))])
    case LoseAnswer(k) => s.(server := V.Apply(s.server, V.Emit(k)), lost := s.lost + {k})
    case MisreadRequest(k, packet) => s.(server := V.Apply(s.server, V.Arrive(k, packet)))
    case MisreadAnswer(k, id, reply) => s.(client := C.Apply(s.client, C.Receive(k, id, reply)))
  }

  predicate Init(s: State) { C.Init(s.client) && V.Init(s.server) && s.outboxes == map[] && s.lost == {} }

  /** What a step is to the server. */
  function ServerPart(s: State, a: Action): Option<V.Action>
    requires Enabled(s, a)
  {
    match a
    case ServerStep(v) => Some(v)
    case Open(k) => Some(V.Accept(k))
    case Transmit(k) => Some(V.Arrive(k, Arriving(s.server.reg, Outgoing(s.client.conns[k].writer))))
    case Return(k) => Some(V.Depart(k))
    case LoseAnswer(k) => Some(V.Emit(k))
    case MisreadRequest(k, packet) => Some(V.Arrive(k, packet))
    case _ => None
  }

  /** Both sides have the connection. */
  predicate Opened(s: State) { s.client.conns.Keys == s.server.pipes.Keys }

  lemma ServerStepsAlone(s: State, a: Action)
    requires Opened(s) && Enabled(s, a)
    ensures match ServerPart(s, a)
            case None => Apply(s, a).server == s.server
            case Some(v) => V.Enabled(s.server, v) && Apply(s, a).server == V.Apply(s.server, v)
  {
  }

  lemma StepKeepsOpened(s: State, a: Action)
    requires Opened(s) && VI.Inv(s.server) && Enabled(s, a)
    ensures Opened(Apply(s, a))
  {
    if !a.Open? {
      ServerStepsAlone(s, a);
      if ServerPart(s, a).Some? {
        ServerStepKeepsPipes(s.server, ServerPart(s, a).value);
      }
      StepKeepsConns(s, a);
    }
  }

  lemma StepKeepsConns(s: State, a: Action)
    requires Enabled(s, a) && !a.Open?
    ensures Apply(s, a).client.conns.Keys == s.client.conns.Keys
  {
    match a
    case ClientStep(c) => ClientStepKeepsConns(s.client, c);
    case LoseRequest(k) => ClientStepKeepsConns(s.client, C.Sent(k));
    case MisreadAnswer(k, id, reply) => ClientStepKeepsConns(s.client, C.Receive(k, id, reply));
    case _ =>
  }

  lemma ClientStepKeepsConns(s: C.State, c: C.Action)
    requires C.Enabled(s, c) && !c.Connect?
    ensures C.Apply(s, c).conns.Keys == s.conns.Keys
  {
  }

  lemma ServerStepKeepsPipes(s: V.State, v: V.Action)
    requires VI.Inv(s) && V.Enabled(s, v) && !v.Accept?
    ensures V.Apply(s, v).pipes.Keys == s.pipes.Keys
  {
    if v.Post? { assert VI.ServingOk(s, v.c); }
  }

  // ---- The invariant that ties the two sides together ----------------------------------

  /** The call has been filed on the connection under the identifier. */
  predicate FiledAs(c: C.State, k: nat, id: MsgId, call: nat)
  {
    && k in c.conns && id in c.conns[k].pending
    && c.conns[k].pending[id] in c.objs && c.objs[c.conns[k].pending[id]].call == call
  }

  /** The call is this connection's to send, and has not been sent. */
  predicate Unsent(s: State, k: nat, call: nat)
  {
    call in s.client.calls && s.client.calls[call].via == Some(k) && call !in s.server.tickets
  }

  /** The reply is what arrives of what the one run of the handler ended in, and that can arrive. */
  predicate AnswersAs(reg: WireFormat.Registry, ticket: V.Ticket, reply: Reply)
  {
    && |ticket.runs| == 1 && ticket.runs[0].req == ticket.req
    && FineReply(reg, ReplyOf(ticket.runs[0].end)) && reply == ArrivingReply(reg, ReplyOf(ticket.runs[0].end))
  }

  /** The handler ran once for the call, on the call's own request as it arrived, and ended in the
      reply as that arrives. */
  predicate Handled(s: State, call: nat, reply: Reply)
  {
    && call in s.client.calls && call in s.server.tickets
    && s.server.tickets[call].req == ArrivingRequest(s.server.reg, s.client.calls[call].req)
    && AnswersAs(s.server.reg, s.server.tickets[call], reply)
  }

  /** And the reply has come back. */
  predicate Served(s: State, call: nat, reply: Reply)
  {
    Handled(s, call, reply) && s.server.tickets[call].stage.Over?
  }

  /** The writer finds the object in the map under the identifier, and its call has not been
      sent. */
  predicate Waits(s: State, k: nat, o: nat, id: MsgId)
  {
    && k in s.client.conns && id in s.client.conns[k].pending && s.client.conns[k].pending[id] == o
    && o in s.client.objs && Unsent(s, k, s.client.objs[o].call)
  }

  predicate WriterLink(s: State, k: nat)
  {
    k in s.client.conns ==>
      && k in s.server.pipes
      && match s.client.conns[k].writer
         case WRegistered(o, id, _) => Waits(s, k, o, id)
         case WLoading(o, id, filed) => filed ==> Waits(s, k, o, id)
         case WLoaded(o, id, filed, call, req) =>
           filed ==> Waits(s, k, o, id) && call == s.client.objs[o].call && req == s.client.calls[call].req
         case WSending(id, call, req) =>
           Unsent(s, k, call) && req == s.client.calls[call].req && (id != 0 ==> FiledAs(s.client, k, id, call))
         case _ => true
  }

  predicate ReaderLink(s: State, k: nat)
  {
    k in s.client.conns ==>
      match s.client.conns[k].reader
      case RMatched(o, reply) => o in s.client.objs && Served(s, s.client.objs[o].call, reply)
      case RDelivering(o, reply) => o in s.client.objs && Served(s, s.client.objs[o].call, reply)
      case _ => true
  }

  /** A request on its way belongs to a call that is filed under the request's identifier,
      for as long as the connection's reader is there to receive the answer. */
  predicate TicketLink(s: State, call: nat)
  {
    call in s.server.tickets ==>
      var t := s.server.tickets[call];
      && call in s.client.calls && s.client.calls[call].via == Some(t.conn)
      && t.req == ArrivingRequest(s.server.reg, s.client.calls[call].req) && t.conn in s.client.conns
      && FineRequest(s.server.reg, WireFormat.WireRequest(0, s.client.calls[call].req))
      && (t.id != 0 && !t.stage.Over? && !s.client.conns[t.conn].reader.RStopped? ==>
            FiledAs(s.client, t.conn, t.id, call))
  }

  predicate EndLink(s: State, call: nat)
  {
    call in s.client.calls ==>
      forall r :: r in s.client.calls[call].ends && r.Answer? ==> Served(s, call, r.reply)
  }

  /** Answers are encoded only so that they can arrive. */
  predicate OutLink(s: State, k: nat)
  {
    k in s.server.pipes ==>
      forall i :: 0 <= i < |s.server.pipes[k].outs| ==> FineReply(s.server.reg, s.server.pipes[k].outs[i].reply)
  }

  ghost predicate OutLinks(s: State) { forall k {:trigger OutLink(s, k)} :: OutLink(s, k) }
  ghost predicate WriterLinks(s: State) { forall k {:trigger WriterLink(s, k)} :: WriterLink(s, k) }
  ghost predicate ReaderLinks(s: State) { forall k {:trigger ReaderLink(s, k)} :: ReaderLink(s, k) }
  ghost predicate HandLinks(s: State) { WriterLinks(s) && ReaderLinks(s) }

  ghost predicate CallLinks(s: State)
  {
    && (forall c {:trigger TicketLink(s, c)} :: TicketLink(s, c))
    && (forall c {:trigger EndLink(s, c)} :: EndLink(s, c))
  }

  ghost predicate Link(s: State) { HandLinks(s) && CallLinks(s) }

  ghost predicate Inv(s: State) { CI.Inv(s.client) && VI.Inv(s.server) && Link(s) && OutLinks(s) }

  // ---- Steps of the client --------------------------------------------------------------

  /** What a call says about sending and answering it. */
  predicate SameStory(before: C.Call, after: C.Call)
  {
    && after.req == before.req && after.via == before.via && before.ends <= after.ends
    && (forall r :: r in after.ends && r.Answer? ==> r in before.ends)
  }

  predicate SameLoops(before: C.Conn, after: C.Conn)
  {
    && after.pending == before.pending
    && (after.writer == before.writer || !(CI.Filing(after.writer) || after.writer.WSending?))
    && (after.reader == before.reader || after.reader.RIdle? || after.reader.RStopped?
        || (before.reader.RMatched? && after.reader == C.RDelivering(before.reader.obj, before.reader.reply)))
    && (before.reader.RStopped? ==> after.reader.RStopped?)
  }

  predicate CallKept(s: C.State, t: C.State, c: nat)
  {
    if c in s.calls then c in t.calls && SameStory(s.calls[c], t.calls[c]) else c in t.calls ==> t.calls[c].ends == []
  }

  predicate ObjectKept(s: C.State, t: C.State, o: nat)
  {
    o in s.objs && (s.objs[o].loc.Pending? || s.objs[o].loc.Matched?) ==>
      o in t.objs && t.objs[o].call == s.objs[o].call
  }

  predicate ConnKept(s: C.State, t: C.State, k: nat)
  {
    (k in s.conns <==> k in t.conns) && (k in s.conns ==> SameLoops(s.conns[k], t.conns[k]))
  }

  ghost predicate Bystander(s: C.State, t: C.State)
  {
    && (forall c {:trigger CallKept(s, t, c)} :: CallKept(s, t, c))
    && (forall o {:trigger ObjectKept(s, t, o)} :: ObjectKept(s, t, o))
    && (forall k {:trigger ConnKept(s, t, k)} :: ConnKept(s, t, k))
  }

  lemma BeginIsBystander(s: C.State, c: nat, kind: C.Kind, req: Request, o: nat)
    requires CI.Inv(s) && C.Enabled(s, C.Begin(c, kind, req, o))
    ensures Bystander(s, C.BeginStep(s, c, kind, req, o))
  {
    var t := C.BeginStep(s, c, kind, req, o);
    assert CI.ObjOk(s, o);
    forall o' ensures ObjectKept(s, t, o') {}
    forall c' ensures CallKept(s, t, c') {}
    forall k' ensures ConnKept(s, t, k') {}
  }

  lemma EnqueueIsBystander(s: C.State, c: nat)
    requires CI.Inv(s) && (C.InPhase(s, c, C.Offering) || C.InPhase(s, c, C.Retrying))
    ensures Bystander(s, C.Enqueued(s, c))
  {
    var t := C.Enqueued(s, c);
    assert CI.CallOk(s, c);
    forall o' ensures ObjectKept(s, t, o') {}
    forall c' ensures CallKept(s, t, c') {}
    forall k' ensures ConnKept(s, t, k') {}
  }

  lemma RefuseIsBystander(s: C.State, c: nat)
    requires CI.Inv(s) && (C.InPhase(s, c, C.Offering) || C.InPhase(s, c, C.Retrying))
    ensures Bystander(s, C.WithPhase(C.Released(s, s.CallOf(c).obj), c, C.Rejected))
    ensures Bystander(s, C.WithPhase(s, c, C.Evicting))
  {
    var t, u := C.WithPhase(C.Released(s, s.CallOf(c).obj), c, C.Rejected), C.WithPhase(s, c, C.Evicting);
    assert CI.CallOk(s, c);
    forall o' ensures ObjectKept(s, t, o') && ObjectKept(s, u, o') {}
    forall c' ensures CallKept(s, t, c') && CallKept(s, u, c') {}
    forall k' ensures ConnKept(s, t, k') && ConnKept(s, u, k') {}
  }

  lemma EvictIsBystander(s: C.State, c: nat)
    requires CI.Inv(s) && C.InPhase(s, c, C.Evicting)
    ensures Bystander(s, C.EvictStep(s, c))
  {
    var t := C.EvictStep(s, c);
    assert s.queue != [] ==> CI.At(s, s.queue[0], C.Queued);
    forall o' ensures ObjectKept(s, t, o') {}
    forall c' ensures CallKept(s, t, c') {}
    forall k' ensures ConnKept(s, t, k') {}
  }

  lemma DisposeIsBystander(s: C.State, c: nat, v: nat)
    requires CI.Inv(s) && C.InPhase(s, c, C.Disposing(v))
    ensures Bystander(s, C.DisposeStep(s, c, v))
  {
    var t := C.DisposeStep(s, c, v);
    assert CI.CallOk(s, c) && CI.ObjOk(s, v);
    forall o' ensures ObjectKept(s, t, o') {}
    forall c' ensures CallKept(s, t, c') {}
    forall k' ensures ConnKept(s, t, k') {}
  }

  lemma WaiterIsBystander(s: C.State, a: C.Action)
    requires CI.Inv(s) && C.Enabled(s, a)
    requires a.Collect? || a.TimeOut? || a.Cancel?
    ensures Bystander(s, C.Apply(s, a))
  {
    var t := C.Apply(s, a);
    assert CI.CallOk(s, a.c) && CI.ObjOk(s, s.calls[a.c].obj);
    forall o' ensures ObjectKept(s, t, o') {}
    forall c' ensures CallKept(s, t, c') {}
    forall k' ensures ConnKept(s, t, k') {}
  }

  lemma CheckIsBystander(s: C.State, k: nat, o: nat)
    requires CI.Inv(s) && k in s.conns && s.conns[k].writer == C.WTaken(o)
    ensures Bystander(s, C.CheckStep(s, k, o))
  {
    var t := C.CheckStep(s, k, o);
    assert CI.HandsOk(s, k) && CI.ObjOk(s, o);
    forall o' ensures ObjectKept(s, t, o') {}
    forall c' ensures CallKept(s, t, c') {}
    forall k' ensures ConnKept(s, t, k') {}
  }

  lemma LoopIsBystander(s: C.State, a: C.Action)
    requires CI.Inv(s) && C.Enabled(s, a)
    requires a.Take? || a.StopWriter? || a.StopReader? || a.Uncount?
    ensures Bystander(s, C.Apply(s, a))
  {
    var t := C.Apply(s, a);
    assert CI.HandsOk(s, a.k);
    forall o' ensures ObjectKept(s, t, o') {}
    forall c' ensures CallKept(s, t, c') {}
    forall k' ensures ConnKept(s, t, k') {}
  }

  lemma AsideIsBystander(s: C.State, k: nat, w: C.Writer)
    requires CI.Inv(s) && k in s.conns && !CI.Filing(w) && !w.WSending?
    ensures Bystander(s, C.WithWriter(s, k, w))
  {
    var t := C.WithWriter(s, k, w);
    forall o' ensures ObjectKept(s, t, o') {}
    forall c' ensures CallKept(s, t, c') {}
    forall k' ensures ConnKept(s, t, k') {}
  }

  lemma FiledKept(s: C.State, t: C.State, k: nat, id: MsgId, call: nat)
    requires CI.Inv(s) && Bystander(s, t) && FiledAs(s, k, id, call)
    ensures FiledAs(t, k, id, call)
  {
    assert ConnKept(s, t, k) && CI.PendingOk(s, k, id) && ObjectKept(s, t, s.conns[k].pending[id]);
  }

  lemma WaitsKept(s: State, t: State, k: nat, o: nat, id: MsgId)
    requires Inv(s) && t.server == s.server && Bystander(s.client, t.client) && Waits(s, k, o, id)
    ensures Waits(t, k, o, id) && t.client.objs[o].call == s.client.objs[o].call
  {
    assert CallKept(s.client, t.client, s.client.objs[o].call);
    FiledKept(s.client, t.client, k, id, s.client.objs[o].call);
    assert ConnKept(s.client, t.client, k) && ObjectKept(s.client, t.client, o) && CI.PendingOk(s.client, k, id);
  }

  lemma BystanderKeepsWriterLink(s: State, t: State, k: nat)
    requires Inv(s) && t.server == s.server && Bystander(s.client, t.client)
    ensures WriterLink(t, k)
  {
    assert WriterLink(s, k) && ConnKept(s.client, t.client, k);
    if k in s.client.conns {
      match s.client.conns[k].writer
      case WRegistered(o, id, _) => WaitsKept(s, t, k, o, id);
      case WLoading(o, id, filed) => if filed { WaitsKept(s, t, k, o, id); }
      case WLoaded(o, id, filed, call, _) =>
        if filed {
          WaitsKept(s, t, k, o, id);
          assert CallKept(s.client, t.client, call);
        }
      case WSending(id, call, _) =>
        assert CallKept(s.client, t.client, call);
        if id != 0 { FiledKept(s.client, t.client, k, id, call); }
      case _ =>
    }
  }

  lemma BystanderKeepsReaderLink(s: State, t: State, k: nat)
    requires Inv(s) && t.server == s.server && Bystander(s.client, t.client)
    ensures ReaderLink(t, k)
  {
    assert ReaderLink(s, k) && ConnKept(s.client, t.client, k) && CI.HandsOk(s.client, k);
    if k in s.client.conns && (s.client.conns[k].reader.RMatched? || s.client.conns[k].reader.RDelivering?) {
      var o := s.client.conns[k].reader.obj;
      assert ObjectKept(s.client, t.client, o) && CallKept(s.client, t.client, s.client.objs[o].call);
    }
  }

  lemma BystanderKeepsTicketLink(s: State, t: State, c: nat)
    requires Inv(s) && t.server == s.server && Bystander(s.client, t.client)
    ensures TicketLink(t, c)
  {
    assert TicketLink(s, c) && CallKept(s.client, t.client, c);
    if c in s.server.tickets {
      var ticket := s.server.tickets[c];
      assert ConnKept(s.client, t.client, ticket.conn);
      if FiledAs(s.client, ticket.conn, ticket.id, c) { FiledKept(s.client, t.client, ticket.conn, ticket.id, c); }
    }
  }

  /** A step of the client that takes no part in sending or answering. */
  lemma BystanderKeepsLink(s: State, t: State)
    requires Inv(s) && t.server == s.server && Bystander(s.client, t.client)
    ensures Link(t)
  {
    forall k ensures WriterLink(t, k) && ReaderLink(t, k) {
      BystanderKeepsWriterLink(s, t, k);
      BystanderKeepsReaderLink(s, t, k);
    }
    forall c ensures TicketLink(t, c) && EndLink(t, c) {
      BystanderKeepsTicketLink(s, t, c);
      assert EndLink(s, c) && CallKept(s.client, t.client, c);
    }
  }

  // ---- Steps of the client that send or answer -------------------------------------------

  lemma FileKeepsHands(s: State, k: nat, o: nat)
    requires Inv(s) && k in s.client.conns && s.client.conns[k].writer == C.WReady(o)
    requires s.client.Object(o).tracked && |s.client.conns[k].pending.Keys| < ID_SPACE
    ensures HandLinks(s.(client := C.FileStep(s.client, k, o)))
  {
    var t := s.(client := C.FileStep(s.client, k, o));
    assert CI.HandsOk(s.client, k) && CI.ObjOk(s.client, o);
    NextIdIsFree(s.client.conns[k].msgID, s.client.conns[k].pending.Keys);
    var call := s.client.objs[o].call;
    assert TicketLink(s, call);
    forall k' ensures WriterLink(t, k') { assert WriterLink(s, k'); }
    forall k' ensures ReaderLink(t, k') { assert ReaderLink(s, k'); }
  }

  lemma FileKeepsCalls(s: State, k: nat, o: nat)
    requires Inv(s) && k in s.client.conns && s.client.conns[k].writer == C.WReady(o)
    requires s.client.Object(o).tracked && |s.client.conns[k].pending.Keys| < ID_SPACE
    ensures CallLinks(s.(client := C.FileStep(s.client, k, o)))
  {
    var t := s.(client := C.FileStep(s.client, k, o));
    assert CI.HandsOk(s.client, k) && CI.ObjOk(s.client, o);
    NextIdIsFree(s.client.conns[k].msgID, s.client.conns[k].pending.Keys);
    var call := s.client.objs[o].call;
    assert TicketLink(s, call);
    forall c ensures TicketLink(t, c) { assert TicketLink(s, c); }
    forall c ensures EndLink(t, c) { assert EndLink(s, c); }
  }

  /** A one-way request is about to be sent, and its object is free again. */
  lemma DetachKeepsWriters(s: State, k: nat, o: nat, id: MsgId, call: nat, req: Request)
    requires Inv(s) && k in s.client.conns && s.client.conns[k].writer == C.WLoaded(o, id, false, call, req)
    ensures WriterLinks(s.(client := C.RetestStep(s.client, k, o, id, call, req)))
  {
    var t := s.(client := C.RetestStep(s.client, k, o, id, call, req));
    assert CI.HandsOk(s.client, k) && CI.ObjOk(s.client, o);
    assert TicketLink(s, call);
    forall k' ensures WriterLink(t, k') { assert WriterLink(s, k'); }
  }

  lemma DetachKeepsReaders(s: State, k: nat, o: nat, id: MsgId, call: nat, req: Request)
    requires Inv(s) && k in s.client.conns && s.client.conns[k].writer == C.WLoaded(o, id, false, call, req)
    ensures ReaderLinks(s.(client := C.RetestStep(s.client, k, o, id, call, req)))
  {
    var t := s.(client := C.RetestStep(s.client, k, o, id, call, req));
    assert CI.HandsOk(s.client, k) && CI.ObjOk(s.client, o);
    assert TicketLink(s, call);
    forall k' ensures ReaderLink(t, k') { assert ReaderLink(s, k'); }
  }

  lemma DetachKeepsCalls(s: State, k: nat, o: nat, id: MsgId, call: nat, req: Request)
    requires Inv(s) && k in s.client.conns && s.client.conns[k].writer == C.WLoaded(o, id, false, call, req)
    ensures CallLinks(s.(client := C.RetestStep(s.client, k, o, id, call, req)))
  {
    var t := s.(client := C.RetestStep(s.client, k, o, id, call, req));
    assert CI.HandsOk(s.client, k) && CI.ObjOk(s.client, o);
    assert TicketLink(s, call);
    forall c ensures TicketLink(t, c) { assert TicketLink(s, c); }
    forall c ensures EndLink(t, c) { assert EndLink(s, c); }
  }

  /** A filed request is read from its object, or about to be sent. */
  lemma OnwardKeepsHands(s: State, k: nat, w: C.Writer)
    requires Inv(s) && k in s.client.conns && CI.Filing(s.client.conns[k].writer) && (w.WLoaded? || w.WSending?)
    requires CI.Onward(s.client, k, s.client.conns[k].writer, w)
    ensures HandLinks(s.(client := C.WithWriter(s.client, k, w)))
  {
    var t := s.(client := C.WithWriter(s.client, k, w));
    assert WriterLink(s, k);
    assert CI.ObjOk(s.client, s.client.conns[k].writer.obj) && CI.PendingOk(s.client, k, s.client.conns[k].writer.id);
    forall k' ensures WriterLink(t, k') { assert WriterLink(s, k'); }
    forall k' ensures ReaderLink(t, k') { assert ReaderLink(s, k'); }
  }

  lemma OnwardKeepsCalls(s: State, k: nat, w: C.Writer)
    requires Inv(s) && k in s.client.conns && CI.Filing(s.client.conns[k].writer) && (w.WLoaded? || w.WSending?)
    requires CI.Onward(s.client, k, s.client.conns[k].writer, w)
    ensures CallLinks(s.(client := C.WithWriter(s.client, k, w)))
  {
    var t := s.(client := C.WithWriter(s.client, k, w));
    assert WriterLink(s, k);
    assert CI.ObjOk(s.client, s.client.conns[k].writer.obj) && CI.PendingOk(s.client, k, s.client.conns[k].writer.id);
    forall c ensures TicketLink(t, c) { assert TicketLink(s, c); }
    forall c ensures EndLink(t, c) { assert EndLink(s, c); }
  }

  /** The second look at `done` finds a filed object in use: nobody has answered a request that
      was not sent. */
  lemma RetestIsSafe(s: State, k: nat)
    requires Inv(s)
    ensures CI.StillTracked(s.client, C.Retest(k))
  {
    assert WriterLink(s, k);
    if k in s.client.conns && s.client.conns[k].writer.WLoaded? && s.client.conns[k].writer.filed {
      assert CI.PendingOk(s.client, k, s.client.conns[k].writer.id) && CI.ObjOk(s.client, s.client.conns[k].writer.obj);
    }
  }

  lemma CountKeepsLink(s: State, k: nat, o: nat, id: MsgId, before: nat)
    requires Inv(s) && k in s.client.conns && s.client.conns[k].writer == C.WRegistered(o, id, before)
    ensures Link(s.(client := C.CountStep(s.client, k, o, id, before)))
  {
    var t := s.(client := C.CountStep(s.client, k, o, id, before));
    forall k' ensures WriterLink(t, k') { assert WriterLink(s, k'); }
    forall k' ensures ReaderLink(t, k') { assert ReaderLink(s, k'); }
    forall c ensures TicketLink(t, c) { assert TicketLink(s, c); }
    forall c ensures EndLink(t, c) { assert EndLink(s, c); }
  }

  lemma DeliverKeepsWriters(s: State, k: nat, o: nat, reply: Reply)
    requires Inv(s) && k in s.client.conns && s.client.conns[k].reader == C.RDelivering(o, reply)
    ensures WriterLinks(s.(client := C.DeliverStep(s.client, k, o, reply)))
  {
    var t := s.(client := C.DeliverStep(s.client, k, o, reply));
    forall k' ensures WriterLink(t, k') { DeliverKeepsWriter(s, k, o, reply, k'); }
  }

  lemma DeliverKeepsWriter(s: State, k: nat, o: nat, reply: Reply, j: nat)
    requires Inv(s) && k in s.client.conns && s.client.conns[k].reader == C.RDelivering(o, reply)
    ensures WriterLink(s.(client := C.DeliverStep(s.client, k, o, reply)), j)
  {
    assert CI.HandsOk(s.client, k) && CI.ObjOk(s.client, o) && ReaderLink(s, k) && WriterLink(s, j);
  }

  lemma DeliverKeepsReaders(s: State, k: nat, o: nat, reply: Reply)
    requires Inv(s) && k in s.client.conns && s.client.conns[k].reader == C.RDelivering(o, reply)
    ensures ReaderLinks(s.(client := C.DeliverStep(s.client, k, o, reply)))
  {
    var t := s.(client := C.DeliverStep(s.client, k, o, reply));
    assert CI.HandsOk(s.client, k) && CI.ObjOk(s.client, o) && ReaderLink(s, k);
    forall k' ensures ReaderLink(t, k') { assert ReaderLink(s, k'); }
  }

  lemma DeliverKeepsCalls(s: State, k: nat, o: nat, reply: Reply)
    requires Inv(s) && k in s.client.conns && s.client.conns[k].reader == C.RDelivering(o, reply)
    ensures CallLinks(s.(client := C.DeliverStep(s.client, k, o, reply)))
  {
    var t := s.(client := C.DeliverStep(s.client, k, o, reply));
    assert CI.HandsOk(s.client, k) && CI.ObjOk(s.client, o) && ReaderLink(s, k);
    forall c ensures TicketLink(t, c) { assert TicketLink(s, c); }
    forall c ensures EndLink(t, c) { assert EndLink(s, c); }
  }

  lemma CleanUpKeepsHands(s: State, k: nat, id: MsgId, stopping: bool)
    requires Inv(s) && k in s.client.conns && s.client.conns[k].writer.WStopped? && s.client.conns[k].reader.RStopped?
    requires id in s.client.conns[k].pending
    ensures HandLinks(s.(client := C.CleanUpStep(s.client, k, id, stopping)))
  {
    var t := s.(client := C.CleanUpStep(s.client, k, id, stopping));
    assert CI.PendingOk(s.client, k, id) && CI.ObjOk(s.client, s.client.conns[k].pending[id]);
    forall k' ensures WriterLink(t, k') { assert WriterLink(s, k'); }
    forall k' ensures ReaderLink(t, k') { assert ReaderLink(s, k'); }
  }

  lemma CleanUpKeepsCalls(s: State, k: nat, id: MsgId, stopping: bool)
    requires Inv(s) && k in s.client.conns && s.client.conns[k].writer.WStopped? && s.client.conns[k].reader.RStopped?
    requires id in s.client.conns[k].pending
    ensures CallLinks(s.(client := C.CleanUpStep(s.client, k, id, stopping)))
  {
    var t := s.(client := C.CleanUpStep(s.client, k, id, stopping));
    assert CI.PendingOk(s.client, k, id) && CI.ObjOk(s.client, s.client.conns[k].pending[id]);
    forall c ensures TicketLink(t, c) { assert TicketLink(s, c); }
    forall c ensures EndLink(t, c) { assert EndLink(s, c); }
  }

  // ---- Steps of the server ----------------------------------------------------------------

  predicate TicketKept(s: V.State, t: V.State, c: nat)
  {
    && (c in s.tickets <==> c in t.tickets)
    && (c in s.tickets ==>
          var before, after := s.tickets[c], t.tickets[c];
          && after.conn == before.conn && after.id == before.id && after.req == before.req
          && (before.stage.Over? ==> after.stage.Over?)
          && (before.runs != [] ==> after.runs == before.runs))
  }

  lemma ServerKeepsLink(s: State, t: State)
    requires Inv(s) && t.client == s.client && s.server.pipes.Keys <= t.server.pipes.Keys
    requires t.server.reg == s.server.reg
    requires forall c {:trigger TicketKept(s.server, t.server, c)} :: TicketKept(s.server, t.server, c)
    ensures Link(t)
  {
    forall k ensures WriterLink(t, k) {
      assert WriterLink(s, k);
      if k in s.client.conns {
        match s.client.conns[k].writer
        case WRegistered(o, _, _) => assert TicketKept(s.server, t.server, s.client.objs[o].call);
        case WLoading(o, _, filed) => assert filed ==> TicketKept(s.server, t.server, s.client.objs[o].call);
        case WLoaded(_, _, _, call, _) => assert TicketKept(s.server, t.server, call);
        case WSending(_, call, _) => assert TicketKept(s.server, t.server, call);
        case _ =>
      }
    }
    forall k ensures ReaderLink(t, k) {
      assert ReaderLink(s, k);
      if k in s.client.conns && (s.client.conns[k].reader.RMatched? || s.client.conns[k].reader.RDelivering?) {
        assert TicketKept(s.server, t.server, s.client.objs[s.client.conns[k].reader.obj].call);
      }
    }
    forall c ensures TicketLink(t, c) { assert TicketLink(s, c) && TicketKept(s.server, t.server, c); }
    forall c ensures EndLink(t, c) { assert EndLink(s, c) && TicketKept(s.server, t.server, c); }
  }

  lemma RequestSideKeepsTickets(s: V.State, v: V.Action)
    requires VI.Inv(s) && V.Enabled(s, v)
    requires v.Read? || v.Acquire? || v.Spawn? || v.StopReader? || v.Close?
    ensures V.Apply(s, v).pipes.Keys == s.pipes.Keys && V.Apply(s, v).reg == s.reg
    ensures forall c {:trigger TicketKept(s, V.Apply(s, v), c)} :: TicketKept(s, V.Apply(s, v), c)
  {
    var t := V.Apply(s, v);
    assert VI.PacketsOk(s, v.k);
    assert v.Read? ==> VI.Travels(s, v.k, s.pipes[v.k].reqs[0], V.OnWire);
    forall c ensures TicketKept(s, t, c) {}
  }

  lemma WorkerKeepsTickets(s: V.State, v: V.Action)
    requires VI.Inv(s) && V.Enabled(s, v)
    requires v.Handle? || v.Post? || v.Drop? || v.Release?
    ensures V.Apply(s, v).pipes.Keys == s.pipes.Keys && V.Apply(s, v).reg == s.reg
    ensures forall c {:trigger TicketKept(s, V.Apply(s, v), c)} :: TicketKept(s, V.Apply(s, v), c)
  {
    var t := V.Apply(s, v);
    assert VI.ServingOk(s, v.c);
    forall c ensures TicketKept(s, t, c) {}
  }

  lemma ReplySideKeepsTickets(s: V.State, v: V.Action)
    requires VI.Inv(s) && V.Enabled(s, v)
    requires v.TakeReply? || v.Emit? || v.Depart? || v.StopWriter?
    ensures V.Apply(s, v).pipes.Keys == s.pipes.Keys && V.Apply(s, v).reg == s.reg
    ensures forall c {:trigger TicketKept(s, V.Apply(s, v), c)} :: TicketKept(s, V.Apply(s, v), c)
  {
    var t := V.Apply(s, v);
    assert VI.RepliesOk(s, v.k) && VI.OutsOk(s, v.k);
    assert v.TakeReply? ==> VI.Returns(s, v.k, s.pipes[v.k].replies[0], V.InChannel);
    assert v.Depart? ==> VI.Returns(s, v.k, s.pipes[v.k].outs[0], V.Encoded);
    forall c ensures TicketKept(s, t, c) {}
  }

  // ---- Steps of both ---------------------------------------------------------------------

  lemma OpenKeepsLink(s: State, k: nat)
    requires Inv(s) && Enabled(s, Open(k))
    ensures Link(Apply(s, Open(k)))
  {
    var t := Apply(s, Open(k));
    forall k' ensures WriterLink(t, k') { assert WriterLink(s, k'); }
    forall k' ensures ReaderLink(t, k') { assert ReaderLink(s, k'); }
    forall c ensures TicketLink(t, c) { assert TicketLink(s, c); }
    forall c ensures EndLink(t, c) { assert EndLink(s, c); }
  }

  lemma TransmitKeepsWriters(s: State, k: nat, p: V.Packet)
    requires Inv(s) && k in s.client.conns && s.client.conns[k].writer == C.WSending(p.id, p.call, p.req)
    ensures WriterLinks(TransmitStep(s, k, p))
  {
    var t := TransmitStep(s, k, p);
    assert WriterLink(s, k);
    forall k' ensures WriterLink(t, k') { assert WriterLink(s, k'); }
  }

  lemma TransmitKeepsReaders(s: State, k: nat, p: V.Packet)
    requires Inv(s) && k in s.client.conns && s.client.conns[k].writer == C.WSending(p.id, p.call, p.req)
    ensures ReaderLinks(TransmitStep(s, k, p))
  {
    var t := TransmitStep(s, k, p);
    assert WriterLink(s, k);
    forall k' ensures ReaderLink(t, k') { assert ReaderLink(s, k'); }
  }

  lemma TransmitKeepsCalls(s: State, k: nat, p: V.Packet)
    requires Inv(s) && k in s.client.conns && s.client.conns[k].writer == C.WSending(p.id, p.call, p.req)
    requires FineRequest(s.server.reg, WireOfPacket(p))
    ensures CallLinks(TransmitStep(s, k, p))
  {
    var t := TransmitStep(s, k, p);
    assert WriterLink(s, k);
    forall c ensures TicketLink(t, c) { assert TicketLink(s, c); }
    forall c ensures EndLink(t, c) { assert EndLink(s, c); }
  }

  /** An honest server's answer always finds its call: the reader's error about an
      unexpected identifier cannot arise. */
  lemma AnswerFindsItsCall(s: State, k: nat)
    requires Inv(s) && Enabled(s, Return(k))
    ensures var ack := s.server.pipes[k].outs[0];
            FiledAs(s.client, k, ack.id, ack.call) && Handled(s, ack.call, ArrivingReply(s.server.reg, ack.reply))
  {
    var ack := s.server.pipes[k].outs[0];
    assert VI.OutsOk(s.server, k) && VI.Returns(s.server, k, ack, V.Encoded);
    assert TicketLink(s, ack.call) && OutLink(s, k);
  }

  /** The client's half of it: the reply is matched to the call filed under its identifier. */
  lemma ReceiveKeepsHands(s: State, k: nat, id: MsgId, reply: Reply, call: nat)
    requires CI.Inv(s.client) && Link(s) && k in s.client.conns && s.client.conns[k].reader.RIdle?
    requires FiledAs(s.client, k, id, call) && Served(s, call, reply) && id != 0
    requires s.server.tickets[call].conn == k
    ensures HandLinks(s.(client := C.ReceiveStep(s.client, k, id, reply)))
  {
    var t := s.(client := C.ReceiveStep(s.client, k, id, reply));
    assert CI.PendingOk(s.client, k, id);
    forall k' ensures WriterLink(t, k') { assert WriterLink(s, k'); }
    forall k' ensures ReaderLink(t, k') { assert ReaderLink(s, k'); }
  }

  lemma ReceiveKeepsCalls(s: State, k: nat, id: MsgId, reply: Reply, call: nat)
    requires CI.Inv(s.client) && Link(s) && k in s.client.conns && s.client.conns[k].reader.RIdle?
    requires FiledAs(s.client, k, id, call) && Served(s, call, reply) && id != 0
    requires s.server.tickets[call].conn == k
    ensures CallLinks(s.(client := C.ReceiveStep(s.client, k, id, reply)))
  {
    var t := s.(client := C.ReceiveStep(s.client, k, id, reply));
    assert CI.PendingOk(s.client, k, id);
    forall c ensures TicketLink(t, c) { assert TicketLink(s, c); }
    forall c ensures EndLink(t, c) { assert EndLink(s, c); }
  }

  lemma ReturnKeepsLink(s: State, k: nat)
    requires Inv(s) && Enabled(s, Return(k))
    ensures Link(Apply(s, Return(k)))
  {
    var ack := s.server.pipes[k].outs[0];
    var reply := ArrivingReply(s.server.reg, ack.reply);
    var u := s.(server := V.DepartStep(s.server, k));
    AnswerFindsItsCall(s, k);
    ReplySideKeepsTickets(s.server, V.Depart(k));
    assert TicketKept(s.server, u.server, ack.call);
    ServerKeepsLink(s, u);
    assert VI.OutsOk(s.server, k) && VI.Returns(s.server, k, ack, V.Encoded);
    ReceiveKeepsHands(u, k, ack.id, reply, ack.call);
    ReceiveKeepsCalls(u, k, ack.id, reply, ack.call);
  }

  // ---- Every step ------------------------------------------------------------------------

  lemma WriterStepKeepsLink(s: State, c: C.Action)
    requires Inv(s) && Enabled(s, ClientStep(c))
    requires c.Register? || c.Load? || c.Retest?
    ensures Link(Apply(s, ClientStep(c)))
  {
    var w := s.client.conns[c.k].writer;
    match c {
      case Register(k) =>
        if s.client.Object(w.obj).tracked { FileKeepsHands(s, k, w.obj); FileKeepsCalls(s, k, w.obj); }
        else {
          AsideIsBystander(s.client, k, C.WLoading(w.obj, 0, false));
          BystanderKeepsLink(s, Apply(s, ClientStep(c)));
        }
      case Load(k) =>
        var w' := C.WLoaded(w.obj, w.id, w.filed, s.client.Object(w.obj).call, s.client.Object(w.obj).req);
        if w.filed { OnwardKeepsHands(s, k, w'); OnwardKeepsCalls(s, k, w'); }
        else {
          AsideIsBystander(s.client, k, w');
          BystanderKeepsLink(s, Apply(s, ClientStep(c)));
        }
      case Retest(k) =>
        RetestIsSafe(s, k);
        if w.filed {
          OnwardKeepsHands(s, k, C.WSending(w.id, w.call, w.req));
          OnwardKeepsCalls(s, k, C.WSending(w.id, w.call, w.req));
        } else {
          DetachKeepsWriters(s, k, w.obj, w.id, w.call, w.req);
          DetachKeepsReaders(s, k, w.obj, w.id, w.call, w.req);
          DetachKeepsCalls(s, k, w.obj, w.id, w.call, w.req);
        }
    }
  }

  lemma SendingStepKeepsLink(s: State, c: C.Action)
    requires Inv(s) && Enabled(s, ClientStep(c)) && Sending(c)
    ensures Link(Apply(s, ClientStep(c)))
  {
    var conn := s.client.conns[c.k];
    match c {
      case Count(k) => CountKeepsLink(s, k, conn.writer.obj, conn.writer.id, conn.writer.before);
      case Deliver(k) =>
        DeliverKeepsWriters(s, k, conn.reader.obj, conn.reader.reply);
        DeliverKeepsReaders(s, k, conn.reader.obj, conn.reader.reply);
        DeliverKeepsCalls(s, k, conn.reader.obj, conn.reader.reply);
      case CleanUp(k, id, stopping) => CleanUpKeepsHands(s, k, id, stopping); CleanUpKeepsCalls(s, k, id, stopping);
      case _ => WriterStepKeepsLink(s, c);
    }
  }

  predicate Sending(c: C.Action) { c.Register? || c.Load? || c.Retest? || c.Count? || c.Deliver? || c.CleanUp? }

  lemma ClientStepIsBystander(s: C.State, c: C.Action)
    requires CI.Inv(s) && C.Enabled(s, c) && !c.Connect? && !c.Sent? && !c.Receive?
    requires !Sending(c)
    ensures Bystander(s, C.Apply(s, c))
  {
    match c {
      case Begin(call, kind, req, o) => BeginIsBystander(s, call, kind, req, o);
      case Offer(call) => EnqueueIsBystander(s, call); RefuseIsBystander(s, call);
      case Retry(call) => EnqueueIsBystander(s, call); RefuseIsBystander(s, call);
      case Evict(call) => EvictIsBystander(s, call);
      case Dispose(call) => DisposeIsBystander(s, call, s.calls[call].phase.victim);
      case Check(k) => CheckIsBystander(s, k, s.conns[k].writer.obj);
      case _ =>
        if c.Collect? || c.TimeOut? || c.Cancel? { WaiterIsBystander(s, c); } else { LoopIsBystander(s, c); }
    }
  }

  lemma ClientStepKeepsLink(s: State, c: C.Action)
    requires Inv(s) && Enabled(s, ClientStep(c))
    ensures Link(Apply(s, ClientStep(c)))
  {
    if Sending(c) {
      SendingStepKeepsLink(s, c);
    } else {
      ClientStepIsBystander(s.client, c);
      BystanderKeepsLink(s, Apply(s, ClientStep(c)));
    }
  }

  lemma ServerStepKeepsLink(s: State, v: V.Action)
    requires Inv(s) && Enabled(s, ServerStep(v))
    ensures Link(Apply(s, ServerStep(v)))
  {
    if v.Read? || v.Acquire? || v.Spawn? || v.StopReader? || v.Close? { RequestSideKeepsTickets(s.server, v); }
    else if v.Handle? || v.Post? || v.Drop? || v.Release? { WorkerKeepsTickets(s.server, v); }
    else { ReplySideKeepsTickets(s.server, v); }
    ServerKeepsLink(s, Apply(s, ServerStep(v)));
  }

  /** What a step of the server adds to what was encoded. */
  lemma ServerKeepsOuts(s: State, v: V.Action)
    requires OutLinks(s) && V.Enabled(s.server, v) && (v.Emit? ==> CanEmit(s, v.k))
    ensures OutLinks(s.(server := V.Apply(s.server, v)))
  {
    var t := s.(server := V.Apply(s.server, v));
    forall k ensures OutLink(t, k) {
      assert OutLink(s, k);
      if v.Post? { OutsOfPost(s.server, v.c, k); }
    }
  }

  lemma OutsOfPost(s: V.State, c: nat, k: nat)
    requires V.Enabled(s, V.Post(c))
    ensures var t := V.Apply(s, V.Post(c));
            k in t.pipes ==> if k in s.pipes then t.pipes[k].outs == s.pipes[k].outs else t.pipes[k].outs == []
  {
  }

  /** The encoders are not part of the link. */
  lemma SameSidesSameLink(s: State, t: State)
    requires Inv(s) && t.client == s.client && t.server == s.server
    ensures Inv(t)
  {
    forall k ensures WriterLink(t, k) && ReaderLink(t, k) && OutLink(t, k) {
      assert WriterLink(s, k) && ReaderLink(s, k) && OutLink(s, k);
    }
    forall c ensures TicketLink(t, c) && EndLink(t, c) { assert TicketLink(s, c) && EndLink(s, c); }
  }

  lemma SameOuts(s: State, t: State)
    requires OutLinks(s) && t.server == s.server
    ensures OutLinks(t)
  {
    forall k ensures OutLink(t, k) { assert OutLink(s, k); }
  }

  lemma OpenKeepsInv(s: State, k: nat)
    requires Inv(s) && Enabled(s, Open(k))
    ensures Inv(Apply(s, Open(k)))
  {
    CI.StepKeepsInv(s.client, C.Connect(k));
    VI.StepKeepsInv(s.server, V.Accept(k));
    OpenKeepsLink(s, k);
    ServerKeepsOuts(s, V.Accept(k));
    SameOuts(s.(server := V.Apply(s.server, V.Accept(k))), Apply(s, Open(k)));
  }

  lemma TransmitKeepsInv(s: State, k: nat)
    requires Inv(s) && Enabled(s, Transmit(k))
    ensures Inv(Apply(s, Transmit(k)))
  {
    var p := Outgoing(s.client.conns[k].writer);
    assert WriterLink(s, k);
    CI.StepKeepsInv(s.client, C.Sent(k));
    VI.StepKeepsInv(s.server, V.Arrive(k, Arriving(s.server.reg, p)));
    ServerKeepsOuts(s, V.Arrive(k, Arriving(s.server.reg, p)));
    SameOuts(s.(server := V.ArriveStep(s.server, k, Arriving(s.server.reg, p))), TransmitStep(s, k, p));
    TransmitKeepsWriters(s, k, p);
    TransmitKeepsReaders(s, k, p);
    TransmitKeepsCalls(s, k, p);
  }

  lemma ReturnKeepsInv(s: State, k: nat)
    requires Inv(s) && Enabled(s, Return(k))
    ensures Inv(Apply(s, Return(k)))
  {
    var ack := s.server.pipes[k].outs[0];
    CI.StepKeepsInv(s.client, C.Receive(k, ack.id, ArrivingReply(s.server.reg, ack.reply)));
    VI.StepKeepsInv(s.server, V.Depart(k));
    ServerKeepsOuts(s, V.Depart(k));
    SameOuts(s.(server := V.DepartStep(s.server, k)), ReturnStep(s, k, ack));
    ReturnKeepsLink(s, k);
  }

  /** A stream that is lost stays lost. */
  lemma LostStaysLost(s: State, a: Action)
    requires Enabled(s, a)
    ensures s.lost <= Apply(s, a).lost
    ensures Apply(s, a).lost == {} ==>
              s.lost == {} && !(a.LoseRequest? || a.LoseAnswer? || a.MisreadRequest? || a.MisreadAnswer?)
  {
    if a.LoseRequest? || a.LoseAnswer? || a.MisreadRequest? || a.MisreadAnswer? {
      assert a.k in Apply(s, a).lost;
    }
  }

  /** Every step of the whole protocol keeps the invariant, as long as no stream is lost. */
  lemma StepKeepsInv(s: State, a: Action)
    requires Inv(s) && Enabled(s, a) && Apply(s, a).lost == {}
    ensures Inv(Apply(s, a))
  {
    LostStaysLost(s, a);
    match a {
      case ClientStep(c) =>
        if c.Retest? { RetestIsSafe(s, c.k); }
        CI.StepKeepsInv(s.client, c);
        ClientStepKeepsLink(s, c);
        SameOuts(s, Apply(s, a));
      case ServerStep(v) => VI.StepKeepsInv(s.server, v); ServerStepKeepsLink(s, v); ServerKeepsOuts(s, v);
      case Open(k) => OpenKeepsInv(s, k);
      case Transmit(k) => TransmitKeepsInv(s, k);
      case FlushRequests(k) => SameSidesSameLink(s, FlushStep(s, k));
      case Return(k) => ReturnKeepsInv(s, k);
      case _ =>
    }
  }
}
