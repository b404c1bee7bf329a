/** The server side of the iorpc call protocol as a step system: for every connection a
    reader, a bounded channel of responses and a writer; one goroutine for each request that
    is being served; and the tokens in `workersCh` that all connections share. The handler
    may end in any way, and goroutines may overtake each other freely. */
module IorpcServer {
  import opened Messages
  import opened MessageIds
  import WireFormat
  import Streams
  import Framing

  type CallId = nat
  type ConnId = nat

  /** A request on the wire. `call` says whose request it is; no step of the server reads it,
      it only keeps the goroutines apart. */
  datatype Packet = Packet(id: MsgId, call: CallId, req: Request)

  datatype Ack = Ack(id: MsgId, call: CallId, reply: Reply)

  datatype ServerReader = SIdle | SRead(packet: Packet) | SSpawning(packet: Packet) | SStopped

  /** `replies` is responsesChan. `outs` is what the writer has encoded and the client has not
      read: the first `flushed` of it are on the connection, the others still in the encoder's
      buffer, `buf`. `writing` ends with the writer's loop, `open` when stopChan is closed.
      `emitted` is history: all that was ever encoded. */
  datatype Pipe = Pipe(reqs: seq<Packet>, reader: ServerReader, replies: seq<Ack>,
                       writer: Option<Ack>, outs: seq<Ack>, flushed: nat, buf: Framing.Buf,
                       emitted: seq<Ack>, writing: bool, open: bool)

  const NEW_PIPE := Pipe([], SIdle, [], None, [], 0, Framing.FRESH, [], true, true)

  datatype Work = Handling | Answering(reply: Reply) | Finishing

  /** A goroutine running serveRequest. */
  datatype Serving = Serving(conn: ConnId, packet: Packet, work: Work)

  datatype Stage = OnWire | AtReader | AtWorker | InChannel | AtWriter | Encoded | Over

  /** One run of the handler. */
  datatype Run = Run(req: Request, end: HandlerEnd)

  /** The history of a packet that was put on the wire. Recorded for the proofs. */
  datatype Ticket = Ticket(conn: ConnId, id: MsgId, req: Request, stage: Stage, runs: seq<Run>)

  /** `concurrency` is the capacity of workersCh and `tokens` how many tokens are in it;
      `backlog` is the capacity of a channel of responses; `reg` the registered headers. */
  datatype State = State(reg: WireFormat.Registry, concurrency: nat, backlog: nat, pipes: map<ConnId, Pipe>,
                         serving: map<CallId, Serving>, tokens: int, tickets: map<CallId, Ticket>)
  {
    function PipeOf(k: ConnId): Pipe
    {
      if k in pipes then pipes[k] else NEW_PIPE.(reader := SStopped, writing := false, open := false)
    }
    function TicketOf(c: CallId): Ticket
    {
      if c in tickets then tickets[c] else Ticket(0, 0, Request(0, None, NO_BODY), Over, [])
    }
  }

  datatype Action =
    | Accept(k: ConnId)
    | Arrive(k: ConnId, packet: Packet)
    | Read(k: ConnId)
    | Acquire(k: ConnId)
    | Spawn(k: ConnId)
    | Handle(c: CallId, end: HandlerEnd)
    | Post(c: CallId)
    | Drop(c: CallId)
    | Release(c: CallId)
    | TakeReply(k: ConnId)
    | Emit(k: ConnId)
    | Depart(k: ConnId)
    | Close(k: ConnId)
    | StopReader(k: ConnId)
    | StopWriter(k: ConnId, partly: bool)

  function WithPipe(s: State, k: ConnId, p: Pipe): State { s.(pipes := s.pipes[k := p]) }

  function WithStage(s: State, c: CallId, stage: Stage): State
  {
    s.(tickets := s.tickets[c := s.TicketOf(c).(stage := stage)])
  }

  function WithWork(s: State, c: CallId, work: Work): State
    requires c in s.serving
  {
    s.(serving := s.serving[c := s.serving[c].(work := work)])
  }

  function ArriveStep(s: State, k: ConnId, p: Packet): State
  {
    WithPipe(s, k, s.PipeOf(k).(reqs := s.PipeOf(k).reqs + [p]))
      .(tickets := s.tickets[p.call := Ticket(k, p.id, p.req, OnWire, [])])
  }

  function ReadStep(s: State, k: ConnId): State
    requires s.PipeOf(k).reqs != []
  {
    var p := s.PipeOf(k);
    WithPipe(WithStage(s, p.reqs[0].call, AtReader), k, p.(reader := SRead(p.reqs[0]), reqs := p.reqs[1..]))
  }

  /** A token is put into workersCh. */
  function AcquireStep(s: State, k: ConnId, packet: Packet): State
  {
    WithPipe(s, k, s.PipeOf(k).(reader := SSpawning(packet))).(tokens := s.tokens + 1)
  }

  function SpawnStep(s: State, k: ConnId, packet: Packet): State
  {
    WithPipe(WithStage(s, packet.call, AtWorker), k, s.PipeOf(k).(reader := SIdle))
      .(serving := s.serving[packet.call := Serving(k, packet, Handling)])
  }

  /** The handler runs to an end of whatever kind; identifier zero wants no answer. */
  function HandleStep(s: State, c: CallId, end: HandlerEnd): State
    requires c in s.serving
  {
    var silent := s.serving[c].packet.id == 0;
    var ticket := s.TicketOf(c);
    WithWork(s, c, if silent then Finishing else Answering(ReplyOf(end)))
      .(tickets := s.tickets[c := ticket.(stage := if silent then Over else ticket.stage,
                                          runs := ticket.runs + [Run(s.serving[c].packet.req, end)])])
  }

  function PostStep(s: State, c: CallId, reply: Reply): State
    requires c in s.serving
  {
    var k, packet := s.serving[c].conn, s.serving[c].packet;
    var p := s.PipeOf(k);
    WithPipe(WithWork(WithStage(s, packet.call, InChannel), c, Finishing), k,
             p.(replies := p.replies + [Ack(packet.id, packet.call, reply)]))
  }

  function DropStep(s: State, c: CallId): State
    requires c in s.serving
  {
    WithWork(WithStage(s, s.serving[c].packet.call, Over), c, Finishing)
  }

  /** A token is taken out of workersCh and the goroutine ends. */
  function ReleaseStep(s: State, c: CallId): State
  {
    s.(serving := s.serving - {c}, tokens := s.tokens - 1)
  }

  function TakeReplyStep(s: State, k: ConnId): State
    requires s.PipeOf(k).replies != []
  {
    var p := s.PipeOf(k);
    WithPipe(WithStage(s, p.replies[0].call, AtWriter), k,
             p.(writer := Some(p.replies[0]), replies := p.replies[1..]))
  }

  function FrameOf(reg: WireFormat.Registry, a: Ack): Framing.Frame
  {
    Framing.ResponseFrameOf(reg, Streams.WireOf(a.id, a.reply))
  }

  /** The body of the answer can be supplied; otherwise encoding fails. */
  predicate CanEncode(reply: Reply) { Framing.Supplied(ResponseOf(reply).Body) }

  /** Everything goes out with a body or when the buffer is full, and otherwise nothing does: the
      writer has no timer. */
  function EmitStep(s: State, k: ConnId, a: Ack): State
  {
    var p := s.PipeOf(k);
    var f := FrameOf(s.reg, a);
    WithPipe(WithStage(s, a.call, Encoded), k,
             p.(writer := None, outs := p.outs + [a], emitted := p.emitted + [a], buf := Framing.Next(p.buf, f),
                flushed := if Framing.Flushes(p.buf.len, f) then |p.outs| + 1 else p.flushed))
  }

  function DepartStep(s: State, k: ConnId): State
    requires s.PipeOf(k).outs != []
  {
    var p := s.PipeOf(k);
    WithPipe(WithStage(s, p.outs[0].call, Over), k,
             p.(outs := p.outs[1..], flushed := if p.flushed > 0 then p.flushed - 1 else 0))
  }

  /** stopChan is closed while the reader waits for a request or for a token. */
  function StopReaderStep(s: State, k: ConnId): State
  {
    var p := s.PipeOf(k);
    WithPipe(if p.reader.SRead? then WithStage(s, p.reader.packet.call, Over) else s, k, p.(reader := SStopped))
  }

  /** The writer ends, because stopChan is closed or because encoding failed; `partly` when what
      was buffered went out before it failed. What is still in the buffer then is lost. */
  function StopWriterStep(s: State, k: ConnId, partly: bool): State
  {
    var p := s.PipeOf(k);
    WithPipe(if p.writer.Some? then WithStage(s, p.writer.value.call, Over) else s, k,
             p.(writer := None, writing := false, flushed := if partly then |p.outs| else p.flushed))
  }

  predicate Enabled(s: State, a: Action)
  {
    match a
    case Accept(k) => k !in s.pipes
    case Arrive(k, packet) => k in s.pipes && packet.call !in s.tickets
    case Read(k) => k in s.pipes && s.pipes[k].reader.SIdle? && s.pipes[k].reqs != []
    case Acquire(k) => k in s.pipes && s.pipes[k].reader.SRead? && s.tokens < s.concurrency
    case Spawn(k) => k in s.pipes && s.pipes[k].reader.SSpawning?
    case Handle(c, _) => c in s.serving && s.serving[c].work.Handling?
    case Post(c) => c in s.serving && s.serving[c].work.Answering? && |s.PipeOf(s.serving[c].conn).replies| < s.backlog
    case Drop(c) => c in s.serving && s.serving[c].work.Answering? && !s.PipeOf(s.serving[c].conn).open
    case Release(c) => c in s.serving && s.serving[c].work.Finishing?
    case TakeReply(k) => k in s.pipes && s.pipes[k].writing && s.pipes[k].writer.None? && s.pipes[k].replies != []
    case Emit(k) => k in s.pipes && s.pipes[k].writer.Some? && CanEncode(s.pipes[k].writer.value.reply)
    case Depart(k) => k in s.pipes && s.pipes[k].outs != [] && s.pipes[k].flushed > 0
    case Close(k) => k in s.pipes
    case StopReader(k) => k in s.pipes && (s.pipes[k].reader.SIdle? || s.pipes[k].reader.SRead?) && !s.pipes[k].open
    case StopWriter(k, partly) =>
      k in s.pipes && s.pipes[k].writing && if s.pipes[k].writer.Some? then true else !s.pipes[k].open && !partly
  }

  function Apply(s: State, a: Action): State
    requires Enabled(s, a)
  {
    match a
    case Accept(k) => WithPipe(s, k, NEW_PIPE)
    case Arrive(k, packet) => ArriveStep(s, k, packet)
    case Read(k) => ReadStep(s, k)
    case Acquire(k) => AcquireStep(s, k, s.pipes[k].reader.packet)
    case Spawn(k) => SpawnStep(s, k, s.pipes[k].reader.packet)
    case Handle(c, end) => HandleStep(s, c, end)
    case Post(c) => PostStep(s, c, s.serving[c].work.reply)
    case Drop(c) => DropStep(s, c)
    case Release(c) => ReleaseStep(s, c)
    case TakeReply(k) => TakeReplyStep(s, k)
    case Emit(k) => EmitStep(s, k, s.pipes[k].writer.value)
    case Depart(k) => DepartStep(s, k)
    case Close(k) => WithPipe(s, k, s.pipes[k].(open := false))
    case StopReader(k) => StopReaderStep(s, k)
    case StopWriter(k, partly) => StopWriterStep(s, k, partly)
  }

  predicate Init(s: State)
  {
    s.reg.Valid() && s.pipes == map[] && s.serving == map[] && s.tokens == 0 && s.tickets == map[]
  }
}
