/** The server with its pooled messages. A reader fills a message from the pool with a request, a
    goroutine reads the request out of it and stores the answer in it, a writer reads the answer out
    of it and puts it back; a goroutine whose request wants no answer puts it back before the handler
    runs. IorpcServer passes requests and answers as values instead: `base` is its state, and what
    the steps here read out of messages turns out to be just those values. */
module IorpcMessages {
  import opened Messages
  import opened MessageIds
  import V = IorpcServer
  import VI = IorpcServerInv

  type MsgRef = nat

  /** Where a message is; history. */
  datatype Place = Pooled | WithReader(k: V.ConnId) | WithWorker(c: V.CallId) | InChannel(k: V.ConnId) | Lost

  const NO_REPLY := Reply(None, [])

  /** A serverMessage; `call` and `place` are history. */
  datatype Message = Message(ID: MsgId, request: Option<Request>, reply: Reply, call: V.CallId, place: Place)

  /** References to messages: in the pool, in a reader's and in a goroutine's hand, in the channels
      of responses. */
  datatype State = State(base: V.State, pool: multiset<MsgRef>, msgs: map<MsgRef, Message>,
                         readers: map<V.ConnId, MsgRef>, workers: map<V.CallId, MsgRef>,
                         channels: map<V.ConnId, seq<MsgRef>>)
  {
    function Get(m: MsgRef): Message { if m in msgs then msgs[m] else Message(0, None, NO_REPLY, 0, Lost) }
    function Of(k: V.ConnId): MsgRef { if k in readers then readers[k] else 0 }
    function By(c: V.CallId): MsgRef { if c in workers then workers[c] else 0 }
    function Channel(k: V.ConnId): seq<MsgRef> { if k in channels then channels[k] else [] }
  }

  datatype Action =
    | Base(v: V.Action)
    | Read(k: V.ConnId, m: MsgRef)
    | Spawn(k: V.ConnId)
    | PutEarly(c: V.CallId)
    | Handle(c: V.CallId, end: HandlerEnd)
    | Post(c: V.CallId)
    | Drop(c: V.CallId)
    | TakeReply(k: V.ConnId)
    | StopReader(k: V.ConnId)

  /** Steps that touch no message. */
  predicate Plain(v: V.Action)
  {
    v.Accept? || v.Arrive? || v.Acquire? || v.Emit? || v.Depart? || v.Close? || v.StopWriter? || v.Release?
  }

  function Placed(s: State, m: MsgRef, place: Place): map<MsgRef, Message>
  {
    s.msgs[m := s.Get(m).(place := place)]
  }

  /** What a goroutine finds in a message, and what a writer does. */
  function PacketIn(s: State, m: MsgRef): V.Packet
  {
    V.Packet(s.Get(m).ID, s.Get(m).call, if s.Get(m).request.Some? then s.Get(m).request.value else BLANK_REQUEST)
  }

  function AckIn(s: State, m: MsgRef): V.Ack { V.Ack(s.Get(m).ID, s.Get(m).call, s.Get(m).reply) }

  predicate Enabled(s: State, a: Action)
  {
    match a
    case Base(v) => Plain(v) && V.Enabled(s.base, v)
    case Read(k, m) => V.Enabled(s.base, V.Read(k)) && (m in s.pool || m !in s.msgs)
    case Spawn(k) => V.Enabled(s.base, V.Spawn(k))
    case PutEarly(c) =>
      c in s.workers && c in s.base.serving && s.base.serving[c].work.Handling? && s.Get(s.By(c)).ID == 0
    case Handle(c, end) => V.Enabled(s.base, V.Handle(c, end)) && (s.base.serving[c].packet.id == 0 ==> c !in s.workers)
    case Post(c) => V.Enabled(s.base, V.Post(c))
    case Drop(c) => V.Enabled(s.base, V.Drop(c))
    case TakeReply(k) => V.Enabled(s.base, V.TakeReply(k)) && s.Channel(k) != []
    case StopReader(k) => V.Enabled(s.base, V.StopReader(k))
  }

  function BaseStep(s: State, v: V.Action): State
    requires Enabled(s, Base(v))
  {
    s.(base := V.Apply(s.base, v), channels := if v.Accept? then s.channels[v.k := []] else s.channels)
  }

  /** A message out of the pool, or a new one, takes the request. What it still holds of an earlier
      answer stays. */
  function ReadStep(s: State, k: V.ConnId, m: MsgRef): State
    requires Enabled(s, Read(k, m))
  {
    var p := s.base.pipes[k].reqs[0];
    s.(base := V.ReadStep(s.base, k),
       pool := if m in s.pool then s.pool[m := s.pool[m] - 1] else s.pool,
       msgs := s.msgs[m := Message(p.id, Some(p.req), s.Get(m).reply, p.call, WithReader(k))],
       readers := s.readers[k := m])
  }

  function SpawnStep(s: State, k: V.ConnId): State
    requires Enabled(s, Spawn(k))
  {
    var m, p := s.Of(k), PacketIn(s, s.Of(k));
    s.(base := V.SpawnStep(s.base, k, p),
       msgs := s.msgs[m := s.Get(m).(request := None, place := WithWorker(p.call))],
       readers := s.readers - {k}, workers := s.workers[p.call := m])
  }

  /** Nobody wants an answer: the message goes back before the handler is called. */
  function PutEarlyStep(s: State, c: V.CallId): State
  {
    var m := s.By(c);
    s.(pool := s.pool[m := s.pool[m] + 1], msgs := s.msgs[m := s.Get(m).(reply := NO_REPLY, place := Pooled)],
       workers := s.workers - {c})
  }

  function HandleStep(s: State, c: V.CallId, end: HandlerEnd): State
    requires Enabled(s, Handle(c, end))
  {
    var silent := s.base.serving[c].packet.id == 0;
    s.(base := V.HandleStep(s.base, c, end),
       msgs := if silent then s.msgs else s.msgs[s.By(c) := s.Get(s.By(c)).(reply := ReplyOf(end))])
  }

  function PostStep(s: State, c: V.CallId): State
    requires Enabled(s, Post(c))
  {
    var m, k := s.By(c), s.base.serving[c].conn;
    s.(base := V.PostStep(s.base, c, s.Get(m).reply), msgs := Placed(s, m, InChannel(k)), workers := s.workers - {c},
       channels := s.channels[k := s.Channel(k) + [m]])
  }

  function DropStep(s: State, c: V.CallId): State
    requires Enabled(s, Drop(c))
  {
    s.(base := V.DropStep(s.base, c), msgs := Placed(s, s.By(c), Lost), workers := s.workers - {c})
  }

  /** The writer copies the answer out and puts the message back before it encodes. */
  function TakeReplyStep(s: State, k: V.ConnId): State
    requires Enabled(s, TakeReply(k))
  {
    var m, p := s.Channel(k)[0], s.base.pipes[k];
    var ack := AckIn(s, m);
    s.(base := V.WithPipe(V.WithStage(s.base, ack.call, V.AtWriter), k,
        p.(writer := Some(ack), replies := p.replies[1..])),
       pool := s.pool[m := s.pool[m] + 1], msgs := s.msgs[m := s.Get(m).(reply := NO_REPLY, place := Pooled)],
       channels := s.channels[k := s.Channel(k)[1..]])
  }

  function StopReaderStep(s: State, k: V.ConnId): State
    requires Enabled(s, StopReader(k))
  {
    s.(base := V.StopReaderStep(s.base, k),
       msgs := if k in s.readers then Placed(s, s.Of(k), Lost) else s.msgs, readers := s.readers - {k})
  }

  function Apply(s: State, a: Action): State
    requires Enabled(s, a)
  {
    match a
    case Base(v) => BaseStep(s, v)
    case Read(k, m) => ReadStep(s, k, m)
    case Spawn(k) => SpawnStep(s, k)
    case PutEarly(c) => PutEarlyStep(s, c)
    case Handle(c, end) => HandleStep(s, c, end)
    case Post(c) => PostStep(s, c)
    case Drop(c) => DropStep(s, c)
    case TakeReply(k) => TakeReplyStep(s, k)
    case StopReader(k) => StopReaderStep(s, k)
  }

  predicate Init(s: State)
  {
    V.Init(s.base) && s.pool == multiset{} && s.msgs == map[] && s.readers == map[] && s.workers == map[]
        && s.channels == map[]
  }

  // ---- The invariant -------------------------------------------------------------------------

  predicate At(s: State, m: MsgRef, place: Place) { m in s.msgs && s.msgs[m].place == place }

  predicate MsgOk(s: State, m: MsgRef)
  {
    if m in s.msgs then
      && (s.pool[m] != 0 ==> s.msgs[m].place.Pooled?)
      && match s.msgs[m].place
         case Pooled => s.pool[m] == 1
         case WithReader(k) => k in s.readers && s.readers[k] == m
         case WithWorker(c) => c in s.workers && s.workers[c] == m
         case InChannel(k) => k in s.channels && m in s.channels[k]
         case Lost => true
    else s.pool[m] == 0
  }

  predicate HasPacket(r: V.ServerReader) { r.SRead? || r.SSpawning? }

  /** A reader that has a request has it in its message. */
  predicate ReaderOk(s: State, k: V.ConnId)
  {
    && (k in s.readers ==> k in s.base.pipes && HasPacket(s.base.pipes[k].reader))
    && (k in s.base.pipes && HasPacket(s.base.pipes[k].reader) ==>
          k in s.readers && At(s, s.readers[k], WithReader(k)) && s.msgs[s.readers[k]].request.Some?
          && PacketIn(s, s.readers[k]) == s.base.pipes[k].reader.packet)
  }

  /** A goroutine that has an answer has it in its message; one that owes none may have given the
      message back. */
  predicate WorkerOk(s: State, c: V.CallId)
  {
    && (c in s.workers ==>
          && c in s.base.serving && !s.base.serving[c].work.Finishing? && At(s, s.workers[c], WithWorker(c))
          && s.msgs[s.workers[c]].ID == s.base.serving[c].packet.id && s.msgs[s.workers[c]].call == c)
    && (c in s.base.serving ==>
          match s.base.serving[c].work
          case Handling => s.base.serving[c].packet.id != 0 ==> c in s.workers
          case Answering(reply) => c in s.workers && s.msgs[s.workers[c]].reply == reply
          case Finishing => true)
  }

  /** The messages in a channel hold the answers in it, in order, each in its own. */
  predicate ChannelOk(s: State, k: V.ConnId)
  {
    if k in s.base.pipes then
      && k in s.channels && |s.channels[k]| == |s.base.pipes[k].replies|
      && (forall i :: 0 <= i < |s.channels[k]| ==>
            At(s, s.channels[k][i], InChannel(k)) && AckIn(s, s.channels[k][i]) == s.base.pipes[k].replies[i])
      && (forall i, j :: 0 <= i < j < |s.channels[k]| ==> s.channels[k][i] != s.channels[k][j])
    else k !in s.channels
  }

  ghost predicate Owned(s: State)
  {
    && (forall m {:trigger MsgOk(s, m)} :: MsgOk(s, m))
    && (forall k {:trigger ChannelOk(s, k)} :: ChannelOk(s, k))
  }

  ghost predicate InHand(s: State)
  {
    && (forall k {:trigger ReaderOk(s, k)} :: ReaderOk(s, k))
    && (forall c {:trigger WorkerOk(s, c)} :: WorkerOk(s, c))
  }

  ghost predicate Held(s: State) { Owned(s) && InHand(s) }

  ghost predicate Inv(s: State) { VI.Inv(s.base) && Held(s) }

  // ---- The steps are the server's -----------------------------------------------------------

  function ServerAction(a: Action): Option<V.Action>
  {
    match a
    case Base(v) => Some(v)
    case Read(k, _) => Some(V.Read(k))
    case Spawn(k) => Some(V.Spawn(k))
    case PutEarly(_) => None
    case Handle(c, end) => Some(V.Handle(c, end))
    case Post(c) => Some(V.Post(c))
    case Drop(c) => Some(V.Drop(c))
    case TakeReply(k) => Some(V.TakeReply(k))
    case StopReader(k) => Some(V.StopReader(k))
  }

  /** What a step reads out of messages is what the server passes as a value: each step is a step of
      the server, except for the early return of a message, which is none. */
  lemma StepRefines(s: State, a: Action)
    requires Inv(s) && Enabled(s, a)
    ensures match ServerAction(a)
            case None => Apply(s, a).base == s.base
            case Some(v) => V.Enabled(s.base, v) && Apply(s, a).base == V.Apply(s.base, v)
  {
    match a
    case Spawn(k) => assert ReaderOk(s, k);
    case Post(c) => assert WorkerOk(s, c);
    case TakeReply(k) => assert ChannelOk(s, k);
    case _ =>
  }

  lemma BaseKeepsInv(s: State, a: Action)
    requires Inv(s) && Enabled(s, a)
    ensures VI.Inv(Apply(s, a).base)
  {
    StepRefines(s, a);
    if ServerAction(a).Some? {
      VI.StepKeepsInv(s.base, ServerAction(a).value);
    }
  }

  // ---- One lemma a step ------------------------------------------------------------------------

  lemma PlainKeepsOwned(s: State, v: V.Action)
    requires Held(s) && Enabled(s, Base(v)) && !v.Accept?
    ensures Owned(BaseStep(s, v))
  {
    var t := BaseStep(s, v);
    forall m ensures MsgOk(t, m) { assert MsgOk(s, m); }
    forall k ensures ChannelOk(t, k) { assert ChannelOk(s, k); }
  }

  lemma PlainKeepsInHand(s: State, v: V.Action)
    requires Held(s) && Enabled(s, Base(v)) && !v.Accept?
    ensures InHand(BaseStep(s, v))
  {
    var t := BaseStep(s, v);
    forall k ensures ReaderOk(t, k) { assert ReaderOk(s, k); }
    forall c ensures WorkerOk(t, c) { assert WorkerOk(s, c); }
  }

  lemma AcceptKeepsOwned(s: State, k: V.ConnId)
    requires Held(s) && Enabled(s, Base(V.Accept(k)))
    ensures Owned(BaseStep(s, V.Accept(k)))
  {
    var t := BaseStep(s, V.Accept(k));
    assert ChannelOk(s, k);
    forall m ensures MsgOk(t, m) { assert MsgOk(s, m); }
    forall k' ensures ChannelOk(t, k') { assert ChannelOk(s, k'); }
  }

  lemma AcceptKeepsInHand(s: State, k: V.ConnId)
    requires Held(s) && Enabled(s, Base(V.Accept(k)))
    ensures InHand(BaseStep(s, V.Accept(k)))
  {
    var t := BaseStep(s, V.Accept(k));
    assert ChannelOk(s, k);
    forall k' ensures ReaderOk(t, k') { assert ReaderOk(s, k'); }
    forall c ensures WorkerOk(t, c) { assert WorkerOk(s, c); }
  }

  lemma ReadKeepsOwned(s: State, k: V.ConnId, m: MsgRef)
    requires Held(s) && Enabled(s, Read(k, m))
    ensures Owned(ReadStep(s, k, m))
  {
    var t := ReadStep(s, k, m);
    assert MsgOk(s, m) && ReaderOk(s, k);
    forall m' ensures MsgOk(t, m') { assert MsgOk(s, m'); }
    forall k' ensures ChannelOk(t, k') { assert ChannelOk(s, k'); }
  }

  lemma ReadKeepsInHand(s: State, k: V.ConnId, m: MsgRef)
    requires Held(s) && Enabled(s, Read(k, m))
    ensures InHand(ReadStep(s, k, m))
  {
    var t := ReadStep(s, k, m);
    assert MsgOk(s, m) && ReaderOk(s, k);
    forall k' ensures ReaderOk(t, k') { assert ReaderOk(s, k'); }
    forall c ensures WorkerOk(t, c) { assert WorkerOk(s, c); }
  }

  lemma SpawnKeepsOwned(s: State, k: V.ConnId)
    requires Held(s) && Enabled(s, Spawn(k))
    requires VI.PacketsOk(s.base, k) && VI.ServingOk(s.base, s.base.pipes[k].reader.packet.call)
    ensures Owned(SpawnStep(s, k))
  {
    var t := SpawnStep(s, k);
    assert ReaderOk(s, k) && MsgOk(s, s.readers[k]);
    var c0 := s.base.pipes[k].reader.packet.call;
    assert WorkerOk(s, c0);
    forall m ensures MsgOk(t, m) { assert MsgOk(s, m); }
    forall k' ensures ChannelOk(t, k') { assert ChannelOk(s, k'); }
  }

  lemma SpawnKeepsInHand(s: State, k: V.ConnId)
    requires Held(s) && Enabled(s, Spawn(k))
    requires VI.PacketsOk(s.base, k) && VI.ServingOk(s.base, s.base.pipes[k].reader.packet.call)
    ensures InHand(SpawnStep(s, k))
  {
    var t := SpawnStep(s, k);
    assert ReaderOk(s, k) && MsgOk(s, s.readers[k]);
    var c0 := s.base.pipes[k].reader.packet.call;
    assert WorkerOk(s, c0);
    forall k' ensures ReaderOk(t, k') { assert ReaderOk(s, k'); }
    forall c ensures WorkerOk(t, c) { assert WorkerOk(s, c); }
  }

  lemma PutEarlyKeepsOwned(s: State, c: V.CallId)
    requires Held(s) && Enabled(s, PutEarly(c))
    ensures Owned(PutEarlyStep(s, c))
  {
    var t := PutEarlyStep(s, c);
    assert WorkerOk(s, c) && MsgOk(s, s.workers[c]);
    forall m ensures MsgOk(t, m) { assert MsgOk(s, m); }
    forall k ensures ChannelOk(t, k) { assert ChannelOk(s, k); }
  }

  lemma PutEarlyKeepsInHand(s: State, c: V.CallId)
    requires Held(s) && Enabled(s, PutEarly(c))
    ensures InHand(PutEarlyStep(s, c))
  {
    var t := PutEarlyStep(s, c);
    assert WorkerOk(s, c) && MsgOk(s, s.workers[c]);
    forall k ensures ReaderOk(t, k) { assert ReaderOk(s, k); }
    forall c' ensures WorkerOk(t, c') { assert WorkerOk(s, c'); }
  }

  lemma HandleKeepsOwned(s: State, c: V.CallId, end: HandlerEnd)
    requires Held(s) && Enabled(s, Handle(c, end))
    ensures Owned(HandleStep(s, c, end))
  {
    var t := HandleStep(s, c, end);
    assert WorkerOk(s, c) && MsgOk(s, s.By(c));
    forall m ensures MsgOk(t, m) { assert MsgOk(s, m); }
    forall k ensures ChannelOk(t, k) { assert ChannelOk(s, k); }
  }

  lemma HandleKeepsInHand(s: State, c: V.CallId, end: HandlerEnd)
    requires Held(s) && Enabled(s, Handle(c, end))
    ensures InHand(HandleStep(s, c, end))
  {
    var t := HandleStep(s, c, end);
    assert WorkerOk(s, c) && MsgOk(s, s.By(c));
    forall k ensures ReaderOk(t, k) { assert ReaderOk(s, k); }
    forall c' ensures WorkerOk(t, c') { assert WorkerOk(s, c'); }
  }

  lemma PostKeepsOwned(s: State, c: V.CallId)
    requires Held(s) && Enabled(s, Post(c))
    requires VI.ServingOk(s.base, c)
    ensures Owned(PostStep(s, c))
  {
    var t := PostStep(s, c);
    assert WorkerOk(s, c) && MsgOk(s, s.workers[c]) && ChannelOk(s, s.base.serving[c].conn);
    forall m ensures MsgOk(t, m) { assert MsgOk(s, m); }
    forall k ensures ChannelOk(t, k) { assert ChannelOk(s, k); }
  }

  lemma PostKeepsInHand(s: State, c: V.CallId)
    requires Held(s) && Enabled(s, Post(c))
    requires VI.ServingOk(s.base, c)
    ensures InHand(PostStep(s, c))
  {
    var t := PostStep(s, c);
    assert WorkerOk(s, c) && MsgOk(s, s.workers[c]) && ChannelOk(s, s.base.serving[c].conn);
    forall k ensures ReaderOk(t, k) { assert ReaderOk(s, k); }
    forall c' ensures WorkerOk(t, c') { assert WorkerOk(s, c'); }
  }

  lemma DropKeepsOwned(s: State, c: V.CallId)
    requires Held(s) && Enabled(s, Drop(c))
    ensures Owned(DropStep(s, c))
  {
    var t := DropStep(s, c);
    assert WorkerOk(s, c) && MsgOk(s, s.workers[c]);
    forall m ensures MsgOk(t, m) { assert MsgOk(s, m); }
    forall k ensures ChannelOk(t, k) { assert ChannelOk(s, k); }
  }

  lemma DropKeepsInHand(s: State, c: V.CallId)
    requires Held(s) && Enabled(s, Drop(c))
    ensures InHand(DropStep(s, c))
  {
    var t := DropStep(s, c);
    assert WorkerOk(s, c) && MsgOk(s, s.workers[c]);
    forall k ensures ReaderOk(t, k) { assert ReaderOk(s, k); }
    forall c' ensures WorkerOk(t, c') { assert WorkerOk(s, c'); }
  }

  lemma TakeReplyKeepsOwned(s: State, k: V.ConnId)
    requires Held(s) && Enabled(s, TakeReply(k))
    ensures Owned(TakeReplyStep(s, k))
  {
    var t := TakeReplyStep(s, k);
    assert ChannelOk(s, k) && MsgOk(s, s.channels[k][0]);
    assert s.channels[k] == [s.channels[k][0]] + t.channels[k];
    forall m ensures MsgOk(t, m) { assert MsgOk(s, m); }
    forall k' ensures ChannelOk(t, k') { assert ChannelOk(s, k'); }
  }

  lemma TakeReplyKeepsInHand(s: State, k: V.ConnId)
    requires Held(s) && Enabled(s, TakeReply(k))
    ensures InHand(TakeReplyStep(s, k))
  {
    var t := TakeReplyStep(s, k);
    assert ChannelOk(s, k) && MsgOk(s, s.channels[k][0]);
    assert s.channels[k] == [s.channels[k][0]] + t.channels[k];
    forall k' ensures ReaderOk(t, k') { assert ReaderOk(s, k'); }
    forall c ensures WorkerOk(t, c) { assert WorkerOk(s, c); }
  }

  lemma StopReaderKeepsOwned(s: State, k: V.ConnId)
    requires Held(s) && Enabled(s, StopReader(k))
    ensures Owned(StopReaderStep(s, k))
  {
    var t := StopReaderStep(s, k);
    assert ReaderOk(s, k) && MsgOk(s, s.Of(k));
    forall m ensures MsgOk(t, m) { assert MsgOk(s, m); }
    forall k' ensures ChannelOk(t, k') { assert ChannelOk(s, k'); }
  }

  lemma StopReaderKeepsInHand(s: State, k: V.ConnId)
    requires Held(s) && Enabled(s, StopReader(k))
    ensures InHand(StopReaderStep(s, k))
  {
    var t := StopReaderStep(s, k);
    assert ReaderOk(s, k) && MsgOk(s, s.Of(k));
    forall k' ensures ReaderOk(t, k') { assert ReaderOk(s, k'); }
    forall c ensures WorkerOk(t, c) { assert WorkerOk(s, c); }
  }

  /** Every step keeps the invariant. */
  lemma StepKeepsInv(s: State, a: Action)
    requires Inv(s) && Enabled(s, a)
    ensures Inv(Apply(s, a))
  {
    BaseKeepsInv(s, a);
    match a
    case Base(v) => if v.Accept? { AcceptKeepsOwned(s, v.k); AcceptKeepsInHand(s, v.k); }
        else { PlainKeepsOwned(s, v); PlainKeepsInHand(s, v); }
    case Read(k, m) => ReadKeepsOwned(s, k, m); ReadKeepsInHand(s, k, m);
    case Spawn(k) => assert VI.PacketsOk(s.base, k) && VI.ServingOk(s.base, s.base.pipes[k].reader.packet.call);
        SpawnKeepsOwned(s, k); SpawnKeepsInHand(s, k);
    case PutEarly(c) => PutEarlyKeepsOwned(s, c); PutEarlyKeepsInHand(s, c);
    case Handle(c, end) => HandleKeepsOwned(s, c, end); HandleKeepsInHand(s, c, end);
    case Post(c) => assert VI.ServingOk(s.base, c); PostKeepsOwned(s, c); PostKeepsInHand(s, c);
    case Drop(c) => DropKeepsOwned(s, c); DropKeepsInHand(s, c);
    case TakeReply(k) => TakeReplyKeepsOwned(s, k); TakeReplyKeepsInHand(s, k);
    case StopReader(k) => StopReaderKeepsOwned(s, k); StopReaderKeepsInHand(s, k);
  }

  // ---- One owner at a time --------------------------------------------------------------------

  ghost predicate IsRun(states: seq<State>, actions: seq<Action>)
  {
    && |states| == |actions| + 1 && Init(states[0])
    && forall i {:trigger actions[i]} :: 0 <= i < |actions| ==>
         Enabled(states[i], actions[i]) && states[i + 1] == Apply(states[i], actions[i])
  }

  lemma InitialInv(s: State)
    requires Init(s)
    ensures Inv(s)
  {
    assert VI.Spawners(s.base) == {};
  }

  lemma {:induction false} ReachableInv(states: seq<State>, actions: seq<Action>, i: nat)
    requires IsRun(states, actions) && i < |states|
    ensures Inv(states[i])
  {
    if i == 0 {
      InitialInv(states[0]);
    } else {
      ReachableInv(states, actions, i - 1);
      assert Enabled(states[i - 1], actions[i - 1]);
      StepKeepsInv(states[i - 1], actions[i - 1]);
    }
  }

  /** A reference to a message. */
  datatype Spot = InPool | AtReader(k: V.ConnId) | AtWorker(c: V.CallId) | InQueue(k: V.ConnId, i: nat)

  predicate Refers(s: State, m: MsgRef, spot: Spot)
  {
    match spot
    case InPool => m in s.pool
    case AtReader(k) => k in s.readers && s.readers[k] == m
    case AtWorker(c) => c in s.workers && s.workers[c] == m
    case InQueue(k, i) => k in s.channels && i < |s.channels[k]| && s.channels[k][i] == m
  }

  /** In every reachable state a message has at most one owner, and is at most once in the pool,
      although a goroutine can give it back while its handler still runs. */
  lemma OneOwner(states: seq<State>, actions: seq<Action>, i: nat, m: MsgRef, a: Spot, b: Spot)
    requires IsRun(states, actions) && i < |states|
    requires Refers(states[i], m, a) && Refers(states[i], m, b)
    ensures a == b && states[i].pool[m] <= 1
  {
    ReachableInv(states, actions, i);
    Located(states[i], m, a);
    Located(states[i], m, b);
    assert MsgOk(states[i], m);
  }

  lemma Located(s: State, m: MsgRef, spot: Spot)
    requires Inv(s) && Refers(s, m, spot)
    ensures m in s.msgs
    ensures s.msgs[m].place == match spot
                               case InPool => Pooled
                               case AtReader(k) => WithReader(k)
                               case AtWorker(c) => WithWorker(c)
                               case InQueue(k, _) => InChannel(k)
    ensures spot.InQueue? ==> forall j :: 0 <= j < |s.channels[spot.k]| && s.channels[spot.k][j] == m ==> j == spot.i
  {
    assert MsgOk(s, m);
    match spot
    case InPool =>
    case AtReader(k) => assert ReaderOk(s, k);
    case AtWorker(c) => assert WorkerOk(s, c);
    case InQueue(k, i) => assert ChannelOk(s, k);
  }

  /** And every reachable state is, in its values, one that the server without messages reaches. */
  lemma {:induction false} ReachableRefines(states: seq<State>, actions: seq<Action>, i: nat)
      returns (base: seq<V.State>, vs: seq<V.Action>)
    requires IsRun(states, actions) && i < |states|
    ensures |base| == |vs| + 1 && V.Init(base[0]) && base[|vs|] == states[i].base
    ensures forall j {:trigger vs[j]} :: 0 <= j < |vs| ==>
              V.Enabled(base[j], vs[j]) && base[j + 1] == V.Apply(base[j], vs[j])
  {
    if i == 0 {
      base, vs := [states[0].base], [];
    } else {
      base, vs := ReachableRefines(states, actions, i - 1);
      var s, a := states[i - 1], actions[i - 1];
      ReachableInv(states, actions, i - 1);
      assert Enabled(s, a);
      StepRefines(s, a);
      if ServerAction(a).Some? {
        base, vs := base + [states[i].base], vs + [ServerAction(a).value];
      }
    }
  }
}
