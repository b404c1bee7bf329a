/** The calls of a jnet connection with the grouping into batches left out: requests wait,
    are asked under a cookie and an index, are worked on, are answered, and are routed back.
    Requests on their way form one line and answers on their way back another. */
module JnetCalls {
  import opened Messages
  import opened JnetWire
  import opened JnetBodies
  import B = JnetBatching

  /** What the client's reader leaves in the response for a caller: the error code, and the body
      unless that was dropped; then the response has what it had before. */
  datatype Result = Result(ErrorCode: uint32, body: Option<bytes>)

  /** Where a call is. This is history: no step of the program looks at it. `stale` says that the
      server's response was an object with an error code in it, `off` how much of a chunk was used
      when the client's reader came to the body. */
  datatype Place =
    | Waiting
    | Asked(cookie: uint64, idx: nat)
    | Working(cookie: uint64, idx: nat, worker: nat)
    | Answered(cookie: uint64, idx: nat, stale: bool)
    | Completed(cookie: uint64, idx: nat, stale: bool, off: nat)

  /** A request of the client's, with the number of times its channel was closed. */
  datatype Call = Call(CMD: byte, place: Place, resp: Option<Result>, closed: nat)

  datatype Entry = Entry(reqs: seq<nat>, left: int)

  /** A request as it travels; only four bits of the command do. */
  datatype Token = Token(cookie: uint64, idx: nat, CMD: byte)

  /** Content lengths are uint32 (JnetBatching.MOST_DATA says why this is the bound). */
  type Data = s: bytes | |s| <= B.MOST_DATA

  type DataGen = byte -> Data

  /** What processRequest makes of a request. The response comes from a pool and its error code is
      never cleared: when it was used for an invalid command before, it still says so. */
  function Process(gen: DataGen, t: Token, stale: bool): Resp
  {
    var failed := stale || t.CMD > 4;
    Resp(t.cookie, t.idx % 0x1_0000_0000, if failed then 1 else 0, if failed then INVALID_TEXT else [],
         if t.CMD <= 4 then gen(t.CMD) else [])
  }

  function ResultOf(r: Resp, off: nat): Result
  {
    Result(r.ErrorCode, if FateAt(off, |RespBody(r)|).Stored? then Some(RespBody(r)) else None)
  }

  datatype State = State(
    gen: DataGen,
    calls: seq<Call>,
    waiting: seq<nat>,
    nextCookie: uint64,
    inflight: map<uint64, Entry>,
    asked: seq<Token>,
    working: map<nat, Token>,
    answered: seq<Resp>,
    panicked: bool)

  // ---- The pieces of a step --------------------------------------------------------------

  function CallFor(CMD: byte): Call { Call(CMD, Waiting, None, 0) }

  function IndexOf(reqs: seq<nat>, c: nat): (i: nat)
    ensures c in reqs ==> i < |reqs| && reqs[i] == c
  {
    if reqs == [] then 0 else if reqs[0] == c then 0 else 1 + IndexOf(reqs[1..], c)
  }

  /** The requests of a batch leave under a cookie. */
  function Ship(calls: seq<Call>, reqs: seq<nat>, cookie: uint64): (calls': seq<Call>)
    ensures |calls'| == |calls|
  {
    seq(|calls|, c requires 0 <= c < |calls| =>
      if c in reqs then calls[c].(place := Asked(cookie, IndexOf(reqs, c))) else calls[c])
  }

  function Tokens(calls: seq<Call>, reqs: seq<nat>, cookie: uint64): (ts: seq<Token>)
    ensures |ts| == |reqs|
  {
    seq(|reqs|, i requires 0 <= i < |reqs| =>
      Token(cookie, i, if reqs[i] < |calls| then calls[reqs[i]].CMD % 16 else 0))
  }

  function Moved(calls: seq<Call>, inflight: map<uint64, Entry>, k: uint64, i: nat, place: Place): (calls': seq<Call>)
    ensures |calls'| == |calls|
  {
    if k in inflight && i < |inflight[k].reqs| && inflight[k].reqs[i] < |calls| then
      var c := inflight[k].reqs[i];
      calls[c := calls[c].(place := place)]
    else calls
  }

  datatype Routed = Routed(calls: seq<Call>, inflight: map<uint64, Entry>, panicked: bool)

  /** The client's reader with one response of a batch. It panics on a body that it cannot carve,
      on an index past the entry, and on closing a channel twice; an unknown batch is passed over. */
  function Route(calls: seq<Call>, inflight: map<uint64, Entry>, r: Resp, off: nat): Routed
  {
    if FateAt(off, |RespBody(r)|).Panics? then Routed(calls, inflight, true)
    else if r.BatchId !in inflight then Routed(calls, inflight, false)
    else
      var ents := inflight[r.BatchId];
      if r.Idx >= |ents.reqs| || ents.reqs[r.Idx] >= |calls| then Routed(calls, inflight, true)
      else
        var left := ents.left - 1;
        var inflight' := if left == 0 then inflight - {r.BatchId} else inflight[r.BatchId := ents.(left := left)];
        var c := ents.reqs[r.Idx];
        Routed(calls[c := Closed(calls[c], r, off)], inflight', calls[c].closed > 0)
  }

  function Closed(call: Call, r: Resp, off: nat): Call
  {
    Call(call.CMD, Completed(r.BatchId, r.Idx, call.place.Answered? && call.place.stale, off), Some(ResultOf(r, off)),
         call.closed + 1)
  }

  // ---- The steps -------------------------------------------------------------------------

  datatype Action =
    | Ask(CMD: byte)
    | Flush(n: nat)
    | Take(worker: nat)
    | Answer(worker: nat, stale: bool)
    | Complete(off: nat)

  predicate Enabled(s: State, a: Action)
  {
    && !s.panicked
    && match a
       case Ask(_) => true
       case Flush(n) => 0 < n <= |s.waiting| && n <= MAX_BATCH_COUNT
       case Take(w) => s.asked != [] && w !in s.working
       case Answer(w, _) => w in s.working
       case Complete(off) => s.answered != [] && off <= CHUNK
  }

  function DoAsk(s: State, CMD: byte): State
  {
    s.(calls := s.calls + [CallFor(CMD)], waiting := s.waiting + [|s.calls|])
  }

  function DoFlush(s: State, n: nat): State
    requires Enabled(s, Flush(n))
  {
    var reqs := s.waiting[..n];
    s.(calls := Ship(s.calls, reqs, s.nextCookie),
       waiting := s.waiting[n..],
       nextCookie := NextCookie(s.nextCookie),
       inflight := s.inflight[s.nextCookie := Entry(reqs, n)],
       asked := s.asked + Tokens(s.calls, reqs, s.nextCookie))
  }

  function DoTake(s: State, w: nat): State
    requires Enabled(s, Take(w))
  {
    var t := s.asked[0];
    s.(calls := Moved(s.calls, s.inflight, t.cookie, t.idx, Working(t.cookie, t.idx, w)),
       asked := s.asked[1..],
       working := s.working[w := t])
  }

  function DoAnswer(s: State, w: nat, stale: bool): State
    requires Enabled(s, Answer(w, stale))
  {
    var t := s.working[w];
    s.(calls := Moved(s.calls, s.inflight, t.cookie, t.idx, Answered(t.cookie, t.idx, stale)),
       working := s.working - {w},
       answered := s.answered + [Process(s.gen, t, stale)])
  }

  function DoComplete(s: State, off: nat): State
    requires Enabled(s, Complete(off))
  {
    var done := Route(s.calls, s.inflight, s.answered[0], off);
    s.(calls := done.calls, inflight := done.inflight, panicked := done.panicked, answered := s.answered[1..])
  }

  function Apply(s: State, a: Action): State
    requires Enabled(s, a)
  {
    match a
    case Ask(CMD) => DoAsk(s, CMD)
    case Flush(n) => DoFlush(s, n)
    case Take(w) => DoTake(s, w)
    case Answer(w, stale) => DoAnswer(s, w, stale)
    case Complete(off) => DoComplete(s, off)
  }

  // ---- What every step keeps -------------------------------------------------------------

  predicate Distinct<T(==)>(s: seq<T>)
  {
    forall i, j :: 0 <= i < j < |s| ==> s[i] != s[j]
  }

  /** What a call is given, when four bits of its command travel. */
  function Given(gen: DataGen, CMD: byte, stale: bool, off: nat): Result
  {
    ResultOf(Process(gen, Token(0, 0, CMD % 16), stale), off)
  }

  function TokenOf(call: Call, k: uint64, i: nat): Token { Token(k, i, call.CMD % 16) }

  predicate At(p: Place, k: uint64, i: nat)
  {
    !p.Waiting? && p.cookie == k && p.idx == i
  }

  predicate Filed(s: State, k: uint64, i: nat, c: nat)
  {
    c < |s.calls| && k in s.inflight && i < |s.inflight[k].reqs| && i < MAX_BATCH_COUNT && s.inflight[k].reqs[i] == c
  }

  /** The call filed at an index of a batch. */
  function CallAt(s: State, k: uint64, i: nat): nat
  {
    if k in s.inflight && i < |s.inflight[k].reqs| then s.inflight[k].reqs[i] else 0
  }

  predicate WaitingOk(s: State, i: nat)
    requires i < |s.waiting|
  {
    s.waiting[i] < |s.calls| && s.calls[s.waiting[i]].place == Waiting
  }

  predicate TokenOk(s: State, t: Token, p: Place)
  {
    var c := CallAt(s, t.cookie, t.idx);
    Filed(s, t.cookie, t.idx, c) && s.calls[c].place == p && t == TokenOf(s.calls[c], t.cookie, t.idx)
  }

  predicate AskedOk(s: State, i: nat)
    requires i < |s.asked|
  {
    TokenOk(s, s.asked[i], Asked(s.asked[i].cookie, s.asked[i].idx))
  }

  predicate WorkingOk(s: State, w: nat)
    requires w in s.working
  {
    TokenOk(s, s.working[w], Working(s.working[w].cookie, s.working[w].idx, w))
  }

  predicate AnswerOk(s: State, r: Resp)
  {
    var c := CallAt(s, r.BatchId, r.Idx);
    && Filed(s, r.BatchId, r.Idx, c) && s.calls[c].place.Answered? && At(s.calls[c].place, r.BatchId, r.Idx)
    && r == Process(s.gen, TokenOf(s.calls[c], r.BatchId, r.Idx), s.calls[c].place.stale)
  }

  predicate AnsweredOk(s: State, i: nat)
    requires i < |s.answered|
  {
    AnswerOk(s, s.answered[i])
  }

  predicate CallOk(s: State, c: nat)
    requires c < |s.calls|
  {
    var call := s.calls[c];
    match call.place
    case Waiting => c in s.waiting && call.closed == 0
    case Asked(k, i) => Filed(s, k, i, c) && TokenOf(call, k, i) in s.asked && call.closed == 0
    case Working(k, i, w) =>
      Filed(s, k, i, c) && w in s.working && s.working[w] == TokenOf(call, k, i) && call.closed == 0
    case Answered(k, i, stale) =>
      Filed(s, k, i, c) && Process(s.gen, TokenOf(call, k, i), stale) in s.answered && call.closed == 0
    case Completed(_, _, stale, off) => call.closed == 1 && call.resp == Some(Given(s.gen, call.CMD, stale, off))
  }

  /** The indices of a batch that have not been completed. */
  function Outstanding(calls: seq<Call>, reqs: seq<nat>): set<nat>
  {
    set i | 0 <= i < |reqs| && reqs[i] < |calls| && !calls[reqs[i]].place.Completed?
  }

  predicate EntryOk(s: State, k: uint64)
    requires k in s.inflight
  {
    var e := s.inflight[k];
    && |e.reqs| <= MAX_BATCH_COUNT
    && (forall i :: 0 <= i < |e.reqs| ==> e.reqs[i] < |s.calls| && At(s.calls[e.reqs[i]].place, k, i))
    && e.left == |Outstanding(s.calls, e.reqs)| > 0
  }

  predicate LinesOk(s: State)
  {
    Distinct(s.waiting) && Distinct(s.asked) && Distinct(s.answered)
  }

  predicate Inv(s: State)
  {
    && LinesOk(s)
    && (forall i {:trigger WaitingOk(s, i)} :: 0 <= i < |s.waiting| ==> WaitingOk(s, i))
    && (forall i {:trigger AskedOk(s, i)} :: 0 <= i < |s.asked| ==> AskedOk(s, i))
    && (forall w {:trigger WorkingOk(s, w)} :: w in s.working ==> WorkingOk(s, w))
    && (forall i {:trigger AnsweredOk(s, i)} :: 0 <= i < |s.answered| ==> AnsweredOk(s, i))
    && (forall c {:trigger CallOk(s, c)} :: 0 <= c < |s.calls| ==> CallOk(s, c))
    && (forall k {:trigger EntryOk(s, k)} :: k in s.inflight ==> EntryOk(s, k))
  }
}
