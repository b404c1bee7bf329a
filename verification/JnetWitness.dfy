/** Two runs of a jnet connection in which a caller does not get its own result: a body that spans
    two chunks is dropped, and a valid command is answered in a response object that an invalid
    one has left an error code in. Both start with two requests that go out in one batch. */
module JnetWitness {
  import opened Messages
  import opened JnetWire
  import opened JnetBodies
  import opened JnetCalls
  import opened JnetRouting
  import opened JnetTheorems
  import opened Runs

  /** A call that is at some point of its way. */
  function Underway(CMD: byte, place: Place): Call { Call(CMD, place, None, 0) }

  /** Two calls under cookie 0, and otherwise only what is named. */
  ghost predicate Two(n: Net, gen: DataGen, first: Call, second: Call, left: int)
  {
    && n.gen == gen && !n.panicked && n.calls == [first, second]
    && n.inflight == map[0 := Entry([0, 1], left)] && n.queue == [] && n.requests == []
  }

  lemma Asks(gen: DataGen, a: byte, b: byte) returns (steps: seq<Step>, n: Net)
    ensures Leads(StepOf, Start(gen), steps, n) && |steps| == 4
    ensures n == Start(gen).(calls := [CallFor(a), CallFor(b)], requests := [0, 1])
  {
    var s0 := Start(gen);
    var s1 := Next(s0, Submit(a));
    assert s1.calls == [CallFor(a)] && s1.queue == [0];
    var s2 := Next(s1, Submit(b));
    assert s2.calls == [CallFor(a), CallFor(b)] && s2.queue == [0, 1];
    var s3 := Next(s2, Gather);
    assert s3.queue == [1] && s3.requests == [0];
    n := Next(s3, Gather);
    assert n.queue == [] && n.requests == [0, 1];
    StepFirst(StepOf, s3, Gather, n, [], n);
    StepFirst(StepOf, s2, Gather, s3, [Gather] + [], n);
    StepFirst(StepOf, s1, Submit(b), s2, [Gather] + ([Gather] + []), n);
    StepFirst(StepOf, s0, Submit(a), s1, [Submit(b)] + ([Gather] + ([Gather] + [])), n);
    steps := [Submit(a)] + ([Submit(b)] + ([Gather] + ([Gather] + [])));
  }

  lemma Sends(gen: DataGen, a: byte, b: byte, n: Net) returns (steps: seq<Step>, m: Net)
    requires n == Start(gen).(calls := [CallFor(a), CallFor(b)], requests := [0, 1])
    ensures Leads(StepOf, n, steps, m) && |steps| == 3
    ensures Two(m, gen, Underway(a, Asked(0, 0)), Underway(b, Asked(0, 1)), 2)
    ensures m.unbundled == [Token(0, 0, a % 16), Token(0, 1, b % 16)] && m.working == map[]
    ensures m.tainted == 0 && m.respCH == [] && m.resps == [] && m.replies == [] && m.inbox == []
  {
    var s1 := Next(n, FlushBatch);
    Shipping(a, b);
    var s2 := Next(s1, Write);
    assert s2.stream == [Batch(0, [a % 16, b % 16])];
    m := Next(s2, ReceiveBatch);
    assert Unbundle(s2.stream[0]) == [Token(0, 0, a % 16), Token(0, 1, b % 16)];
    StepFirst(StepOf, s2, ReceiveBatch, m, [], m);
    StepFirst(StepOf, s1, Write, s2, [ReceiveBatch] + [], m);
    StepFirst(StepOf, n, FlushBatch, s1, [Write] + ([ReceiveBatch] + []), m);
    steps := [FlushBatch] + ([Write] + ([ReceiveBatch] + []));
  }

  lemma Shipping(a: byte, b: byte)
    ensures Ship([CallFor(a), CallFor(b)], [0, 1], 0) == [Underway(a, Asked(0, 0)), Underway(b, Asked(0, 1))]
    ensures CMDs([CallFor(a), CallFor(b)], [0, 1]) == [a % 16, b % 16]
  {
    assert IndexOf([0, 1], 0) == 0;
    assert [0, 1][1..] == [1] && IndexOf([1], 1) == 0 && IndexOf([0, 1], 1) == 1;
  }

  /** A worker takes the first request there is, and answers it. */
  lemma Works(n: Net, gen: DataGen, t: Token, rest: seq<Token>, stale: bool) returns (m: Net)
    requires n.gen == gen && !n.panicked && n.unbundled == [t] + rest && n.working == map[] && n.respCH == []
    requires stale ==> n.tainted > 0
    requires t.cookie in n.inflight && t.idx < |n.inflight[t.cookie].reqs|
    requires n.inflight[t.cookie].reqs[t.idx] < |n.calls|
    ensures Leads(StepOf, n, [SubmitWork(0), ProcessRequest(0, stale)], m)
    ensures var c := n.inflight[t.cookie].reqs[t.idx];
            m == n.(calls := n.calls[c := n.calls[c].(place := Answered(t.cookie, t.idx, stale))], unbundled := rest,
                    respCH := [Process(gen, t, stale)], tainted := if stale then n.tainted - 1 else n.tainted)
  {
    var c := n.inflight[t.cookie].reqs[t.idx];
    var s1 := Next(n, SubmitWork(0));
    assert s1.calls == n.calls[c := n.calls[c].(place := Working(t.cookie, t.idx, 0))] && s1.unbundled == rest;
    m := Next(s1, ProcessRequest(0, stale));
    assert m.calls == n.calls[c := n.calls[c].(place := Answered(t.cookie, t.idx, stale))];
    assert m.working == map[] && m.respCH == [Process(gen, t, stale)];
    StepFirst(StepOf, s1, ProcessRequest(0, stale), m, [], m);
    StepFirst(StepOf, n, SubmitWork(0), s1, [ProcessRequest(0, stale)] + [], m);
    assert [SubmitWork(0)] + ([ProcessRequest(0, stale)] + []) == [SubmitWork(0), ProcessRequest(0, stale)];
  }

  /** The answer is gathered. */
  lemma Gathers(n: Net, r: Resp) returns (m: Net)
    requires !n.panicked && n.respCH == [r] && |n.resps| <= 1
    ensures Leads(StepOf, n, [GatherResponse], m) && m == n.(respCH := [], resps := n.resps + [r])
  {
    m := Next(n, GatherResponse);
    assert m.respCH == [];
    StepFirst(StepOf, n, GatherResponse, m, [], m);
    assert [GatherResponse] + [] == [GatherResponse];
  }

  lemma SendsBack(n: Net) returns (m: Net)
    requires !n.panicked && n.resps != []
    ensures Leads(StepOf, n, [FlushResponses], m)
    ensures m == n.(resps := [], replies := n.replies + [n.resps], tainted := n.tainted + Failed(n.resps))
  {
    m := Next(n, FlushResponses);
    StepFirst(StepOf, n, FlushResponses, m, [], m);
    assert [FlushResponses] + [] == [FlushResponses];
  }

  lemma ComesBack(n: Net, rs: seq<Resp>, rest: seq<seq<Resp>>) returns (m: Net)
    requires !n.panicked && n.replies == [rs] + rest && n.inbox == []
    ensures Leads(StepOf, n, [ReceiveReplies], m) && m == n.(replies := rest, inbox := rs, off := 0, batch := rs)
  {
    m := Next(n, ReceiveReplies);
    StepFirst(StepOf, n, ReceiveReplies, m, [], m);
    assert [ReceiveReplies] + [] == [ReceiveReplies];
  }

  /** And routed to a call that was answered. */
  lemma Routes(n: Net, r: Resp, rest: seq<Resp>) returns (m: Net)
    requires !n.panicked && n.inbox == [r] + rest && !FateAt(n.off, |RespBody(r)|).Panics?
    requires r.BatchId in n.inflight && r.Idx < |n.inflight[r.BatchId].reqs|
    requires n.inflight[r.BatchId].reqs[r.Idx] < |n.calls|
    requires n.calls[n.inflight[r.BatchId].reqs[r.Idx]].closed == 0
    ensures Leads(StepOf, n, [RouteNext], m)
    ensures var e := n.inflight[r.BatchId];
            var c := e.reqs[r.Idx];
            m == n.(calls := n.calls[c := Closed(n.calls[c], r, n.off)], inbox := rest,
                    off := Used(n.off, |RespBody(r)|),
                    inflight := if e.left == 1 then n.inflight - {r.BatchId}
                                else n.inflight[r.BatchId := Entry(e.reqs, e.left - 1)])
  {
    m := Next(n, RouteNext);
    StepFirst(StepOf, n, RouteNext, m, [], m);
    assert [RouteNext] + [] == [RouteNext];
  }

  lemma {:induction false} FewFlushes(steps: seq<Step>)
    ensures Flushes(steps) <= |steps|
  {
    if steps != [] {
      FewFlushes(steps[..|steps| - 1]);
    }
  }

  lemma IsReachable(gen: DataGen, steps: seq<Step>, n: Net)
    requires Leads(StepOf, Start(gen), steps, n) && |steps| <= 100
    ensures Reachable(n, gen)
  {
    var run := StatesOf(StepOf, Start(gen), steps, n);
    assert IsRun(run, steps, gen);
    FewFlushes(steps);
    CookiesAreFresh(run, steps, gen);
  }

  /** Both requests are with the server. */
  lemma Arrive(gen: DataGen, a: byte, b: byte) returns (steps: seq<Step>, m: Net)
    ensures Leads(StepOf, Start(gen), steps, m) && |steps| == 7
    ensures Two(m, gen, Underway(a, Asked(0, 0)), Underway(b, Asked(0, 1)), 2)
    ensures m.unbundled == [Token(0, 0, a % 16)] + [Token(0, 1, b % 16)] && m.working == map[]
    ensures m.tainted == 0 && m.respCH == [] && m.resps == [] && m.replies == [] && m.inbox == []
  {
    var first, n := Asks(gen, a, b);
    var second;
    second, m := Sends(gen, a, b, n);
    LeadsOn(StepOf, Start(gen), first, n, second, m);
    steps := first + second;
  }

  /** The server has an answer to the first request, and nothing else has come back. */
  lemma FirstAnswered(gen: DataGen, a: byte, b: byte) returns (steps: seq<Step>, m: Net)
    ensures Leads(StepOf, Start(gen), steps, m) && |steps| == 10
    ensures Two(m, gen, Underway(a, Answered(0, 0, false)), Underway(b, Asked(0, 1)), 2)
    ensures m.unbundled == [Token(0, 1, b % 16)] && m.working == map[] && m.tainted == 0 && m.respCH == []
    ensures m.resps == [Process(gen, Token(0, 0, a % 16), false)] && m.replies == [] && m.inbox == []
  {
    var s, n := Arrive(gen, a, b);
    var n1 := Works(n, gen, Token(0, 0, a % 16), [Token(0, 1, b % 16)], false);
    m := Gathers(n1, Process(gen, Token(0, 0, a % 16), false));
    var w := [SubmitWork(0), ProcessRequest(0, false)];
    LeadsOn(StepOf, Start(gen), s, n, w, n1);
    LeadsOn(StepOf, Start(gen), s + w, n1, [GatherResponse], m);
    steps := s + w + [GatherResponse];
  }

  lemma SecondAnswered(n: Net, gen: DataGen, a: byte, b: byte, stale: bool) returns (steps: seq<Step>, m: Net)
    requires Two(n, gen, Underway(a, Answered(0, 0, false)), Underway(b, Asked(0, 1)), 2)
    requires n.unbundled == [Token(0, 1, b % 16)] && n.working == map[] && n.respCH == [] && |n.resps| <= 1
    requires stale ==> n.tainted > 0
    ensures Leads(StepOf, n, steps, m) && |steps| == 3
    ensures Two(m, gen, Underway(a, Answered(0, 0, false)), Underway(b, Answered(0, 1, stale)), 2)
    ensures m.resps == n.resps + [Process(gen, Token(0, 1, b % 16), stale)] && m.replies == n.replies
    ensures m.inbox == n.inbox
  {
    assert n.unbundled == [Token(0, 1, b % 16)] + [];
    var n1 := Works(n, gen, Token(0, 1, b % 16), [], stale);
    m := Gathers(n1, Process(gen, Token(0, 1, b % 16), stale));
    var w := [SubmitWork(0), ProcessRequest(0, stale)];
    LeadsOn(StepOf, n, w, n1, [GatherResponse], m);
    steps := w + [GatherResponse];
  }

  lemma SecondRouted(n: Net, gen: DataGen, first: Call, second: Call, r: Resp) returns (m: Net)
    requires Two(n, gen, first, second, 1) && n.inbox == [r] && r.BatchId == 0 && r.Idx == 1 && second.closed == 0
    requires !FateAt(n.off, |RespBody(r)|).Panics?
    ensures Leads(StepOf, n, [RouteNext], m) && m.calls == [first, Closed(second, r, n.off)]
  {
    assert n.inbox == [r] + [];
    m := Routes(n, r, []);
  }

  // ---- A body that is dropped ------------------------------------------------------------------

  lemma BothAnswered(gen: DataGen, a: byte, b: byte) returns (steps: seq<Step>, m: Net)
    ensures Leads(StepOf, Start(gen), steps, m) && |steps| == 15
    ensures Two(m, gen, Underway(a, Answered(0, 0, false)), Underway(b, Answered(0, 1, false)), 2)
    ensures m.inbox == [Process(gen, Token(0, 0, a % 16), false)] + [Process(gen, Token(0, 1, b % 16), false)]
    ensures m.off == 0
  {
    var s, n := FirstAnswered(gen, a, b);
    var more, n1 := SecondAnswered(n, gen, a, b, false);
    var n2 := SendsBack(n1);
    assert n2.replies == [n1.resps] + [];
    m := ComesBack(n2, n1.resps, []);
    LeadsOn(StepOf, Start(gen), s, n, more, n1);
    LeadsOn(StepOf, Start(gen), s + more, n1, [FlushResponses], n2);
    LeadsOn(StepOf, Start(gen), s + more + [FlushResponses], n2, [ReceiveReplies], m);
    steps := s + more + [FlushResponses] + [ReceiveReplies];
  }

  lemma FirstRouted(gen: DataGen) returns (steps: seq<Step>, m: Net)
    requires |gen(0)| == 4096
    ensures Leads(StepOf, Start(gen), steps, m) && |steps| == 16
    ensures var first := Closed(Underway(0, Answered(0, 0, false)), Process(gen, Token(0, 0, 0), false), 0);
            Two(m, gen, first, Underway(4, Answered(0, 1, false)), 1)
    ensures m.inbox == [Process(gen, Token(0, 1, 4), false)] && m.off == 4096
  {
    var r0, r1 := Process(gen, Token(0, 0, 0), false), Process(gen, Token(0, 1, 4), false);
    var s, n := BothAnswered(gen, 0, 4);
    m := Routes(n, r0, [r1]);
    assert n.inflight[0 := Entry([0, 1], 1)] == map[0 := Entry([0, 1], 1)];
    LeadsOn(StepOf, Start(gen), s, n, [RouteNext], m);
    steps := s + [RouteNext];
  }

  lemma BothRouted(gen: DataGen) returns (steps: seq<Step>, m: Net)
    requires |gen(0)| == 4096 && |gen(4)| == CHUNK
    ensures Leads(StepOf, Start(gen), steps, m) && |steps| == 17
    ensures |m.calls| == 2 && m.calls[1].CMD == 4 && m.calls[1].closed == 1 && m.calls[1].resp == Some(Result(0, None))
  {
    var r0, r1 := Process(gen, Token(0, 0, 0), false), Process(gen, Token(0, 1, 4), false);
    var s, n := FirstRouted(gen);
    var first, second := Closed(Underway(0, Answered(0, 0, false)), r0, 0), Underway(4, Answered(0, 1, false));
    m := SecondRouted(n, gen, first, second, r1);
    LeadsOn(StepOf, Start(gen), s, n, [RouteNext], m);
    steps := s + [RouteNext];
  }

  /** Commands 0 and 4 with 4 KiB and 4 MiB of data, answered in one batch: the second caller's
      response is left without its body. */
  lemma SpanningBodyIsNotDelivered(gen: DataGen)
    requires |gen(0)| == 4096 && |gen(4)| == CHUNK
    ensures exists n :: Reachable(n, gen) && |n.calls| == 2 && n.calls[1].CMD == 4 && n.calls[1].closed == 1
                        && n.calls[1].resp == Some(Result(0, None))
  {
    var steps, n := BothRouted(gen);
    IsReachable(gen, steps, n);
  }

  // ---- An error code that stays ------------------------------------------------------------------

  /** The first command was invalid: its response is in the pool now. */
  lemma FirstSentBack(gen: DataGen, a: byte, b: byte) returns (steps: seq<Step>, m: Net)
    requires a % 16 > 4
    ensures Leads(StepOf, Start(gen), steps, m) && |steps| == 11
    ensures Two(m, gen, Underway(a, Answered(0, 0, false)), Underway(b, Asked(0, 1)), 2)
    ensures m.unbundled == [Token(0, 1, b % 16)] && m.working == map[] && m.tainted == 1 && m.respCH == []
    ensures m.resps == [] && m.replies == [[Process(gen, Token(0, 0, a % 16), false)]] && m.inbox == []
  {
    var s, n := FirstAnswered(gen, a, b);
    assert n.resps[1..] == [] && Failed(n.resps) == 1;
    m := SendsBack(n);
    LeadsOn(StepOf, Start(gen), s, n, [FlushResponses], m);
    steps := s + [FlushResponses];
  }

  lemma AnsweredInTurn(gen: DataGen, a: byte, b: byte) returns (steps: seq<Step>, m: Net)
    requires a % 16 > 4
    ensures Leads(StepOf, Start(gen), steps, m) && |steps| == 15
    ensures Two(m, gen, Underway(a, Answered(0, 0, false)), Underway(b, Answered(0, 1, true)), 2)
    ensures m.replies == [[Process(gen, Token(0, 0, a % 16), false)]] + [[Process(gen, Token(0, 1, b % 16), true)]]
    ensures m.inbox == []
  {
    var s, n := FirstSentBack(gen, a, b);
    var more, n1 := SecondAnswered(n, gen, a, b, true);
    assert n1.resps == [Process(gen, Token(0, 1, b % 16), true)];
    m := SendsBack(n1);
    LeadsOn(StepOf, Start(gen), s, n, more, n1);
    LeadsOn(StepOf, Start(gen), s + more, n1, [FlushResponses], m);
    steps := s + more + [FlushResponses];
  }

  /** An invalid command and then a valid one: the server answers the second in the response object
      of the first, and the caller is told that its command is invalid, whatever the data. */
  lemma ValidCommandCanFail(gen: DataGen)
    ensures exists n :: Reachable(n, gen) && |n.calls| == 2 && n.calls[1].CMD == 0 && n.calls[1].closed == 1
                        && n.calls[1].resp == Some(Result(1, Some(INVALID_TEXT)))
  {
    var r0, r1 := Process(gen, Token(0, 0, 15), false), Process(gen, Token(0, 1, 0), true);
    var s, n := AnsweredInTurn(gen, 15, 0);
    var n1 := ComesBack(n, [r0], [[r1]]);
    assert n1.inbox == [r0] + [];
    var n2 := Routes(n1, r0, []);
    assert n2.replies == [[r1]] + [];
    var n3 := ComesBack(n2, [r1], []);
    var first, second := Closed(Underway(15, Answered(0, 0, false)), r0, 0), Underway(0, Answered(0, 1, true));
    assert n3.calls == [first, second];
    var n4 := SecondRouted(n3, gen, first, second, r1);
    LeadsOn(StepOf, Start(gen), s, n, [ReceiveReplies], n1);
    LeadsOn(StepOf, Start(gen), s + [ReceiveReplies], n1, [RouteNext], n2);
    LeadsOn(StepOf, Start(gen), s + [ReceiveReplies] + [RouteNext], n2, [ReceiveReplies], n3);
    LeadsOn(StepOf, Start(gen), s + [ReceiveReplies] + [RouteNext] + [ReceiveReplies], n3, [RouteNext], n4);
    IsReachable(gen, s + [ReceiveReplies] + [RouteNext] + [ReceiveReplies] + [RouteNext], n4);
  }
}
