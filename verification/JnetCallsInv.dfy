/** Every step of a jnet connection keeps the invariant of JnetCalls. */
module JnetCallsInv {
  import opened Messages
  import opened JnetWire
  import opened JnetBodies
  import opened JnetCalls

  lemma SameOutstanding(calls: seq<Call>, calls': seq<Call>, reqs: seq<nat>)
    requires forall i :: 0 <= i < |reqs| ==>
               && reqs[i] < |calls| && reqs[i] < |calls'|
               && (calls[reqs[i]].place.Completed? <==> calls'[reqs[i]].place.Completed?)
    ensures Outstanding(calls', reqs) == Outstanding(calls, reqs)
  {
  }

  lemma AskKeepsInv(s: State, CMD: byte)
    requires Inv(s)
    ensures Inv(DoAsk(s, CMD))
  {
    var t := DoAsk(s, CMD);
    forall i | 0 <= i < |t.waiting|
      ensures WaitingOk(t, i) && (i < |s.waiting| ==> t.waiting[i] != |s.calls|)
    {
      if i < |s.waiting| {
        assert WaitingOk(s, i);
      }
    }
    forall i | 0 <= i < |t.asked| ensures AskedOk(t, i) { assert AskedOk(s, i); }
    forall w | w in t.working ensures WorkingOk(t, w) { assert WorkingOk(s, w); }
    forall i | 0 <= i < |t.answered| ensures AnsweredOk(t, i) { assert AnsweredOk(s, i); }
    forall c | 0 <= c < |t.calls| ensures CallOk(t, c) {
      if c < |s.calls| {
        assert CallOk(s, c);
      }
    }
    forall k | k in t.inflight ensures EntryOk(t, k) {
      assert EntryOk(s, k);
      SameOutstanding(s.calls, t.calls, s.inflight[k].reqs);
    }
  }

  // ---- A batch leaves ---------------------------------------------------------------------

  lemma IndexIsUnique(reqs: seq<nat>, i: nat)
    requires Distinct(reqs) && i < |reqs|
    ensures reqs[i] in reqs && IndexOf(reqs, reqs[i]) == i
  {
  }

  /** What shipping does to each call. */
  lemma Shipped(s: State, n: nat)
    requires Inv(s) && Enabled(s, Flush(n))
    ensures var t, reqs := DoFlush(s, n), s.waiting[..n];
            && (forall i :: 0 <= i < n ==>
                  reqs[i] < |s.calls| && t.calls[reqs[i]] == s.calls[reqs[i]].(place := Asked(s.nextCookie, i)))
            && (forall c :: 0 <= c < |s.calls| && !s.calls[c].place.Waiting? ==> t.calls[c] == s.calls[c])
            && (forall c :: 0 <= c < |s.calls| && c !in reqs ==> t.calls[c] == s.calls[c])
  {
    var t, reqs := DoFlush(s, n), s.waiting[..n];
    forall i | 0 <= i < n
      ensures reqs[i] < |s.calls| && t.calls[reqs[i]] == s.calls[reqs[i]].(place := Asked(s.nextCookie, i))
    {
      assert WaitingOk(s, i);
      IndexIsUnique(reqs, i);
    }
    forall c | 0 <= c < |s.calls| && c in reqs ensures s.calls[c].place.Waiting? {
      assert WaitingOk(s, IndexOf(reqs, c));
    }
  }

  lemma FlushKeepsWaiting(s: State, n: nat)
    requires Inv(s) && Enabled(s, Flush(n))
    ensures var t := DoFlush(s, n);
            Distinct(t.waiting) && forall i {:trigger WaitingOk(t, i)} :: 0 <= i < |t.waiting| ==> WaitingOk(t, i)
  {
    var t := DoFlush(s, n);
    Shipped(s, n);
    forall i | 0 <= i < |t.waiting| ensures WaitingOk(t, i) {
      assert WaitingOk(s, n + i);
      assert t.waiting[i] !in s.waiting[..n];
    }
  }

  lemma FlushKeepsAsked(s: State, n: nat)
    requires Inv(s) && Enabled(s, Flush(n)) && s.nextCookie !in s.inflight
    ensures var t := DoFlush(s, n); forall i {:trigger AskedOk(t, i)} :: 0 <= i < |t.asked| ==> AskedOk(t, i)
  {
    var t := DoFlush(s, n);
    Shipped(s, n);
    forall i | 0 <= i < |t.asked| ensures AskedOk(t, i) {
      if i < |s.asked| {
        assert AskedOk(s, i);
      } else {
        var j := i - |s.asked|;
        assert t.asked[i] == Token(s.nextCookie, j, s.calls[s.waiting[j]].CMD % 16);
        assert CallAt(t, s.nextCookie, j) == s.waiting[j];
      }
    }
  }

  lemma FlushKeepsOthers(s: State, n: nat)
    requires Inv(s) && Enabled(s, Flush(n)) && s.nextCookie !in s.inflight
    ensures var t := DoFlush(s, n);
            && (forall w {:trigger WorkingOk(t, w)} :: w in t.working ==> WorkingOk(t, w))
            && (forall i {:trigger AnsweredOk(t, i)} :: 0 <= i < |t.answered| ==> AnsweredOk(t, i))
  {
    var t := DoFlush(s, n);
    Shipped(s, n);
    forall w | w in t.working ensures WorkingOk(t, w) { assert WorkingOk(s, w); }
    forall i | 0 <= i < |t.answered| ensures AnsweredOk(t, i) { assert AnsweredOk(s, i); }
  }

  lemma FlushKeepsDistinct(s: State, n: nat)
    requires Inv(s) && Enabled(s, Flush(n)) && s.nextCookie !in s.inflight
    ensures Distinct(DoFlush(s, n).asked)
  {
    var t := DoFlush(s, n);
    var ts := Tokens(s.calls, s.waiting[..n], s.nextCookie);
    forall i, j | 0 <= i < j < |t.asked| ensures t.asked[i] != t.asked[j] {
      if i < |s.asked| {
        assert AskedOk(s, i);
      }
    }
  }

  lemma FlushKeepsCalls(s: State, n: nat)
    requires Inv(s) && Enabled(s, Flush(n)) && s.nextCookie !in s.inflight
    ensures var t := DoFlush(s, n); forall c {:trigger CallOk(t, c)} :: 0 <= c < |t.calls| ==> CallOk(t, c)
  {
    var t, reqs := DoFlush(s, n), s.waiting[..n];
    Shipped(s, n);
    forall c | 0 <= c < |t.calls| ensures CallOk(t, c) {
      assert CallOk(s, c);
      if c in reqs {
        var i := IndexOf(reqs, c);
        assert t.asked[|s.asked| + i] == TokenOf(t.calls[c], s.nextCookie, i);
        assert WaitingOk(s, i);
      } else if s.calls[c].place.Waiting? {
        assert s.waiting == reqs + t.waiting;
      }
    }
  }

  lemma FlushKeepsEntries(s: State, n: nat)
    requires Inv(s) && Enabled(s, Flush(n)) && s.nextCookie !in s.inflight
    ensures var t := DoFlush(s, n); forall k {:trigger EntryOk(t, k)} :: k in t.inflight ==> EntryOk(t, k)
  {
    var t, reqs := DoFlush(s, n), s.waiting[..n];
    Shipped(s, n);
    forall k | k in t.inflight ensures EntryOk(t, k) {
      if k == s.nextCookie {
        assert Outstanding(t.calls, reqs) == Upto(n);
      } else {
        assert EntryOk(s, k);
        SameOutstanding(s.calls, t.calls, s.inflight[k].reqs);
      }
    }
  }

  function Upto(n: nat): (r: set<nat>)
    ensures |r| == n && forall i :: i in r <==> 0 <= i < n
  {
    if n == 0 then {} else Upto(n - 1) + {n - 1}
  }

  lemma FlushKeepsInv(s: State, n: nat)
    requires Inv(s) && Enabled(s, Flush(n)) && s.nextCookie !in s.inflight
    ensures Inv(DoFlush(s, n))
  {
    FlushKeepsWaiting(s, n);
    FlushKeepsAsked(s, n);
    FlushKeepsOthers(s, n);
    FlushKeepsDistinct(s, n);
    FlushKeepsCalls(s, n);
    FlushKeepsEntries(s, n);
  }

  /** A cookie still in flight would be taken over by the new batch, and the requests that wait
      under it would never be found again: the condition cannot be dropped. */
  lemma FlushKeepsInvExactlyWhen(s: State, n: nat)
    requires Inv(s) && Enabled(s, Flush(n))
    ensures Inv(DoFlush(s, n)) <==> s.nextCookie !in s.inflight
  {
    var k := s.nextCookie;
    if k !in s.inflight {
      FlushKeepsInv(s, n);
    } else {
      var t := DoFlush(s, n);
      Shipped(s, n);
      assert EntryOk(s, k);
      var i :| i in Outstanding(s.calls, s.inflight[k].reqs);
      var c := s.inflight[k].reqs[i];
      assert At(s.calls[c].place, k, i) && t.calls[c] == s.calls[c];
      assert !Filed(t, k, i, c) by {
        if i < n {
          assert WaitingOk(s, i);
        }
      }
      assert !CallOk(t, c);
    }
  }

  // ---- A worker takes a request, and answers it --------------------------------------------

  lemma TakeKeepsInv(s: State, w: nat)
    requires Inv(s) && Enabled(s, Take(w))
    ensures Inv(DoTake(s, w))
  {
    var t := DoTake(s, w);
    var tok := s.asked[0];
    assert AskedOk(s, 0);
    var x := CallAt(s, tok.cookie, tok.idx);
    assert t.calls == s.calls[x := s.calls[x].(place := Working(tok.cookie, tok.idx, w))];
    forall i | 0 <= i < |t.waiting| ensures WaitingOk(t, i) { assert WaitingOk(s, i); }
    forall i | 0 <= i < |t.asked| ensures AskedOk(t, i) {
      assert AskedOk(s, i + 1);
      assert s.asked[i + 1] != s.asked[0];
    }
    forall v | v in t.working ensures WorkingOk(t, v) {
      if v != w {
        assert WorkingOk(s, v);
      }
    }
    forall i | 0 <= i < |t.answered| ensures AnsweredOk(t, i) { assert AnsweredOk(s, i); }
    forall c | 0 <= c < |t.calls| ensures CallOk(t, c) {
      assert CallOk(s, c);
      assert s.asked == [tok] + t.asked;
    }
    forall k | k in t.inflight ensures EntryOk(t, k) {
      assert EntryOk(s, k);
      SameOutstanding(s.calls, t.calls, s.inflight[k].reqs);
    }
  }

  /** What answering does to each call. */
  lemma Answers(s: State, w: nat, stale: bool)
    requires Inv(s) && Enabled(s, Answer(w, stale))
    ensures var t, tok := DoAnswer(s, w, stale), s.working[w];
            var x := CallAt(s, tok.cookie, tok.idx);
            && WorkingOk(s, w) && Filed(s, tok.cookie, tok.idx, x)
            && t.calls == s.calls[x := s.calls[x].(place := Answered(tok.cookie, tok.idx, stale))]
  {
    assert WorkingOk(s, w);
  }

  lemma AnswerKeepsOthers(s: State, w: nat, stale: bool)
    requires Inv(s) && Enabled(s, Answer(w, stale))
    ensures var t := DoAnswer(s, w, stale);
            && (forall i {:trigger WaitingOk(t, i)} :: 0 <= i < |t.waiting| ==> WaitingOk(t, i))
            && (forall i {:trigger AskedOk(t, i)} :: 0 <= i < |t.asked| ==> AskedOk(t, i))
            && (forall v {:trigger WorkingOk(t, v)} :: v in t.working ==> WorkingOk(t, v))
  {
    var t := DoAnswer(s, w, stale);
    Answers(s, w, stale);
    forall i | 0 <= i < |t.waiting| ensures WaitingOk(t, i) { assert WaitingOk(s, i); }
    forall i | 0 <= i < |t.asked| ensures AskedOk(t, i) { assert AskedOk(s, i); }
    forall v | v in t.working ensures WorkingOk(t, v) { assert WorkingOk(s, v); }
  }

  lemma AnswerKeepsAnswered(s: State, w: nat, stale: bool)
    requires Inv(s) && Enabled(s, Answer(w, stale))
    ensures var t := DoAnswer(s, w, stale);
            LinesOk(t) && forall i {:trigger AnsweredOk(t, i)} :: 0 <= i < |t.answered| ==> AnsweredOk(t, i)
  {
    var t := DoAnswer(s, w, stale);
    Answers(s, w, stale);
    forall i | 0 <= i < |t.answered|
      ensures AnsweredOk(t, i) && (i < |s.answered| ==> t.answered[i] != Process(s.gen, s.working[w], stale))
    {
      if i < |s.answered| {
        assert AnsweredOk(s, i);
      }
    }
  }

  lemma AnswerKeepsInv(s: State, w: nat, stale: bool)
    requires Inv(s) && Enabled(s, Answer(w, stale))
    ensures Inv(DoAnswer(s, w, stale))
  {
    var t := DoAnswer(s, w, stale);
    Answers(s, w, stale);
    AnswerKeepsOthers(s, w, stale);
    AnswerKeepsAnswered(s, w, stale);
    forall c | 0 <= c < |t.calls| ensures CallOk(t, c) { assert CallOk(s, c); }
    forall k | k in t.inflight ensures EntryOk(t, k) {
      assert EntryOk(s, k);
      SameOutstanding(s.calls, t.calls, s.inflight[k].reqs);
    }
  }

  // ---- An answer is routed ------------------------------------------------------------------

  predicate Comes(s: State, off: nat)
  {
    Enabled(s, Complete(off)) && !FateAt(off, |RespBody(s.answered[0])|).Panics?
  }

  /** The first answer finds its batch and its call; no branch for something missing is taken. */
  lemma RouteFinds(s: State, off: nat)
    requires Inv(s) && Comes(s, off)
    ensures var r := s.answered[0];
            var c, k, i := CallAt(s, r.BatchId, r.Idx), r.BatchId, r.Idx as nat;
            && Filed(s, k, i, c) && s.calls[c].place.Answered? && At(s.calls[c].place, k, i) && s.calls[c].closed == 0
            && ResultOf(r, off) == Given(s.gen, s.calls[c].CMD, s.calls[c].place.stale, off)
            && !Route(s.calls, s.inflight, r, off).panicked
            && DoComplete(s, off).calls == s.calls[c := Closed(s.calls[c], r, off)]
            && DoComplete(s, off).inflight == if s.inflight[k].left == 1 then s.inflight - {k}
                                              else s.inflight[k := Entry(s.inflight[k].reqs, s.inflight[k].left - 1)]
  {
    var r := s.answered[0];
    assert AnsweredOk(s, 0);
    var c := CallAt(s, r.BatchId, r.Idx);
    assert CallOk(s, c);
    GetsItsOwn(s.gen, TokenOf(s.calls[c], r.BatchId, r.Idx), s.calls[c].CMD, s.calls[c].place.stale, off);
  }

  lemma GetsItsOwn(gen: DataGen, t: Token, CMD: byte, stale: bool, off: nat)
    requires t.CMD == CMD % 16 && off <= CHUNK
    ensures ResultOf(Process(gen, t, stale), off) == Given(gen, CMD, stale, off)
    ensures FateAt(off, |RespBody(Process(gen, t, stale))|).Panics?
       <==> t.CMD <= 4 && !stale && (gen(t.CMD) == [] || off + |gen(t.CMD)| > 2 * CHUNK)
  {
  }

  /** The reader panics exactly on data: when there is none, or too much for a second chunk. */
  lemma RoutePanicsExactlyWhen(s: State, off: nat)
    requires Inv(s) && Enabled(s, Complete(off))
    ensures var r := s.answered[0];
            var c := CallAt(s, r.BatchId, r.Idx);
            && Filed(s, r.BatchId, r.Idx, c) && s.calls[c].place.Answered? && At(s.calls[c].place, r.BatchId, r.Idx)
            && (DoComplete(s, off).panicked <==> !Comes(s, off))
            && (DoComplete(s, off).panicked <==>
                  var CMD := s.calls[c].CMD % 16;
                  CMD <= 4 && !s.calls[c].place.stale && (s.gen(CMD) == [] || off + |s.gen(CMD)| > 2 * CHUNK))
  {
    var r := s.answered[0];
    assert AnsweredOk(s, 0);
    var c := CallAt(s, r.BatchId, r.Idx);
    GetsItsOwn(s.gen, TokenOf(s.calls[c], r.BatchId, r.Idx), s.calls[c].CMD, s.calls[c].place.stale, off);
    if Comes(s, off) {
      RouteFinds(s, off);
    }
  }

  lemma RouteKeepsLines(s: State, off: nat)
    requires Inv(s) && Comes(s, off)
    ensures var t := DoComplete(s, off);
            && LinesOk(t)
            && (forall i {:trigger WaitingOk(t, i)} :: 0 <= i < |t.waiting| ==> WaitingOk(t, i))
            && (forall i {:trigger AskedOk(t, i)} :: 0 <= i < |t.asked| ==> AskedOk(t, i))
            && (forall w {:trigger WorkingOk(t, w)} :: w in t.working ==> WorkingOk(t, w))
            && (forall i {:trigger AnsweredOk(t, i)} :: 0 <= i < |t.answered| ==> AnsweredOk(t, i))
  {
    var t := DoComplete(s, off);
    RouteFinds(s, off);
    EntryGoesLast(s, off);
    forall i | 0 <= i < |t.waiting| ensures WaitingOk(t, i) { assert WaitingOk(s, i); }
    forall i | 0 <= i < |t.asked| ensures AskedOk(t, i) { assert AskedOk(s, i); }
    forall w | w in t.working ensures WorkingOk(t, w) { assert WorkingOk(s, w); }
    forall i | 0 <= i < |t.answered| ensures AnsweredOk(t, i) {
      assert AnsweredOk(s, 0) && AnsweredOk(s, i + 1);
      assert s.answered[i + 1] != s.answered[0];
    }
  }

  /** An entry is deleted only when all its calls but the one at hand are completed. */
  lemma EntryGoesLast(s: State, off: nat)
    requires Inv(s) && Comes(s, off)
    ensures var r := s.answered[0];
            r.BatchId in s.inflight
            && Outstanding(DoComplete(s, off).calls, s.inflight[r.BatchId].reqs)
               == Outstanding(s.calls, s.inflight[r.BatchId].reqs) - {r.Idx as nat}
            && r.Idx in Outstanding(s.calls, s.inflight[r.BatchId].reqs)
            && (s.inflight[r.BatchId].left == 1 ==>
                 forall c: nat, i: nat :: Filed(s, r.BatchId, i, c) && !s.calls[c].place.Completed? ==> i == r.Idx)
  {
    RouteFinds(s, off);
    var r := s.answered[0];
    var k, reqs := r.BatchId, s.inflight[r.BatchId].reqs;
    assert EntryOk(s, k);
    forall i | 0 <= i < |reqs| ensures reqs[i] == reqs[r.Idx] <==> i == r.Idx {
      assert At(s.calls[reqs[i]].place, k, i) && At(s.calls[reqs[r.Idx]].place, k, r.Idx);
    }
    if s.inflight[k].left == 1 {
      OnlyOne(Outstanding(s.calls, reqs), r.Idx);
      forall c: nat, i: nat | Filed(s, k, i, c) && !s.calls[c].place.Completed? ensures i == r.Idx {
        assert i in Outstanding(s.calls, reqs);
      }
    }
  }

  lemma OnlyOne(a: set<nat>, x: nat)
    requires x in a && |a| == 1
    ensures a == {x}
  {
    assert |a - {x}| == 0;
  }

  /** A call that is still filed stays filed when another one is completed. */
  lemma StaysFiled(s: State, off: nat, k: uint64, i: nat, c: nat)
    requires Inv(s) && Comes(s, off)
    requires Filed(s, k, i, c) && !s.calls[c].place.Completed?
    requires var r := s.answered[0]; c != CallAt(s, r.BatchId, r.Idx)
    ensures Filed(DoComplete(s, off), k, i, c)
  {
    RouteFinds(s, off);
    EntryGoesLast(s, off);
  }

  lemma OthersStay(s: State, off: nat, c: nat)
    requires Inv(s) && Comes(s, off) && c < |s.calls|
    requires var r := s.answered[0]; c != CallAt(s, r.BatchId, r.Idx)
    ensures DoComplete(s, off).calls[c] == s.calls[c] && CallOk(DoComplete(s, off), c)
  {
    var t := DoComplete(s, off);
    RouteFinds(s, off);
    assert CallOk(s, c);
    var p := s.calls[c].place;
    if !p.Waiting? && !p.Completed? {
      StaysFiled(s, off, p.cookie, p.idx, c);
    }
    if p.Answered? {
      StillAnswered(s, c);
    }
  }

  lemma StillAnswered(s: State, c: nat)
    requires Inv(s) && s.answered != [] && c < |s.calls| && s.calls[c].place.Answered?
    requires var r := s.answered[0]; c != CallAt(s, r.BatchId, r.Idx)
    ensures var p := s.calls[c].place; Process(s.gen, TokenOf(s.calls[c], p.cookie, p.idx), p.stale) in s.answered[1..]
  {
    assert CallOk(s, c);
    var p := s.calls[c].place;
    var r := Process(s.gen, TokenOf(s.calls[c], p.cookie, p.idx), p.stale);
    assert r.BatchId == p.cookie && r.Idx == p.idx && CallAt(s, r.BatchId, r.Idx) == c;
    assert s.answered == [s.answered[0]] + s.answered[1..];
  }

  lemma RouteKeepsCalls(s: State, off: nat)
    requires Inv(s) && Comes(s, off)
    ensures var t := DoComplete(s, off); forall c {:trigger CallOk(t, c)} :: 0 <= c < |t.calls| ==> CallOk(t, c)
  {
    var t := DoComplete(s, off);
    RouteFinds(s, off);
    var r := s.answered[0];
    forall c | 0 <= c < |t.calls| ensures CallOk(t, c) {
      if c != CallAt(s, r.BatchId, r.Idx) {
        OthersStay(s, off, c);
      }
    }
  }

  lemma RouteKeepsEntries(s: State, off: nat)
    requires Inv(s) && Comes(s, off)
    ensures var t := DoComplete(s, off); forall k {:trigger EntryOk(t, k)} :: k in t.inflight ==> EntryOk(t, k)
  {
    var t := DoComplete(s, off);
    RouteFinds(s, off);
    EntryGoesLast(s, off);
    var r := s.answered[0];
    forall k | k in t.inflight ensures EntryOk(t, k) {
      assert EntryOk(s, k);
      var reqs := s.inflight[k].reqs;
      if k != r.BatchId {
        forall i | 0 <= i < |reqs| ensures reqs[i] != CallAt(s, r.BatchId, r.Idx) {
          assert At(s.calls[reqs[i]].place, k, i);
        }
        SameOutstanding(s.calls, t.calls, reqs);
      }
    }
  }

  lemma CompleteKeepsInv(s: State, off: nat)
    requires Inv(s) && Comes(s, off)
    ensures Inv(DoComplete(s, off))
  {
    RouteKeepsLines(s, off);
    RouteKeepsCalls(s, off);
    RouteKeepsEntries(s, off);
  }
}
