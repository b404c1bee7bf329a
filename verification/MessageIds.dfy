/** Allocation of message identifiers by the client's writer loop: a 64-bit counter that
    skips zero once and then probes upward, with wrap-around, for an identifier that no
    pending call uses. */
module MessageIds {

  const ID_SPACE: nat := 0x1_0000_0000_0000_0000

  type MsgId = n: nat | n < ID_SPACE witness 0

  function Succ(id: MsgId): MsgId { Ahead(id, 1) }

  /** The identifier `d` places after `id`, on the 64-bit circle. */
  function Ahead(id: MsgId, d: nat): MsgId
    requires d < ID_SPACE
  {
    if id + d < ID_SPACE then id + d else id + d - ID_SPACE
  }

  /** Where the probing starts: the increment, with zero skipped. */
  function Start(msgID: MsgId): MsgId { if Succ(msgID) == 0 then 1 else Succ(msgID) }

  /** How many occupied identifiers the search steps over when it starts at `id`. An
      identifier that was stepped over is taken out of the set: it is never seen twice. */
  function Skipped(id: MsgId, used: set<MsgId>): (d: nat)
    ensures d <= |used|
    decreases |used|
  {
    if id in used then 1 + Skipped(Succ(id), used - {id}) else 0
  }

  function NextId(msgID: MsgId, used: set<MsgId>): MsgId
    requires |used| < ID_SPACE
  {
    Ahead(Start(msgID), Skipped(Start(msgID), used))
  }

  /** Pigeonhole: fewer occupied identifiers than places on the circle means that the
      search ends on a free one, and that everything it stepped over was occupied. */
  lemma {:induction false} SearchEnds(id: MsgId, used: set<MsgId>)
    requires |used| < ID_SPACE
    ensures Ahead(id, Skipped(id, used)) !in used
    ensures forall e: nat :: e < Skipped(id, used) ==> Ahead(id, e) in used
    decreases |used|
  {
    if id in used {
      var rest := used - {id};
      SearchEnds(Succ(id), rest);
      var d := Skipped(Succ(id), rest);
      assert d + 1 <= |used|;
      assert Ahead(Succ(id), d) == Ahead(id, d + 1);
      assert Ahead(id, d + 1) != id;
      forall e: nat | e < d + 1 ensures Ahead(id, e) in used {
        if e > 0 { assert Ahead(id, e) == Ahead(Succ(id), e - 1); }
      }
    }
  }

  /** An allocated identifier belongs to no pending call. */
  lemma NextIdIsFree(msgID: MsgId, used: set<MsgId>)
    requires |used| < ID_SPACE
    ensures NextId(msgID, used) !in used
  {
    SearchEnds(Start(msgID), used);
  }

  /** Before the counter wraps, identifiers only grow and are never zero. */
  lemma NextIdGrows(msgID: MsgId, used: set<MsgId>)
    requires msgID + 1 + |used| < ID_SPACE
    ensures msgID < NextId(msgID, used) <= msgID + 1 + |used|
  {
    var d := Skipped(Start(msgID), used);
    assert Start(msgID) == msgID + 1;
    assert d <= |used|;
  }

  /** Zero, which the server takes to mean "no answer wanted", is handed out exactly when
      everything from the starting point up to the top of the range is occupied and zero
      is not. */
  lemma NextIdIsZeroExactlyWhen(msgID: MsgId, used: set<MsgId>)
    requires |used| < ID_SPACE
    ensures NextId(msgID, used) == 0
       <==> 0 !in used && forall id: MsgId :: Start(msgID) <= id ==> id in used
  {
    var first := Start(msgID);
    var d := Skipped(first, used);
    SearchEnds(first, used);
    if NextId(msgID, used) == 0 {
      forall id: MsgId | first <= id ensures id in used {
        assert Ahead(first, id - first) == id;
      }
    } else if forall id: MsgId :: first <= id ==> id in used {
      // the search cannot stop before the top, and cannot pass zero
      assert d <= ID_SPACE - first ==> 0 in used;
      if d > ID_SPACE - first {
        assert Ahead(first, ID_SPACE - first) == 0;
      }
    }
  }

  /** A concrete case: the counter sits one below the top and the top is taken. */
  lemma ZeroCanBeHandedOut()
    ensures NextId(ID_SPACE - 2, {ID_SPACE - 1}) == 0
  {
    var top: MsgId := ID_SPACE - 1;
    var used: set<MsgId> := {top};
    assert used - {top} == {};
    assert Skipped(top, used) == 1;
  }

  /** The loop of the writer, run under the lock of the pending map. The counter is left on
      the identifier handed out. */
  method Allocate<T>(msgID: MsgId, pending: map<MsgId, T>) returns (id: MsgId)
    requires |pending| < ID_SPACE
    ensures id == NextId(msgID, pending.Keys)
    ensures id !in pending
  {
    id := Succ(msgID);
    if id == 0 {
      id := 1;
    }
    ghost var first, k, d := id, 0, Skipped(id, pending.Keys);
    assert |pending.Keys| == |pending|;
    SearchEnds(first, pending.Keys);
    while id in pending
      invariant k <= d < ID_SPACE && id == Ahead(first, k)
      decreases d - k
    {
      id := Succ(id);
      k := k + 1;
    }
  }
}
