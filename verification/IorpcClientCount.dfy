/** The accounting of pendingRequestsCount, a uint32 that writers bump after they have
    inserted a call into a pending map and that readers and the final clean-up lower after
    they have taken one out. */
module IorpcClientCount {
  import opened Messages
  import opened MessageIds
  import opened IorpcClient

  predicate Charged(loc: Loc) { loc.Pending? || (loc.Matched? && loc.counted) }

  predicate IsCharged(s: State, o: ObjId) { o in s.objs && Charged(s.objs[o].loc) }

  predicate IsUncounted(s: State, k: ConnId) { k in s.conns && s.conns[k].writer.WRegistered? }

  /** Calls in some pending map, or taken out by a reader that has yet to lower the counter. */
  function Charges(s: State): set<ObjId> { set o | o in s.objs && Charged(s.objs[o].loc) }

  /** Writers between inserting a call and counting it. */
  function Uncounted(s: State): set<ConnId> { set k | k in s.conns && s.conns[k].writer.WRegistered? }

  predicate Balanced(count: nat, uncounted: nat, charges: nat)
  {
    count < UINT32 && (count + uncounted - charges) % UINT32 == 0
  }

  predicate CountOk(s: State) { Balanced(s.count, |Uncounted(s)|, |Charges(s)|) }

  lemma ObjectChanged(s: State, t: State, o: ObjId, b: Obj)
    requires t.objs == s.objs[o := b]
    ensures |Charges(t)| + One(IsCharged(s, o)) == |Charges(s)| + One(Charged(b.loc))
  {
    if Charged(b.loc) {
      assert Charges(t) == Charges(s) + {o};
    } else {
      assert Charges(t) == Charges(s) - {o};
    }
    assert IsCharged(s, o) <==> o in Charges(s);
  }

  lemma ConnChanged(s: State, t: State, k: ConnId, conn: Conn)
    requires t.conns == s.conns[k := conn]
    ensures |Uncounted(t)| + One(IsUncounted(s, k)) == |Uncounted(s)| + One(conn.writer.WRegistered?)
  {
    if conn.writer.WRegistered? {
      assert Uncounted(t) == Uncounted(s) + {k};
    } else {
      assert Uncounted(t) == Uncounted(s) - {k};
    }
    assert IsUncounted(s, k) <==> k in Uncounted(s);
  }

  /** The ways in which a step moves the counter together with what it accounts for. */
  predicate Shift(count: nat, count': nat, objects: int, writers: int)
  {
    || (count' == count && objects == writers)
    || (count' == Increment(count) && objects == 0 && writers == -1)
    || (count' == Decrement(count) && objects == -1 && writers == 0)
  }

  lemma ShiftKeepsBalance(count: nat, count': nat, uncounted: nat, charges: nat, objects: int, writers: int)
    requires Balanced(count, uncounted, charges) && Shift(count, count', objects, writers)
    requires charges + objects >= 0 && uncounted + writers >= 0
    ensures Balanced(count', uncounted + writers, charges + objects)
  {
    var before, after := count + uncounted - charges, count' + uncounted + writers - charges - objects;
    assert after == before || after == before + UINT32 || after == before - UINT32;
  }

  /** A step changes at most one object and one connection. */
  lemma CountAfter(s: State, t: State, o: ObjId, k: ConnId)
    requires CountOk(s)
    requires t.objs == s.objs || (o in t.objs && t.objs == s.objs[o := t.objs[o]])
    requires t.conns == s.conns || (k in t.conns && t.conns == s.conns[k := t.conns[k]])
    requires Shift(s.count, t.count, One(IsCharged(t, o)) - One(IsCharged(s, o)),
                   One(IsUncounted(t, k)) - One(IsUncounted(s, k)))
    ensures CountOk(t)
  {
    if t.objs != s.objs { ObjectChanged(s, t, o, t.objs[o]); } else { assert Charges(t) == Charges(s); }
    if t.conns != s.conns { ConnChanged(s, t, k, t.conns[k]); } else { assert Uncounted(t) == Uncounted(s); }
    ShiftKeepsBalance(s.count, t.count, |Uncounted(s)|, |Charges(s)|,
                      One(IsCharged(t, o)) - One(IsCharged(s, o)), One(IsUncounted(t, k)) - One(IsUncounted(s, k)));
  }
}
