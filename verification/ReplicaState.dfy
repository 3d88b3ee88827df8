/** Stores and servers that are equal up to the expiry times of their leases, which every server takes from its
    own clock. */
module ReplicaState {
  import opened RaftTypes
  import opened Keys
  import opened MvccSpec
  import opened ApplySpec
  import L = MvccLease
  import T = MvccTxn

  /** The store with every expiry time forgotten. */
  function Timeless(st: State): State {
    st.(leases := map id | id in st.leases :: st.leases[id].(expireAt := 0))
  }

  /** Equal data, index, events, revisions, bindings, and leases up to their expiry times. */
  predicate Alike(a: State, b: State) {
    Timeless(a) == Timeless(b)
  }

  /** Alike stores answer every read alike and have the same leases, with the same keys. */
  lemma AlikeReads(a: State, b: State, k: Key, rev: int, start: Key, end: Key, id: int)
    requires Alike(a, b)
    ensures Get(a, k, rev) == Get(b, k, rev) && T.LastRev(a, k) == T.LastRev(b, k)
    ensures Range(a, start, end, rev) == Range(b, start, end, rev)
    ensures L.HeldBy(a, k, id) <==> L.HeldBy(b, k, id)
    ensures id in a.leases <==> id in b.leases
  {
    assert Timeless(a).data == Timeless(b).data && Timeless(a).leases == Timeless(b).leases;
    assert id in a.leases <==> id in Timeless(a).leases;
    assert id in b.leases <==> id in Timeless(b).leases;
    SameCollect(a, b, Between(RangeKeys(a.sortedKeys, start, end), start, end), if rev == 0 then a.currentRev else rev);
  }

  lemma {:induction false} SameCollect(a: State, b: State, keys: seq<Key>, rev: int)
    requires a.data == b.data
    ensures Collect(a, keys, rev) == Collect(b, keys, rev)
  {
    if keys != [] { SameCollect(a, b, keys[1..], rev); }
  }

  // ---------- operations do not depend on expiry times ----------

  lemma TimelessAppend(st: State, w: Write)
    ensures Timeless(Append(st, w)) == Append(Timeless(st), w)
  {
  }

  lemma TimelessBound(st: State, k: Key, id: int)
    requires id != 0 ==> id in st.leases
    ensures Timeless(Bound(st, k, id)) == Bound(Timeless(st), k, id)
  {
    assert Timeless(Bound(st, k, id)).leases == Bound(Timeless(st), k, id).leases;
  }

  lemma TimelessDelete(st: State, k: Key)
    ensures Timeless(Delete(st, k).0) == Delete(Timeless(st), k).0
  {
    TimelessAppend(st, Write(k, [], true));
    TimelessBound(Append(st, Write(k, [], true)), k, 0);
  }

  lemma {:induction false} TimelessDeleteAll(st: State, keys: seq<Key>)
    ensures Timeless(DeleteAll(st, keys)) == DeleteAll(Timeless(st), keys)
    decreases |keys|
  {
    if keys != [] {
      TimelessDelete(st, keys[0]);
      TimelessDeleteAll(Delete(st, keys[0]).0, keys[1..]);
    }
  }

  lemma TimelessRevoke(st: State, id: int, order: seq<Key>)
    ensures Timeless(Revoke(st, id, order).0) == Revoke(Timeless(st), id, order).0
    ensures Revoke(st, id, order).1 == Revoke(Timeless(st), id, order).1
  {
    if id in st.leases {
      var st1 := st.(leases := st.leases - {id});
      assert Timeless(st1).leases == Timeless(st).leases - {id};
      TimelessDeleteAll(st1, order);
    }
  }

  lemma TimelessGrant(st: State, ttl: int, now: int)
    ensures Timeless(Grant(st, ttl, now).0) == Timeless(Grant(Timeless(st), ttl, 0).0)
  {
    assert Timeless(Grant(st, ttl, now).0).leases == Timeless(Grant(Timeless(st), ttl, 0).0).leases;
  }

  lemma TimelessKeepAlive(st: State, id: int, now: int)
    ensures Timeless(KeepAlive(st, id, now).0) == Timeless(st)
  {
    assert Timeless(KeepAlive(st, id, now).0).leases == Timeless(st).leases;
  }

  lemma TimelessExecOp(st: State, op: T.Operation)
    requires op.OpPut? && op.leaseID != 0 ==> op.leaseID in st.leases
    ensures Timeless(T.ExecOp(st, op)) == T.ExecOp(Timeless(st), op)
  {
    match op
    case OpPut(k, v, id) =>
      TimelessAppend(st, Write(k, v, false));
      TimelessBound(Append(st, Write(k, v, false)), k, id);
    case OpDelete(k) => TimelessDelete(st, k);
    case _ =>
  }

  lemma {:induction false} TimelessExec(st: State, ops: seq<T.Operation>)
    requires T.LeasesKnown(st, ops)
    ensures T.LeasesKnown(Timeless(st), ops)
    ensures T.Exec(Timeless(st), ops) == (Timeless(T.Exec(st, ops).0), T.Exec(st, ops).1)
    decreases |ops|
  {
    if ops != [] {
      T.ExecKeepsLeases(st, ops[0]);
      TimelessExecOp(st, ops[0]);
      TimelessExec(T.ExecOp(st, ops[0]), ops[1..]);
    }
  }

  lemma TimelessBranch(st: State, t: T.Txn)
    ensures T.Branch(Timeless(st), t) == T.Branch(st, t)
    ensures forall i :: 0 <= i < |t.compares| ==> T.Passes(Timeless(st), t.compares[i]) == T.Passes(st, t.compares[i])
  {
  }

  // ---------- what a transaction's lease check depends on ----------

  predicate IsLate(st: State, id: int, now: int) {
    id in st.leases && now > st.leases[id].expireAt
  }

  predicate LatePut(st: State, op: T.Operation, now: int) {
    op.OpPut? && op.leaseID != 0 && IsLate(st, op.leaseID, now)
  }

  predicate UnknownPut(st: State, op: T.Operation) {
    op.OpPut? && op.leaseID != 0 && op.leaseID !in st.leases
  }

  /** Some put names an expired lease and no put before it names an unknown one. */
  predicate SomeLate(st: State, ops: seq<T.Operation>, now: int) {
    exists i :: 0 <= i < |ops| && LatePut(st, ops[i], now) && forall j :: 0 <= j < i ==> !UnknownPut(st, ops[j])
  }

  lemma SomeLateFirst(st: State, ops: seq<T.Operation>, now: int)
    requires ops != []
    ensures SomeLate(st, ops, now) <==>
      LatePut(st, ops[0], now) || (!UnknownPut(st, ops[0]) && SomeLate(st, ops[1..], now))
  {
    if i :| 0 <= i < |ops| && LatePut(st, ops[i], now) && forall j :: 0 <= j < i ==> !UnknownPut(st, ops[j]) {
      if i > 0 {
        assert !UnknownPut(st, ops[0]);
        assert LatePut(st, ops[1..][i - 1], now) && forall j :: 0 <= j < i - 1 ==> ops[1..][j] == ops[j + 1];
      }
    }
    if !UnknownPut(st, ops[0]) && SomeLate(st, ops[1..], now) {
      var i :| 0 <= i < |ops[1..]| && LatePut(st, ops[1..][i], now)
        && forall j :: 0 <= j < i ==> !UnknownPut(st, ops[1..][j]);
      assert LatePut(st, ops[i + 1], now);
      forall j | 0 <= j < i + 1 ensures !UnknownPut(st, ops[j]) { if j > 0 { assert ops[1..][j - 1] == ops[j]; } }
    }
  }

  lemma {:induction false} FirstBadIs(st: State, ops: seq<T.Operation>, now: int)
    ensures T.FirstBad(st, ops, now) ==
      if SomeLate(st, ops, now) then Some(LeaseExpired)
      else if exists i :: 0 <= i < |ops| && UnknownPut(st, ops[i]) then Some(LeaseNotFound)
      else None
  {
    if ops != [] {
      FirstBadIs(st, ops[1..], now);
      SomeLateFirst(st, ops, now);
      assert (exists i :: 0 <= i < |ops| && UnknownPut(st, ops[i])) <==>
        UnknownPut(st, ops[0]) || exists i :: 0 <= i < |ops[1..]| && UnknownPut(st, ops[1..][i]) by {
        if i :| 0 <= i < |ops| && UnknownPut(st, ops[i]) { if i > 0 { assert UnknownPut(st, ops[1..][i - 1]); } }
        if i :| 0 <= i < |ops[1..]| && UnknownPut(st, ops[1..][i]) { assert UnknownPut(st, ops[i + 1]); }
      }
    }
  }

  // ---------- the order of a revoke ----------

  function TombstoneEvents(keys: seq<Key>, rev: nat): (es: seq<Event>)
    ensures |es| == |keys| && forall i :: 0 <= i < |keys| ==> es[i] == Event(EventDelete, keys[i], [], rev + i + 1)
  {
    seq(|keys|, i requires 0 <= i < |keys| => Event(EventDelete, keys[i], [], rev + i + 1))
  }

  lemma DeleteEvent(st: State, k: Key)
    ensures Delete(st, k).0.events == st.events + [Event(EventDelete, k, [], st.currentRev + 1)]
    ensures Delete(st, k).0.currentRev == st.currentRev + 1
  {
  }

  lemma TombstonesSplit(es: seq<Event>, keys: seq<Key>, rev: nat)
    requires keys != []
    ensures es + [Event(EventDelete, keys[0], [], rev + 1)] + TombstoneEvents(keys[1..], rev + 1)
      == es + TombstoneEvents(keys, rev)
  {
    var first, rest := [Event(EventDelete, keys[0], [], rev + 1)], TombstoneEvents(keys[1..], rev + 1);
    assert TombstoneEvents(keys, rev) == first + rest;
    T.ConcatAssociative(es, first, rest);
  }

  lemma {:induction false} DeleteAllEvents(st: State, keys: seq<Key>)
    ensures DeleteAll(st, keys).events == st.events + TombstoneEvents(keys, st.currentRev)
    decreases |keys|
  {
    if keys == [] {
      assert TombstoneEvents(keys, st.currentRev) == [];
    } else {
      DeleteEvent(st, keys[0]);
      DeleteAllEvents(Delete(st, keys[0]).0, keys[1..]);
      TombstonesSplit(st.events, keys, st.currentRev);
    }
  }

  lemma SameTombstones(es: seq<Event>, o1: seq<Key>, o2: seq<Key>, rev: nat)
    requires es + TombstoneEvents(o1, rev) == es + TombstoneEvents(o2, rev)
    ensures o1 == o2
  {
    var a, b := es + TombstoneEvents(o1, rev), es + TombstoneEvents(o2, rev);
    assert |a| == |b|;
    forall i | 0 <= i < |o1| ensures o1[i] == o2[i] { assert a[|es| + i] == b[|es| + i]; }
  }

  /** Two revokes of one lease leave the same store if and only if they visited its keys in the same order. */
  lemma OrderMattersIff(st: State, id: int, o1: seq<Key>, o2: seq<Key>)
    requires id in st.leases
    ensures Revoke(st, id, o1).0 == Revoke(st, id, o2).0 <==> o1 == o2
  {
    var st1 := st.(leases := st.leases - {id});
    DeleteAllEvents(st1, o1);
    DeleteAllEvents(st1, o2);
    if Revoke(st, id, o1).0 == Revoke(st, id, o2).0 { SameTombstones(st.events, o1, o2, st.currentRev); }
  }

  /** A lease with at most one key has one order. */
  lemma OneKeyOneOrder(keys: set<Key>, o1: seq<Key>, o2: seq<Key>)
    requires |keys| <= 1 && OrderOf(o1, keys) && OrderOf(o2, keys)
    ensures o1 == o2
  {
    ShortOrder(keys, o1);
    ShortOrder(keys, o2);
    if |o1| == 1 { assert o1[0] in ToSet(o1); }
    if |o2| == 1 { assert o2[0] in ToSet(o2); }
    if |keys| == 1 {
      var k :| k in keys;
      assert keys == {k} by { OneElement(keys, k); }
      assert k in ToSet(o1) && k in ToSet(o2);
    }
  }

  lemma OneElement(keys: set<Key>, k: Key)
    requires |keys| == 1 && k in keys
    ensures keys == {k}
  {
    assert |keys - {k}| == 0;
  }

  lemma ShortOrder(keys: set<Key>, order: seq<Key>)
    requires |keys| <= 1 && OrderOf(order, keys)
    ensures |order| <= 1
  {
    if |order| >= 2 {
      assert order[0] in ToSet(order) && order[1] in ToSet(order) && order[0] != order[1];
      assert {order[0], order[1]} <= keys;
      assert |{order[0], order[1]}| == 2;
      Within({order[0], order[1]}, keys);
      assert false;
    }
  }

  /** The revision each key's tombstone gets. */
  lemma {:induction false} RevokeRevisions(st: State, keys: seq<Key>, i: nat)
    requires i < |keys| && forall m, n :: 0 <= m < n < |keys| ==> keys[m] != keys[n]
    ensures T.LastRev(DeleteAll(st, keys), keys[i]) == st.currentRev + i + 1
    decreases |keys|
  {
    var st1 := Delete(st, keys[0]).0;
    if i == 0 {
      assert forall n :: 0 <= n < |keys| - 1 ==> keys[1..][n] == keys[n + 1];
      Untouched(st1, keys[1..], keys[0]);
    } else {
      RevokeRevisions(st1, keys[1..], i - 1);
    }
  }

  lemma {:induction false} Untouched(st: State, keys: seq<Key>, k: Key)
    requires k !in keys
    ensures Versions(DeleteAll(st, keys), k) == Versions(st, k)
    decreases |keys|
  {
    if keys != [] { Untouched(Delete(st, keys[0]).0, keys[1..], k); }
  }
}
