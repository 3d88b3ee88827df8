/** Two logs of the same commands after which two servers hold different values for a key. */
module ReplicaLimits {
  import opened RaftTypes
  import opened Keys
  import opened MvccSpec
  import opened ApplySpec
  import opened ReplicaState
  import opened Replicas
  import T = MvccTxn

  function PutCmd(k: Key, v: Bytes, id: int, n: int): Command {
    Command(KindKV, Some(KVCommand(CmdPut, k, v, id, 7, n)), None, None, None, None)
  }

  function GrantCmd(n: int): Command {
    Command(KindLeaseGrant, None, None, Some(GrantCommand(1, 7, n)), None, None)
  }

  function RevokeCmd(n: int): Command {
    Command(KindLeaseRevoke, None, None, None, Some(LeaseCommand(1, 7, n)), None)
  }

  function TxnCmd(t: T.Txn, n: int): Command {
    Command(KindTxn, None, Some(TxnCommand(t, 7, n)), None, None, None)
  }

  /** One more entry. */
  lemma RunMore(s: Server, log: seq<Item>, x: Item)
    requires Possible(s, log) && Allowed(Run(s, log).store, x) && Executes(Run(s, log), x)
    ensures Possible(s, log + [x]) && Run(s, log + [x]).store == Perform(Run(s, log).store, x).0
    ensures LastSeq(Run(s, log + [x]), ClientID(x.cmd)) == Seq(x.cmd)
  {
    RunLast(s, log + [x]);
    assert (log + [x])[..|log|] == log && (log + [x])[|log|] == x;
    StepExecutes(Run(s, log), x);
  }

  lemma RunLast(s: Server, log: seq<Item>)
    requires log != []
    ensures var init, x := log[..|log| - 1], log[|log| - 1];
      && Run(s, log) == Step(Run(s, init), x).0
      && (Possible(s, log) <==> Possible(s, init) && Allowed(Run(s, init).store, x))
  {
  }

  lemma StepExecutes(s: Server, x: Item)
    requires Executes(s, x)
    ensures Step(s, x).0.store == Perform(s.store, x).0 && LastSeq(Step(s, x).0, ClientID(x.cmd)) == Seq(x.cmd)
  {
  }

  // ---------- the store of both witnesses ----------

  const LEASED := EMPTY.(nextLeaseID := 1, leases := map[1 := Lease(1, SECOND, {})])

  lemma GrantGives()
    ensures Perform(EMPTY, Item(GrantCmd(1), 0, [])).0 == LEASED
  {
    assert LEASED.leases == EMPTY.leases[1 := Lease(1, SECOND, {})];
  }

  function Granted(): seq<Item> {
    [Item(GrantCmd(1), 0, [])]
  }

  lemma AfterGrant()
    ensures Possible(START, Granted()) && Run(START, Granted()).store == LEASED
    ensures LastSeq(Run(START, Granted()), 7) == 1
  {
    GrantGives();
    assert [] + Granted() == Granted();
    assert Run(START, []) == START;
    RunMore(START, [], Granted()[0]);
  }

  /** A put under the lease in time, at whatever state. */
  lemma LeasedPut(st: State, k: Key, v: Bytes, now: int)
    requires 1 in st.leases && now <= st.leases[1].expireAt
    ensures var st' := Put(st, k, v, 1, now).0;
      && Get(st', k, 0) == Some(v) && st'.currentRev == st.currentRev + 1
      && 1 in st'.leases && st'.leases[1].keys == st.leases[1].keys + {k}
      && st'.leases[1].expireAt == st.leases[1].expireAt
  {
    var st' := Put(st, k, v, 1, now).0;
    assert st'.data[k] == Versions(st, k) + [Version(st.currentRev + 1, v, false)];
    assert Latest(st'.data[k], st.currentRev + 1) == Some(Version(st.currentRev + 1, v, false));
  }

  // ---------- clocks ----------

  /** A clock that passes the expiry between a grant and a put under it. */
  lemma ClocksPart(k: Key, v: Bytes) returns (xs: seq<Item>, ys: seq<Item>)
    ensures SameCommands(xs, ys) && Possible(START, xs) && Possible(START, ys)
    ensures Get(Run(START, xs).store, k, 0) == Some(v) && Get(Run(START, ys).store, k, 0) == None
  {
    var early, late := Item(PutCmd(k, v, 1, 2), 0, []), Item(PutCmd(k, v, 1, 2), 2 * SECOND, []);
    AfterGrant();
    xs, ys := Granted() + [early], Granted() + [late];
    SameMore(Granted(), Granted(), early, late);
    RunMore(START, Granted(), early);
    RunMore(START, Granted(), late);
    LeasedPut(LEASED, k, v, 0);
  }

  lemma SameMore(xs: seq<Item>, ys: seq<Item>, x: Item, y: Item)
    requires SameCommands(xs, ys) && x.cmd == y.cmd
    ensures SameCommands(xs + [x], ys + [y])
  {
  }

  // ---------- orders ----------

  const K1: Key := [1]
  const K2: Key := [2]
  const K3: Key := [3]

  function OneKey(): seq<Item> {
    Granted() + [Item(PutCmd(K1, [], 1, 2), 0, [])]
  }

  function Shared(): seq<Item> {
    OneKey() + [Item(PutCmd(K2, [], 1, 3), 0, [])]
  }

  ghost predicate Holds(st: State, rev: nat, keys: set<Key>) {
    st.currentRev == rev && 1 in st.leases && st.leases[1].keys == keys && st.leases[1].expireAt == SECOND
  }

  lemma PutMore(log: seq<Item>, k: Key, n: int, rev: nat, keys: set<Key>)
    requires Possible(START, log) && LastSeq(Run(START, log), 7) == n - 1 && n > 1
    requires Holds(Run(START, log).store, rev, keys)
    ensures var more := log + [Item(PutCmd(k, [], 1, n), 0, [])];
      Possible(START, more) && LastSeq(Run(START, more), 7) == n && Holds(Run(START, more).store, rev + 1, keys + {k})
  {
    RunMore(START, log, Item(PutCmd(k, [], 1, n), 0, []));
    LeasedPut(Run(START, log).store, k, [], 0);
  }

  /** Two keys under one lease. */
  lemma TwoLeasedKeys()
    ensures Possible(START, Shared()) && LastSeq(Run(START, Shared()), 7) == 3
    ensures Holds(Run(START, Shared()).store, 2, {K1, K2})
  {
    AfterGrant();
    PutMore(Granted(), K1, 2, 0, {});
    PutMore(OneKey(), K2, 3, 1, {} + {K1});
    assert {} + {K1} + {K2} == {K1, K2};
  }

  /** Compares the revision of the first key's last write with 3. */
  function Question(): T.Txn {
    T.Txn([T.Compare(K1, T.CompareEqual, 3)], [T.OpPut(K3, [1], 0)], [T.OpPut(K3, [2], 0)])
  }

  lemma AskedTxn(st: State, now: int)
    ensures Get(T.Transact(st, Question(), now).0, K3, 0) == Some(if T.LastRev(st, K1) == 3 then [1] else [2])
  {
    var t := Question();
    var v: Bytes := if T.LastRev(st, K1) == 3 then [1] else [2];
    assert T.Passes(st, t.compares[0]) <==> T.LastRev(st, K1) == 3;
    var ops := T.Branch(st, t);
    assert ops == [T.OpPut(K3, v, 0)];
    assert T.FirstBad(st, ops, now) == None;
    var st' := T.Transact(st, t, now).0;
    assert ops[1..] == [];
    T.ExecKeepsLeases(st, ops[0]);
    assert T.Exec(T.ExecOp(st, ops[0]), []).0 == T.ExecOp(st, ops[0]);
    assert st' == Bound(Append(st, Write(K3, v, false)), K3, 0);
    assert st'.data[K3] == Versions(st, K3) + [Version(st.currentRev + 1, v, false)];
    assert Latest(st'.data[K3], st.currentRev + 1) == Some(Version(st.currentRev + 1, v, false));
  }

  lemma RevokedRevision(st: State, order: seq<Key>)
    requires 1 in st.leases && st.currentRev == 2 && (order == [K1, K2] || order == [K2, K1])
    ensures T.LastRev(Revoke(st, 1, order).0, K1) == if order == [K1, K2] then 3 else 4
  {
    RevokeRevisions(st.(leases := st.leases - {1}), order, if order == [K1, K2] then 0 else 1);
  }

  lemma BothKeys(order: seq<Key>)
    requires order == [K1, K2] || order == [K2, K1]
    ensures OrderOf(order, {K1, K2})
  {
  }

  lemma AfterRevoke(order: seq<Key>)
    requires order == [K1, K2] || order == [K2, K1]
    ensures var log := Shared() + [Item(RevokeCmd(4), 0, order)];
      && Possible(START, log) && LastSeq(Run(START, log), 7) == 4
      && T.LastRev(Run(START, log).store, K1) == if order == [K1, K2] then 3 else 4
  {
    TwoLeasedKeys();
    var st := Run(START, Shared()).store;
    BothKeys(order);
    RunMore(START, Shared(), Item(RevokeCmd(4), 0, order));
    RevokedRevision(st, order);
  }

  lemma Asked(order: seq<Key>) returns (log: seq<Item>)
    requires order == [K1, K2] || order == [K2, K1]
    ensures log == Shared() + [Item(RevokeCmd(4), 0, order)] + [Item(TxnCmd(Question(), 5), 0, [])]
    ensures Possible(START, log)
    ensures Get(Run(START, log).store, K3, 0) == Some(if order == [K1, K2] then [1] else [2])
  {
    var before, ask := Shared() + [Item(RevokeCmd(4), 0, order)], Item(TxnCmd(Question(), 5), 0, []);
    log := before + [ask];
    AfterRevoke(order);
    RunMore(START, before, ask);
    AskedTxn(Run(START, before).store, 0);
  }

  /** A lease with two keys, revoked in two orders, gives their tombstones different revisions; a transaction that
      compares one of them then takes different branches. */
  lemma OrdersPart() returns (xs: seq<Item>, ys: seq<Item>)
    ensures SameCommands(xs, ys) && Possible(START, xs) && Possible(START, ys)
    ensures Get(Run(START, xs).store, K3, 0) == Some([1]) && Get(Run(START, ys).store, K3, 0) == Some([2])
  {
    xs := Asked([K1, K2]);
    ys := Asked([K2, K1]);
    SameMore(Shared(), Shared(), Item(RevokeCmd(4), 0, [K1, K2]), Item(RevokeCmd(4), 0, [K2, K1]));
    SameMore(Shared() + [Item(RevokeCmd(4), 0, [K1, K2])], Shared() + [Item(RevokeCmd(4), 0, [K2, K1])],
             Item(TxnCmd(Question(), 5), 0, []), Item(TxnCmd(Question(), 5), 0, []));
    assert [K1, K2][0] != [K2, K1][0];
  }
}
