/** Transactions. */
module MvccTxn {
  import opened RaftTypes
  import opened Keys
  import opened MvccSpec
  import opened MvccHistory
  import opened MvccLease

  datatype CompareOp = CompareEqual | CompareGreater | CompareLess | CompareOther
  datatype Compare = Compare(key: Key, op: CompareOp, rev: int)
  datatype Operation =
    | OpGet(key: Key)
    | OpPut(key: Key, value: Bytes, leaseID: int)
    | OpDelete(key: Key)
    | OpOther
  datatype Txn = Txn(compares: seq<Compare>, thenOps: seq<Operation>, elseOps: seq<Operation>)
  datatype TxnReply = TxnReply(succeeded: bool, results: seq<KeyValue>)

  /** The revision of the last write to a key, deleted or not; 0 if there was none. */
  function LastRev(st: State, k: Key): nat {
    if k in st.data && st.data[k] != [] then st.data[k][|st.data[k]| - 1].rev else 0
  }

  predicate Passes(st: State, c: Compare) {
    match c.op
    case CompareEqual => LastRev(st, c.key) == c.rev
    case CompareGreater => LastRev(st, c.key) > c.rev
    case CompareLess => LastRev(st, c.key) < c.rev
    case CompareOther => true
  }

  function Branch(st: State, t: Txn): seq<Operation> {
    if forall i :: 0 <= i < |t.compares| ==> Passes(st, t.compares[i]) then t.thenOps else t.elseOps
  }

  predicate BadLease(st: State, op: Operation, now: int) {
    op.OpPut? && op.leaseID != 0 && Lookup(st, op.leaseID, now).Err?
  }

  /** The error of the first put that names a missing or expired lease. */
  function FirstBad(st: State, ops: seq<Operation>, now: int): (r: Option<Error>)
    ensures r == None <==> forall i :: 0 <= i < |ops| ==> !BadLease(st, ops[i], now)
  {
    if ops == [] then None
    else if BadLease(st, ops[0], now) then Some(Lookup(st, ops[0].leaseID, now).error)
    else FirstBad(st, ops[1..], now)
  }

  /** What a get adds to the results: nothing for a key never written, no key name for a deleted one. */
  function ReadOp(st: State, k: Key): seq<KeyValue> {
    if k in st.data && st.data[k] != [] then
      var v := st.data[k][|st.data[k]| - 1];
      [KeyValue(if v.deleted then [] else k, v.value, v.rev)]
    else []
  }

  /** One operation as the transaction runs it: no lease check, the lease is taken from the table. */
  function ExecOp(st: State, op: Operation): State
    requires op.OpPut? && op.leaseID != 0 ==> op.leaseID in st.leases
  {
    match op
    case OpPut(k, v, id) => Bound(Append(st, Write(k, v, false)), k, id)
    case OpDelete(k) => Delete(st, k).0
    case _ => st
  }

  ghost predicate LeasesKnown(st: State, ops: seq<Operation>) {
    forall i :: 0 <= i < |ops| && ops[i].OpPut? && ops[i].leaseID != 0 ==> ops[i].leaseID in st.leases
  }

  /** Running an operation forgets no lease and no expiry. */
  lemma ExecKeepsLeases(st: State, op: Operation)
    requires op.OpPut? && op.leaseID != 0 ==> op.leaseID in st.leases
    ensures ExecOp(st, op).leases.Keys == st.leases.Keys
    ensures forall id :: id in st.leases ==> ExecOp(st, op).leases[id].expireAt == st.leases[id].expireAt
  {
  }

  function Exec(st: State, ops: seq<Operation>): (State, seq<KeyValue>)
    requires LeasesKnown(st, ops)
    decreases |ops|
  {
    if ops == [] then (st, [])
    else
      ExecKeepsLeases(st, ops[0]);
      var (st', results) := Exec(ExecOp(st, ops[0]), ops[1..]);
      (st', (if ops[0].OpGet? then ReadOp(st, ops[0].key) else []) + results)
  }

  function Transact(st: State, t: Txn, now: int): (State, Result<TxnReply>) {
    var ops := Branch(st, t);
    match FirstBad(st, ops, now)
    case Some(e) => (st, Err(e))
    case None =>
      var (st', results) := Exec(st, ops);
      (st', Ok(TxnReply(forall i :: 0 <= i < |t.compares| ==> Passes(st, t.compares[i]), results)))
  }

  // ---------- the same operations one by one ----------

  function Single(st: State, op: Operation, now: int): State {
    match op
    case OpPut(k, v, id) => Put(st, k, v, id, now).0
    case OpDelete(k) => Delete(st, k).0
    case _ => st
  }

  function Fold(st: State, ops: seq<Operation>, now: int): State
    decreases |ops|
  {
    if ops == [] then st else Fold(Single(st, ops[0], now), ops[1..], now)
  }

  function WriteOf(op: Operation): seq<Write> {
    match op
    case OpPut(k, v, _) => [Write(k, v, false)]
    case OpDelete(k) => [Write(k, [], true)]
    case _ => []
  }

  function WritesIn(ops: seq<Operation>): seq<Write> {
    if ops == [] then [] else WriteOf(ops[0]) + WritesIn(ops[1..])
  }

  /** A lease that is good before the transaction is good at each of its puts. */
  lemma GoodLeasesStay(st: State, op: Operation, rest: seq<Operation>, now: int)
    requires !BadLease(st, op, now) && forall i :: 0 <= i < |rest| ==> !BadLease(st, rest[i], now)
    ensures ExecOp(st, op) == Single(st, op, now)
    ensures forall i :: 0 <= i < |rest| ==> !BadLease(ExecOp(st, op), rest[i], now)
  {
    ExecKeepsLeases(st, op);
    var st' := ExecOp(st, op);
    forall i | 0 <= i < |rest|
      ensures !BadLease(st', rest[i], now)
    {
      assert !BadLease(st, rest[i], now);
    }
  }

  lemma GoodLeasesKnown(st: State, ops: seq<Operation>, now: int)
    requires forall i :: 0 <= i < |ops| ==> !BadLease(st, ops[i], now)
    ensures LeasesKnown(st, ops)
  {
  }

  /** Executing the branch is running the public operations one after the other. */
  lemma {:induction false} ExecIsFold(st: State, ops: seq<Operation>, now: int)
    requires forall i :: 0 <= i < |ops| ==> !BadLease(st, ops[i], now)
    ensures LeasesKnown(st, ops) && Exec(st, ops).0 == Fold(st, ops, now)
    decreases |ops|
  {
    GoodLeasesKnown(st, ops, now);
    if ops != [] {
      GoodLeasesStay(st, ops[0], ops[1..], now);
      ExecIsFold(ExecOp(st, ops[0]), ops[1..], now);
    }
  }

  lemma ConcatAssociative<T>(a: seq<T>, b: seq<T>, c: seq<T>)
    ensures (a + b) + c == a + (b + c)
  {
  }

  /** The operations write in order, a fresh revision each, within the invariants of the store. */
  lemma {:induction false} FoldKeeps(st: State, ws: seq<Write>, ops: seq<Operation>, now: int)
    requires Refines(st, ws) && Consistent(st)
    requires forall i :: 0 <= i < |ops| ==> !BadLease(st, ops[i], now)
    ensures Refines(Fold(st, ops, now), ws + WritesIn(ops))
    ensures Consistent(Fold(st, ops, now)) && KeepsLive(st, Fold(st, ops, now))
    decreases |ops|
  {
    if ops == [] {
      assert ws + [] == ws;
    } else {
      GoodLeasesStay(st, ops[0], ops[1..], now);
      SingleKeeps(st, ws, ops[0], now);
      FoldKeeps(Single(st, ops[0], now), ws + WriteOf(ops[0]), ops[1..], now);
      ConcatAssociative(ws, WriteOf(ops[0]), WritesIn(ops[1..]));
    }
  }

  lemma SingleKeeps(st: State, ws: seq<Write>, op: Operation, now: int)
    requires Refines(st, ws) && Consistent(st) && !BadLease(st, op, now)
    ensures Refines(Single(st, op, now), ws + WriteOf(op))
    ensures Consistent(Single(st, op, now)) && KeepsLive(st, Single(st, op, now))
  {
    match op
    case OpPut(k, v, id) => PutKeeps(st, ws, k, v, id, now);
    case OpDelete(k) => DeleteKeeps(st, ws, k);
    case _ => assert ws + [] == ws;
  }

  /** A transaction is all or nothing and sequential. */
  lemma TxnAtomic(st: State, ws: seq<Write>, t: Txn, now: int)
    requires Refines(st, ws) && Consistent(st)
    ensures var (st', r) := Transact(st, t, now);
      var ops := Branch(st, t);
      && (r.Ok? <==> forall i :: 0 <= i < |ops| ==> !BadLease(st, ops[i], now))
      && (r.Err? ==> st' == st)
      && (r.Ok? ==>
            && st' == Fold(st, ops, now)
            && Refines(st', ws + WritesIn(ops))
            && st'.currentRev == st.currentRev + |WritesIn(ops)|)
      && Refines(st', if r.Ok? then ws + WritesIn(ops) else ws) && Consistent(st') && KeepsLive(st, st')
  {
    var ops := Branch(st, t);
    if FirstBad(st, ops, now) == None {
      ExecIsFold(st, ops, now);
      FoldKeeps(st, ws, ops, now);
    }
  }

  /** Inside a transaction each get reads what the operations before it left, at its place in the results. */
  lemma {:induction false} GetsReadInOrder(st: State, ops: seq<Operation>, n: nat)
    requires LeasesKnown(st, ops) && n < |ops| && ops[n].OpGet?
    ensures LeasesKnown(st, ops[..n]) && LeasesKnown(Exec(st, ops[..n]).0, ops[n + 1..])
    ensures var (st', before) := Exec(st, ops[..n]);
      Exec(st, ops) == (Exec(st', ops[n + 1..]).0, before + ReadOp(st', ops[n].key) + Exec(st', ops[n + 1..]).1)
    decreases n
  {
    if n == 0 {
      assert Exec(st, ops[..0]) == (st, []);
      var read: seq<KeyValue> := ReadOp(st, ops[0].key);
      assert [] + read == read;
    } else {
      ExecKeepsLeases(st, ops[0]);
      var first, st1 := if ops[0].OpGet? then ReadOp(st, ops[0].key) else [], ExecOp(st, ops[0]);
      assert ops[..n][1..] == ops[1..][..n - 1] && ops[1..][n..] == ops[n + 1..];
      GetsReadInOrder(st1, ops[1..], n - 1);
      var (st', before) := Exec(st1, ops[1..][..n - 1]);
      var read, rest := ReadOp(st', ops[n].key), Exec(st', ops[n + 1..]).1;
      ConcatAssociative(first, before, read);
      ConcatAssociative(first, before + read, rest);
    }
  }

  /** Compares see the revision of the last write to the key, which compaction never drops. */
  lemma LastRevIsLastWrite(st: State, ws: seq<Write>, k: Key, r: nat)
    requires Refines(st, ws) && 1 <= r <= |ws|
    ensures LastRev(st, k) == r <==> ws[r - 1].key == k && forall i :: r <= i < |ws| ==> ws[i].key != k
    ensures LastRev(st, k) == 0 <==> forall i :: 0 <= i < |ws| ==> ws[i].key != k
  {
    assert KeyOk(st, ws, k);
    LastOfHistory(ws, k, r);
  }

  lemma {:induction false} LastOfHistory(ws: seq<Write>, k: Key, r: nat)
    requires 1 <= r
    ensures var h := History(ws, k);
      && (h == [] <==> forall i :: 0 <= i < |ws| ==> ws[i].key != k)
      && (h != [] ==>
            (h[|h| - 1].rev == r <==> r <= |ws| && ws[r - 1].key == k && forall i :: r <= i < |ws| ==> ws[i].key != k))
  {
    if ws != [] {
      var init, w := ws[..|ws| - 1], ws[|ws| - 1];
      LastOfHistory(init, k, r);
      assert forall i :: 0 <= i < |init| ==> init[i] == ws[i];
      if w.key == k { assert ws[|ws| - 1].key == k; }
    }
  }
}
