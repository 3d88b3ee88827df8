/** Every sequence of operations on a store that starts empty. */
module MvccRun {
  import opened RaftTypes
  import opened Keys
  import opened MvccSpec
  import opened MvccHistory
  import opened MvccLease
  import opened MvccTxn

  /** The clock and the visiting order of a revoked lease's keys are inputs. */
  datatype Op =
    | DoPut(key: Key, value: Bytes, leaseID: int, now: int)
    | DoDelete(key: Key)
    | DoTxn(txn: Txn, now: int)
    | DoGrant(ttl: int, now: int)
    | DoKeepAlive(id: int, now: int)
    | DoRevoke(id: int, order: seq<Key>)
    | DoAttach(key: Key, id: int, now: int)
    | DoCompact(rev: int)

  ghost function Do(st: State, op: Op): State {
    match op
    case DoPut(k, v, id, now) => Put(st, k, v, id, now).0
    case DoDelete(k) => Delete(st, k).0
    case DoTxn(t, now) => Transact(st, t, now).0
    case DoGrant(ttl, now) => Grant(st, ttl, now).0
    case DoKeepAlive(id, now) => KeepAlive(st, id, now).0
    case DoRevoke(id, order) => Revoke(st, id, order).0
    case DoAttach(k, id, now) => Attach(st, k, id, now).0
    case DoCompact(rev) => Compact(st, rev).0
  }

  /** The writes an operation adds, in order. */
  ghost function Writes(st: State, op: Op): seq<Write> {
    match op
    case DoPut(k, v, id, now) => if Put(st, k, v, id, now).1.Ok? then [Write(k, v, false)] else []
    case DoDelete(k) => [Write(k, [], true)]
    case DoTxn(t, now) => if Transact(st, t, now).1.Ok? then WritesIn(Branch(st, t)) else []
    case DoRevoke(id, order) => if id in st.leases then Tombstones(order) else []
    case _ => []
  }

  ghost predicate Allowed(st: State, op: Op) {
    op.DoRevoke? && op.id in st.leases ==> OrderOf(op.order, st.leases[op.id].keys)
  }

  /** An attach that fails or hits a live key; any other operation. */
  predicate AttachesLive(st: State, op: Op) {
    op.DoAttach? ==> Attach(st, op.key, op.id, op.now).1.Err? || IsLive(st, op.key)
  }

  ghost predicate Sound(st: State, ws: seq<Write>) {
    Refines(st, ws) && Consistent(st)
  }

  lemma DoKeeps(st: State, ws: seq<Write>, op: Op)
    requires Sound(st, ws) && Allowed(st, op)
    ensures Sound(Do(st, op), ws + Writes(st, op))
    ensures LeasedAreLive(st) ==> (LeasedAreLive(Do(st, op)) <==> AttachesLive(st, op))
  {
    assert ws + [] == ws;
    match op
    case DoPut(k, v, id, now) => PutKeeps(st, ws, k, v, id, now);
    case DoDelete(k) => DeleteKeeps(st, ws, k);
    case DoTxn(t, now) => TxnAtomic(st, ws, t, now);
    case DoGrant(ttl, now) => GrantKeeps(st, ws, ttl, now);
    case DoKeepAlive(id, now) => KeepAliveKeeps(st, ws, id, now);
    case DoRevoke(id, order) => if id in st.leases { RevokeEffect(st, ws, id, order); }
    case DoAttach(k, id, now) => AttachKeepsIff(st, ws, k, id, now);
    case DoCompact(rev) => CompactKeeps(st, ws, rev);
  }

  lemma OnlyCompactCompacts(st: State, op: Op)
    requires !op.DoCompact?
    ensures Do(st, op).compactRev == st.compactRev
  {
    match op
    case DoTxn(t, now) => if FirstBad(st, Branch(st, t), now) == None { ExecKeepsCompactRev(st, Branch(st, t)); }
    case DoRevoke(id, order) => if id in st.leases { DeletesKeepCompactRev(st.(leases := st.leases - {id}), order); }
    case _ =>
  }

  lemma {:induction false} ExecKeepsCompactRev(st: State, ops: seq<Operation>)
    requires LeasesKnown(st, ops)
    ensures Exec(st, ops).0.compactRev == st.compactRev
    decreases |ops|
  {
    if ops != [] {
      ExecKeepsLeases(st, ops[0]);
      ExecKeepsCompactRev(ExecOp(st, ops[0]), ops[1..]);
    }
  }

  lemma {:induction false} DeletesKeepCompactRev(st: State, keys: seq<Key>)
    ensures DeleteAll(st, keys).compactRev == st.compactRev
    decreases |keys|
  {
    if keys != [] { DeletesKeepCompactRev(Delete(st, keys[0]).0, keys[1..]); }
  }

  ghost function After(ops: seq<Op>): (State, seq<Write>) {
    if ops == [] then (EMPTY, [])
    else
      var (st, ws) := After(ops[..|ops| - 1]);
      (Do(st, ops[|ops| - 1]), ws + Writes(st, ops[|ops| - 1]))
  }

  ghost predicate Possible(ops: seq<Op>) {
    ops == [] || (Possible(ops[..|ops| - 1]) && Allowed(After(ops[..|ops| - 1]).0, ops[|ops| - 1]))
  }

  lemma {:induction false} RunSound(ops: seq<Op>)
    requires Possible(ops)
    ensures Sound(After(ops).0, After(ops).1)
  {
    if ops == [] {
      RefinesAtStart();
      LeasesAtStart();
    } else {
      RunSound(ops[..|ops| - 1]);
      DoKeeps(After(ops[..|ops| - 1]).0, After(ops[..|ops| - 1]).1, ops[|ops| - 1]);
    }
  }

  /** After any operations, a read at revision 0 or at any revision after the compacted one returns what
      replaying that many of the writes gives. */
  lemma HistoricalReads(ops: seq<Op>, k: Key, rev: int)
    requires Possible(ops)
    requires var st := After(ops).0; rev == 0 || rev > st.compactRev
    ensures var (st, ws) := After(ops);
      st.currentRev == |ws| && Get(st, k, rev) == Replay(ws, k, if rev == 0 then |ws| else Min(rev, |ws|))
  {
    RunSound(ops);
    GetIsReplay(After(ops).0, After(ops).1, k, rev);
  }

  lemma LiveKeyReads(st: State, ws: seq<Write>, k: Key)
    requires Sound(st, ws)
    ensures IsLive(st, k) <==> Get(st, k, 0).Some?
  {
    if k in st.data {
      VersionsIncreasing(st, ws, k);
      assert st.data[k][|st.data[k]| - 1] in Versions(st, k);
    }
  }

  /** After any operations a lease lists a key if and only if the key points to it. */
  lemma LeaseConsistency(ops: seq<Op>, k: Key, id: int)
    requires Possible(ops)
    ensures HeldBy(After(ops).0, k, id) <==> BoundTo(After(ops).0, k, id)
  {
    RunSound(ops);
  }

  /** Every leased key reads as live at every point. */
  ghost predicate AlwaysLive(ops: seq<Op>) {
    forall n: nat, k :: n <= |ops| && k in After(ops[..n]).0.keyLease ==> Get(After(ops[..n]).0, k, 0).Some?
  }

  ghost predicate AlwaysAttachesLive(ops: seq<Op>) {
    forall n: nat :: n < |ops| ==> AttachesLive(After(ops[..n]).0, ops[n])
  }

  lemma {:induction false} PossiblePrefix(ops: seq<Op>, n: nat)
    requires Possible(ops) && n <= |ops|
    ensures Possible(ops[..n])
  {
    if n == |ops| {
      assert ops[..n] == ops;
    } else {
      PossiblePrefix(ops[..|ops| - 1], n);
      assert ops[..|ops| - 1][..n] == ops[..n];
    }
  }

  lemma LiveIffReads(ops: seq<Op>, n: nat)
    requires Possible(ops) && n <= |ops|
    ensures LeasedAreLive(After(ops[..n]).0) <==>
      forall k :: k in After(ops[..n]).0.keyLease ==> Get(After(ops[..n]).0, k, 0).Some?
  {
    PossiblePrefix(ops, n);
    RunSound(ops[..n]);
    forall k ensures IsLive(After(ops[..n]).0, k) <==> Get(After(ops[..n]).0, k, 0).Some? {
      LiveKeyReads(After(ops[..n]).0, After(ops[..n]).1, k);
    }
  }

  lemma NextLive(ops: seq<Op>, n: nat)
    requires Possible(ops) && n < |ops| && LeasedAreLive(After(ops[..n]).0)
    ensures LeasedAreLive(After(ops[..n + 1]).0) <==> AttachesLive(After(ops[..n]).0, ops[n])
  {
    PossiblePrefix(ops, n);
    PossiblePrefix(ops, n + 1);
    RunSound(ops[..n]);
    assert ops[..n + 1][..n] == ops[..n];
    DoKeeps(After(ops[..n]).0, After(ops[..n]).1, ops[n]);
  }

  lemma {:induction false} LiveUpTo(ops: seq<Op>, n: nat)
    requires Possible(ops) && n <= |ops| && AlwaysAttachesLive(ops)
    ensures LeasedAreLive(After(ops[..n]).0)
  {
    if n > 0 {
      LiveUpTo(ops, n - 1);
      NextLive(ops, n - 1);
    } else {
      LeasesAtStart();
    }
  }

  /** At every point of a sequence of operations every leased key is live, if and only if every AttachKey in it
      failed or hit a key that was live. */
  lemma LeasedKeysLiveIff(ops: seq<Op>)
    requires Possible(ops)
    ensures AlwaysLive(ops) <==> AlwaysAttachesLive(ops)
  {
    if AlwaysAttachesLive(ops) {
      forall n: nat, k | n <= |ops| && k in After(ops[..n]).0.keyLease
        ensures Get(After(ops[..n]).0, k, 0).Some?
      {
        LiveUpTo(ops, n);
        LiveIffReads(ops, n);
      }
    }
    if AlwaysLive(ops) {
      forall n: nat | n < |ops|
        ensures AttachesLive(After(ops[..n]).0, ops[n])
      {
        LiveIffReads(ops, n);
        LiveIffReads(ops, n + 1);
        NextLive(ops, n);
      }
    }
  }
}
