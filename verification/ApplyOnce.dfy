/** Exactly-once execution, and recovery from a snapshot. */
module ApplyOnce {
  import opened RaftTypes
  import opened Keys
  import opened MvccSpec
  import opened ApplySpec
  import H = MvccHistory
  import L = MvccLease
  import D = MvccRun
  import S = MvccSnapshot

  // ---------- exactly once ----------

  /** Entry `i` carries a number above its client's table entry and above every earlier number of that client. */
  ghost predicate IsNew(s: Server, log: seq<Item>, i: nat)
    requires i < |log|
  {
    && Seq(log[i].cmd) > LastSeq(s, ClientID(log[i].cmd))
    && forall j :: 0 <= j < i && ClientID(log[j].cmd) == ClientID(log[i].cmd) ==> Seq(log[j].cmd) < Seq(log[i].cmd)
  }

  /** The entries that are new, in log order. */
  ghost function New(s: Server, log: seq<Item>): seq<Item> {
    if log == [] then []
    else
      New(s, log[..|log| - 1]) + if IsNew(s, log, |log| - 1) then [log[|log| - 1]] else []
  }

  /** Commands run one after the other with no table. */
  function ApplyAll(st: State, log: seq<Item>): State {
    if log == [] then st else Perform(ApplyAll(st, log[..|log| - 1]), log[|log| - 1]).0
  }

  /** The table holds the highest number seen. */
  lemma {:induction false} TableIsHighest(s: Server, log: seq<Item>, c: int)
    ensures LastSeq(Run(s, log), c) >= LastSeq(s, c)
    ensures forall j :: 0 <= j < |log| && ClientID(log[j].cmd) == c ==> Seq(log[j].cmd) <= LastSeq(Run(s, log), c)
    ensures LastSeq(Run(s, log), c) == LastSeq(s, c)
      || exists j :: 0 <= j < |log| && ClientID(log[j].cmd) == c && Seq(log[j].cmd) == LastSeq(Run(s, log), c)
  {
    if log != [] {
      var init, x := log[..|log| - 1], log[|log| - 1];
      TableIsHighest(s, init, c);
      var before, after := LastSeq(Run(s, init), c), LastSeq(Run(s, log), c);
      assert after == if ClientID(x.cmd) == c && Seq(x.cmd) > before then Seq(x.cmd) else before;
      forall j | 0 <= j < |log| && ClientID(log[j].cmd) == c
        ensures Seq(log[j].cmd) <= after
      {
        if j < |init| { assert init[j] == log[j]; }
      }
      if after == before && before != LastSeq(s, c) {
        var j :| 0 <= j < |init| && ClientID(init[j].cmd) == c && Seq(init[j].cmd) == before;
        assert log[j] == init[j];
      }
    }
  }

  /** The loop executes an entry if and only if it is new. */
  lemma ExecutedIffNew(s: Server, log: seq<Item>, i: nat)
    requires i < |log|
    ensures Seq(log[i].cmd) > LastSeq(Run(s, log[..i]), ClientID(log[i].cmd)) <==> IsNew(s, log, i)
  {
    var c := ClientID(log[i].cmd);
    var init := log[..i];
    TableIsHighest(s, init, c);
    if Seq(log[i].cmd) > LastSeq(Run(s, init), c) {
      forall j | 0 <= j < i && ClientID(log[j].cmd) == c
        ensures Seq(log[j].cmd) < Seq(log[i].cmd)
      {
        assert init[j] == log[j];
      }
    }
    if IsNew(s, log, i) && LastSeq(Run(s, init), c) != LastSeq(s, c) {
      var j :| 0 <= j < |init| && ClientID(init[j].cmd) == c && Seq(init[j].cmd) == LastSeq(Run(s, init), c);
      assert log[j] == init[j];
    }
  }

  /** Exactly once: the store after any log is the store after running just the new entries. */
  lemma {:induction false} ExactlyOnce(s: Server, log: seq<Item>)
    ensures Run(s, log).store == ApplyAll(s.store, New(s, log))
  {
    if log != [] {
      var init, x := log[..|log| - 1], log[|log| - 1];
      ExactlyOnce(s, init);
      ExecutedIffNew(s, log, |log| - 1);
      if IsNew(s, log, |log| - 1) {
        var applied := New(s, log);
        assert applied[..|applied| - 1] == New(s, init) && applied[|applied| - 1] == x;
      } else {
        assert New(s, log) == New(s, init);
      }
    }
  }

  /** No request is executed twice: a client's executed numbers strictly increase. */
  lemma {:induction false} NewIncreases(s: Server, log: seq<Item>, i: nat, j: nat)
    requires i < j < |New(s, log)| && ClientID(New(s, log)[i].cmd) == ClientID(New(s, log)[j].cmd)
    ensures Seq(New(s, log)[i].cmd) < Seq(New(s, log)[j].cmd)
  {
    var init := log[..|log| - 1];
    if j < |New(s, init)| {
      NewIncreases(s, init, i, j);
    } else {
      NewAreInLog(s, init, New(s, init)[i]);
      var m :| 0 <= m < |init| && init[m] == New(s, init)[i];
      assert log[m] == init[m];
    }
  }

  lemma {:induction false} NewAreInLog(s: Server, log: seq<Item>, x: Item)
    requires x in New(s, log)
    ensures x in log
  {
    if x != log[|log| - 1] { NewAreInLog(s, log[..|log| - 1], x); }
  }

  // ---------- repeated requests ----------

  lemma {:induction false} QuietTail(s: Server, tail: seq<Item>, c: int)
    requires forall j :: 0 <= j < |tail| && ClientID(tail[j].cmd) == c ==> Seq(tail[j].cmd) <= LastSeq(s, c)
    ensures LastSeq(Run(s, tail), c) == LastSeq(s, c) && Cached(Run(s, tail), c) == Cached(s, c)
  {
    if tail != [] {
      var init := tail[..|tail| - 1];
      assert forall j :: 0 <= j < |init| ==> init[j] == tail[j];
      QuietTail(s, init, c);
      assert tail[|tail| - 1] == tail[|tail| - 1];
    }
  }

  /** A repeated request changes nothing and is answered as the first time, until its client moves on. */
  lemma RepeatGetsSameReply(s: Server, x: Item, tail: seq<Item>, again: Item)
    requires Seq(x.cmd) > LastSeq(s, ClientID(x.cmd))
    requires ClientID(again.cmd) == ClientID(x.cmd) && Seq(again.cmd) == Seq(x.cmd)
    requires forall j :: 0 <= j < |tail| && ClientID(tail[j].cmd) == ClientID(x.cmd) ==> Seq(tail[j].cmd) <= Seq(x.cmd)
    ensures Step(Run(Step(s, x).0, tail), again) == (Run(Step(s, x).0, tail), Step(s, x).1)
  {
    QuietTail(Step(s, x).0, tail, ClientID(x.cmd));
  }

  /** The payload of the command's own kind is missing, or the kind is unknown. */
  predicate IsBare(c: Command) {
    match c.kind
    case KindKV => c.kv.None?
    case KindTxn => c.txn.None?
    case KindLeaseGrant => c.grant.None?
    case KindLeaseRevoke => c.revoke.None?
    case KindLeaseKeepAlive => c.keepAlive.None?
    case KindOther => true
  }

  /** A command without its payload, or of an unknown kind, is never executed, wherever it stands in the log. */
  lemma MissingPayloadIsSkipped(log: seq<Item>, x: Item)
    requires IsBare(x.cmd)
    ensures Step(Run(START, log), x).0 == Run(START, log)
  {
    TableIsHighest(START, log, 0);
  }

  // ---------- the store underneath ----------

  /** Explained by some list of writes, never compacted. */
  ghost predicate Explained(st: State) {
    st.compactRev == 0 && exists ws :: D.Sound(st, ws)
  }

  lemma StartExplained()
    ensures Explained(EMPTY)
  {
    H.RefinesAtStart();
    L.LeasesAtStart();
    assert D.Sound(EMPTY, []);
  }

  /** The store operation a command amounts to, if any. */
  function OpOf(x: Item): Option<D.Op> {
    match x.cmd.kind
    case KindKV =>
      if x.cmd.kv.None? then None
      else (match x.cmd.kv.value.op
            case CmdPut => Some(D.DoPut(x.cmd.kv.value.key, x.cmd.kv.value.value, x.cmd.kv.value.leaseID, x.now))
            case CmdDelete => Some(D.DoDelete(x.cmd.kv.value.key))
            case CmdOther => None)
    case KindTxn => if x.cmd.txn.None? then None else Some(D.DoTxn(x.cmd.txn.value.txn, x.now))
    case KindLeaseGrant => if x.cmd.grant.None? then None else Some(D.DoGrant(x.cmd.grant.value.ttl, x.now))
    case KindLeaseRevoke => if x.cmd.revoke.None? then None else Some(D.DoRevoke(x.cmd.revoke.value.id, x.order))
    case KindLeaseKeepAlive =>
      if x.cmd.keepAlive.None? then None else Some(D.DoKeepAlive(x.cmd.keepAlive.value.id, x.now))
    case KindOther => None
  }

  ghost function After(st: State, op: Option<D.Op>): State {
    if op.Some? then D.Do(st, op.value) else st
  }

  lemma ApplyKeeps(st: State, x: Item)
    requires Explained(st) && Allowed(st, x)
    ensures Explained(Perform(st, x).0)
  {
    PerformIsOp(st, x);
    if OpOf(x).Some? { OpKeeps(st, OpOf(x).value); }
  }

  lemma OpKeeps(st: State, op: D.Op)
    requires Explained(st) && D.Allowed(st, op) && !op.DoCompact?
    ensures Explained(D.Do(st, op))
  {
    var ws :| D.Sound(st, ws);
    D.DoKeeps(st, ws, op);
    D.OnlyCompactCompacts(st, op);
  }

  /** Executing a command changes the store by its operation, if it has one, and not otherwise. */
  lemma PerformIsOp(st: State, x: Item)
    ensures Perform(st, x).0 == After(st, OpOf(x))
    ensures OpOf(x).Some? ==> !OpOf(x).value.DoCompact? && (Allowed(st, x) ==> D.Allowed(st, OpOf(x).value))
  {
    match x.cmd.kind
    case KindKV => KVIsOp(st, x);
    case KindTxn => assert ApplyTxn(st, x.cmd.txn, x.now).0 == After(st, OpOf(x));
    case KindLeaseGrant =>
    case KindLeaseRevoke => assert ApplyRevoke(st, x.cmd.revoke, x.order).0 == After(st, OpOf(x));
    case KindLeaseKeepAlive => assert ApplyKeepAlive(st, x.cmd.keepAlive, x.now).0 == After(st, OpOf(x));
    case KindOther =>
  }

  lemma KVIsOp(st: State, x: Item)
    requires x.cmd.kind.KindKV?
    ensures ApplyKV(st, x.cmd.kv, x.now).0 == After(st, OpOf(x))
  {
  }

  lemma {:induction false} RunExplained(s: Server, log: seq<Item>)
    requires Explained(s.store) && Possible(s, log)
    ensures Explained(Run(s, log).store)
  {
    if log != [] {
      var init, x := log[..|log| - 1], log[|log| - 1];
      RunExplained(s, init);
      ApplyKeeps(Run(s, init).store, x);
    }
  }

  // ---------- snapshots ----------

  lemma {:induction false} RunSplits(s: Server, a: seq<Item>, b: seq<Item>)
    ensures Run(s, a + b) == Run(Run(s, a), b)
  {
    if b == [] {
      assert a + b == a;
    } else {
      RunSplits(s, a, b[..|b| - 1]);
      assert (a + b)[..|a + b| - 1] == a + b[..|b| - 1];
    }
  }

  /** A server that takes over a snapshot becomes the server that made it, exactly when something had been
      written or its own store already was the same. */
  lemma RestoreIff(other: Server, s: Server, v: S.Visit)
    requires Explained(s.store) && S.VisitOf(v, s.store)
    ensures RestoreSnapshot(other, MakeSnapshot(s, v)) == s <==> s.store.currentRev >= 1 || other.store == s.store
  {
    var ws :| D.Sound(s.store, ws);
    S.UncompactedIsWhole(s.store, ws);
    S.AcceptsIff(s.store, ws, v);
    if s.store.currentRev >= 1 { S.RoundTrip(other.store, s.store, ws, v); }
  }

  /** Snapshot at any split, restore anywhere, apply the rest: the same server as applying the whole log. */
  lemma SnapshotThenRest(a: seq<Item>, b: seq<Item>, other: Server, v: S.Visit)
    requires Possible(START, a) && S.VisitOf(v, Run(START, a).store)
    requires Run(START, a).store.currentRev >= 1
    ensures Run(RestoreSnapshot(other, MakeSnapshot(Run(START, a), v)), b) == Run(START, a + b)
  {
    StartExplained();
    RunExplained(START, a);
    RestoreIff(other, Run(START, a), v);
    RunSplits(START, a, b);
  }

  /** A restarted server recovers the snapshot exactly when something had been written or no lease had ever
      been granted. */
  lemma RestartRecoversIff(a: seq<Item>, v: S.Visit)
    requires Possible(START, a) && S.VisitOf(v, Run(START, a).store)
    ensures RestoreSnapshot(START, MakeSnapshot(Run(START, a), v)) == Run(START, a)
      <==> Run(START, a).store.currentRev >= 1 || Run(START, a).store.nextLeaseID == 0
  {
    StartExplained();
    RunExplained(START, a);
    var s := Run(START, a);
    RestoreIff(START, s, v);
    if s.store.currentRev == 0 { UnwrittenIsEmptyIff(s.store); }
  }

  lemma UnwrittenIsEmptyIff(st: State)
    requires Explained(st) && st.currentRev == 0
    ensures st == EMPTY <==> st.nextLeaseID == 0
  {
    var ws :| D.Sound(st, ws);
    forall k
      ensures k !in st.data
    {
      assert H.KeyOk(st, ws, k);
    }
    assert st.data == map[];
    if st.sortedKeys != [] { NonEmptySet(st.sortedKeys); assert false; }
    if st.nextLeaseID == 0 {
      assert L.Consistent(st);
      assert forall id :: id !in st.leases;
      assert st.leases == map[];
      forall k ensures k !in st.keyLease {
        assert k in st.keyLease ==> (L.HeldBy(st, k, st.keyLease[k]) <==> L.BoundTo(st, k, st.keyLease[k]));
      }
      assert st.keyLease == map[];
    }
  }

  /** Such a log exists: one granted lease and nothing else. The lease is lost, the table says it was granted. */
  lemma GrantedLeaseIsLost(ttl: int, now: int) returns (log: seq<Item>, v: S.Visit)
    ensures Possible(START, log) && S.VisitOf(v, Run(START, log).store)
    ensures var restored := RestoreSnapshot(START, MakeSnapshot(Run(START, log), v));
      && 1 in Run(START, log).store.leases && 1 !in restored.store.leases
      && LastSeq(restored, 7) == LastSeq(Run(START, log), 7) == 1
  {
    var x := Item(Command(KindLeaseGrant, None, None, Some(GrantCommand(ttl, 7, 1)), None, None), now, []);
    log := [x];
    assert log[..0] == [];
    assert Run(START, []) == START;
    var s := Step(START, x).0;
    assert Run(START, log) == s;
    assert s.store.leases == map[1 := Lease(ttl, now + ttl * SECOND, {})];
    v := S.Visit([], [1], map[1 := []]);
    assert Possible(START, []);
    StartExplained();
    RunExplained(START, log);
    var ws :| D.Sound(s.store, ws);
    S.EmptyIsRejected(s.store, ws, v);
  }
}
