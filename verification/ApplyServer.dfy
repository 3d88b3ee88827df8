/** The apply loop as the source writes it, over the store object. */
module ApplyServer {
  import opened RaftTypes
  import opened Keys
  import opened MvccSpec
  import opened ApplySpec
  import K = MvccStore
  import S = MvccSnapshot
  import D = MvccRun
  import O = ApplyOnce

  class KVServer {
    const store: K.KVStore
    var clientLastSeq: map<int, int>
    var clientLastReply: map<int, Reply>

    function Value(): Server
      reads this, store
    {
      Server(store.Value(), clientLastSeq, clientLastReply)
    }

    constructor ()
      ensures Value() == START && store.Valid() && fresh(store)
    {
      store := new K.KVStore();
      clientLastSeq, clientLastReply := map[], map[];
    }

    method PerformKV(cmd: Option<KVCommand>, now: int) returns (r: Reply)
      requires store.Valid()
      modifies store
      ensures store.Valid() && (store.Value(), r) == ApplyKV(old(store.Value()), cmd, now)
    {
      if cmd.None? {
        return Failed(NilPayload);
      }
      match cmd.value.op
      case CmdPut =>
        var rev := store.Put(cmd.value.key, cmd.value.value, cmd.value.leaseID, now);
        if rev.Err? {
          return Failed(StoreError(rev.error));
        }
        return ZERO.(rev := Some(rev.value));
      case CmdDelete =>
        var rev := store.Delete(cmd.value.key);
        return ZERO.(rev := Some(rev));
      case CmdOther =>
        return Failed(UnsupportedType);
    }

    method PerformTxn(cmd: Option<TxnCommand>, now: int) returns (r: Reply)
      requires store.Valid()
      modifies store
      ensures store.Valid() && (store.Value(), r) == ApplyTxn(old(store.Value()), cmd, now)
    {
      if cmd.None? {
        return Failed(NilPayload);
      }
      var reply := store.Txn(cmd.value.txn, now);
      if reply.Err? {
        return Failed(StoreError(reply.error));
      }
      return ZERO.(succeeded := reply.value.succeeded, results := reply.value.results);
    }

    method PerformGrant(cmd: Option<GrantCommand>, now: int) returns (r: Reply)
      requires store.Valid()
      modifies store
      ensures store.Valid() && (store.Value(), r) == ApplyGrant(old(store.Value()), cmd, now)
    {
      if cmd.None? {
        return Failed(NilPayload);
      }
      var id := store.LeaseGrant(cmd.value.ttl, now);
      return ZERO.(leaseID := id, leaseTTL := cmd.value.ttl);
    }

    method PerformRevoke(cmd: Option<LeaseCommand>, order: seq<Key>) returns (r: Reply)
      requires store.Valid()
      requires cmd.Some? && cmd.value.id in store.Value().leases ==>
        OrderOf(order, store.Value().leases[cmd.value.id].keys)
      modifies store
      ensures store.Valid() && (store.Value(), r) == ApplyRevoke(old(store.Value()), cmd, order)
    {
      if cmd.None? {
        return Failed(NilPayload);
      }
      var done := store.LeaseRevoke(cmd.value.id, order);
      if done.Err? {
        return Failed(StoreError(done.error));
      }
      return ZERO;
    }

    method PerformKeepAlive(cmd: Option<LeaseCommand>, now: int) returns (r: Reply)
      requires store.Valid()
      modifies store
      ensures store.Valid() && (store.Value(), r) == ApplyKeepAlive(old(store.Value()), cmd, now)
    {
      if cmd.None? {
        return Failed(NilPayload);
      }
      var ttl := store.LeaseKeepAlive(cmd.value.id, now);
      if ttl.Err? {
        return Failed(StoreError(ttl.error));
      }
      return ZERO.(leaseID := cmd.value.id, leaseTTL := ttl.value);
    }

    method PerformLease(x: Item) returns (r: Reply)
      requires store.Valid() && Allowed(store.Value(), x)
      requires x.cmd.kind.KindLeaseGrant? || x.cmd.kind.KindLeaseRevoke? || x.cmd.kind.KindLeaseKeepAlive?
      modifies store
      ensures store.Valid() && (store.Value(), r) == Perform(old(store.Value()), x)
    {
      match x.cmd.kind
      case KindLeaseGrant => r := PerformGrant(x.cmd.grant, x.now);
      case KindLeaseRevoke => r := PerformRevoke(x.cmd.revoke, x.order);
      case KindLeaseKeepAlive => r := PerformKeepAlive(x.cmd.keepAlive, x.now);
    }

    method PerformCommand(x: Item) returns (r: Reply)
      requires store.Valid() && Allowed(store.Value(), x)
      modifies store
      ensures store.Valid() && (store.Value(), r) == Perform(old(store.Value()), x)
    {
      match x.cmd.kind
      case KindKV => r := PerformKV(x.cmd.kv, x.now);
      case KindTxn => r := PerformTxn(x.cmd.txn, x.now);
      case KindOther => r := Failed(UnknownKind);
      case _ => r := PerformLease(x);
    }

    /** One command from the log; the reply goes to whoever waits at its index. */
    method ApplyOne(x: Item) returns (reply: Option<Reply>)
      requires store.Valid() && Allowed(store.Value(), x)
      modifies this, store
      ensures store.Valid() && (Value(), reply) == Step(old(Value()), x)
    {
      var client, n := ClientID(x.cmd), Seq(x.cmd);
      var lastSeq := if client in clientLastSeq then clientLastSeq[client] else 0;
      if n < lastSeq {
        return None;
      }
      if n == lastSeq {
        return Some(if client in clientLastReply then clientLastReply[client] else ZERO);
      }
      var result := PerformCommand(x);
      result := result.(kind := x.cmd.kind, clientID := client, seqNo := n);
      clientLastSeq := clientLastSeq[client := n];
      clientLastReply := clientLastReply[client := result];
      return Some(result);
    }

    method ApplyLoop(log: seq<Item>)
      requires store.Valid() && Possible(Value(), log)
      modifies this, store
      ensures store.Valid() && Value() == Run(old(Value()), log)
    {
      ghost var start := Value();
      for i := 0 to |log|
        invariant store.Valid() && Value() == Run(start, log[..i])
      {
        PossiblePrefix(start, log, i + 1);
        assert log[..i + 1][..i] == log[..i];
        var reply := ApplyOne(log[i]);
      }
      assert log[..|log|] == log;
    }

    method MakeSnapshotOf(v: S.Visit) returns (snap: ServerSnapshot)
      requires S.VisitOf(v, store.Value())
      ensures snap == MakeSnapshot(Value(), v)
    {
      var kv := store.Snapshot(v);
      snap := ServerSnapshot(kv, clientLastSeq, clientLastReply);
    }

    /** The store is in order after an accepted snapshot of a store that `ws` explains, and after a rejected one. */
    method RestoreFrom(snap: ServerSnapshot, ghost ws: seq<Write>)
      modifies this, store
      ensures Value() == RestoreSnapshot(old(Value()), snap)
      ensures (if S.Accepts(snap.kv) then S.MadeBy(snap.kv, ws) else old(store.Valid())) ==> store.Valid()
    {
      store.Restore(snap.kv, ws);
      clientLastSeq, clientLastReply := snap.lastSeq, snap.lastReply;
    }

    /** Restore and go on: a server that takes over the snapshot another made after `before`, and applies the rest,
        is the server that applied it all. */
    method RestoreAndApply(snap: ServerSnapshot, rest: seq<Item>, ghost before: seq<Item>, ghost v: S.Visit)
      requires Possible(START, before) && Run(START, before).store.currentRev >= 1
      requires S.VisitOf(v, Run(START, before).store) && snap == MakeSnapshot(Run(START, before), v)
      requires Possible(Run(START, before), rest)
      modifies this, store
      ensures store.Valid() && Value() == Run(START, before + rest)
    {
      ghost var s := Run(START, before);
      O.StartExplained();
      O.RunExplained(START, before);
      ghost var ws :| D.Sound(s.store, ws);
      assert S.MadeBy(snap.kv, ws);
      S.UncompactedIsWhole(s.store, ws);
      S.AcceptsIff(s.store, ws, v);
      O.RestoreIff(Value(), s, v);
      O.RunSplits(START, before, rest);
      RestoreFrom(snap, ws);
      ApplyLoop(rest);
    }
  }

  lemma {:induction false} PossiblePrefix(s: Server, log: seq<Item>, n: nat)
    requires Possible(s, log) && n <= |log|
    ensures Possible(s, log[..n])
  {
    if n == |log| {
      assert log[..n] == log;
    } else {
      PossiblePrefix(s, log[..|log| - 1], n);
      assert log[..|log| - 1][..n] == log[..n];
    }
  }
}
