/** The store as the source writes it: maps, slices and counters updated in place, loops where the source
    loops. `writes` is the list of all writes; every method keeps the store explained by it. */
module MvccStore {
  import opened RaftTypes
  import opened Keys
  import M = MvccSpec
  import opened MvccSpec
  import H = MvccHistory
  import L = MvccLease
  import T = MvccTxn
  import Q = MvccRange
  import S = MvccSnapshot

  /** If `pos` is the last position not newer than `rev`, the linear search ends there. */
  lemma {:induction false} LatestAt(vs: seq<Version>, pos: int, rev: int)
    requires -1 <= pos < |vs|
    requires pos >= 0 ==> vs[pos].rev <= rev
    requires forall j :: pos < j < |vs| ==> vs[j].rev > rev
    ensures Latest(vs, rev) == if pos == -1 then None else Some(vs[pos])
    decreases |vs|
  {
    if vs != [] && pos < |vs| - 1 { LatestAt(vs[..|vs| - 1], pos, rev); }
  }

  /** The binary search of `Get` and `latestVisibleRevision` refines the linear one. */
  method SearchVersion(vs: seq<Version>, rev: int) returns (pos: int)
    requires Increasing(vs)
    ensures -1 <= pos < |vs|
    ensures Latest(vs, rev) == if pos == -1 then None else Some(vs[pos])
  {
    var left, right := 0, |vs| - 1;
    pos := -1;
    while left <= right
      invariant 0 <= left <= right + 1 <= |vs| && pos == left - 1
      invariant forall j :: 0 <= j < left ==> vs[j].rev <= rev
      invariant forall j :: right < j < |vs| ==> vs[j].rev > rev
      decreases right - left
    {
      var mid := (left + right) / 2;
      if vs[mid].rev <= rev {
        pos := mid;
        left := mid + 1;
      } else {
        right := mid - 1;
      }
    }
    LatestAt(vs, pos, rev);
  }

  method LatestVisibleRevision(vs: seq<Version>, rev: int) returns (r: Option<Version>)
    requires Increasing(vs)
    ensures r == Visible(vs, rev)
  {
    var pos := SearchVersion(vs, rev);
    if pos == -1 {
      return None;
    }
    if vs[pos].deleted {
      return None;
    }
    return Some(vs[pos]);
  }

  /** `prefixEnd` on its byte buffer. */
  method PrefixEndOf(prefix: Key) returns (end: Key)
    ensures end == PrefixEnd(prefix)
  {
    var b := new Byte[|prefix|](i requires 0 <= i < |prefix| => prefix[i]);
    var i := |prefix| - 1;
    assert prefix[..|prefix|] == prefix;
    while i >= 0
      invariant -1 <= i < |prefix|
      invariant b[..] == prefix
      invariant PrefixEnd(prefix[..i + 1]) == PrefixEnd(prefix)
    {
      if b[i] < 255 {
        b[i] := b[i] + 1;
        assert prefix[..i + 1][..i] == prefix[..i];
        return b[..i + 1];
      }
      assert prefix[..i + 1][..i] == prefix[..i];
      i := i - 1;
    }
    return [];
  }

  /** One step of the filter loop. */
  lemma AfterNext(kept: seq<Event>, es: seq<Event>, rev: int)
    requires es != []
    ensures kept + M.Later(es, rev) == (if es[0].rev > rev then kept + [es[0]] else kept) + M.Later(es[1..], rev)
  {
  }

  /** One step of the range loop. */
  lemma VisitNext(st: State, keys: seq<Key>, start: Key, end: Key, at: int)
    requires keys != []
    ensures var v := Visible(Versions(st, keys[0]), at);
      Collect(st, Between(keys, start, end), at) ==
      (if !Less(keys[0], start) && Less(keys[0], end) && v.Some?
       then [KeyValue(keys[0], v.value.value, v.value.rev)] else [])
        + Collect(st, Between(keys[1..], start, end), at)
  {
  }

  ghost predicate NonEmpty(st: State) {
    forall k :: k in st.data ==> st.data[k] != []
  }

  lemma NoneEmpty(st: State, ws: seq<Write>)
    requires H.Refines(st, ws)
    ensures NonEmpty(st)
  {
    forall k | k in st.data ensures st.data[k] != [] { assert H.KeyOk(st, ws, k); }
  }

  /** One step of the execution loop. */
  lemma ExecNext(st: State, ops: seq<T.Operation>, results: seq<KeyValue>, goal: seq<KeyValue>)
    requires ops != [] && T.LeasesKnown(st, ops) && results + T.Exec(st, ops).1 == goal
    ensures T.LeasesKnown(T.ExecOp(st, ops[0]), ops[1..])
    ensures T.Exec(T.ExecOp(st, ops[0]), ops[1..]).0 == T.Exec(st, ops).0
    ensures results + (if ops[0].OpGet? then T.ReadOp(st, ops[0].key) else [])
      + T.Exec(T.ExecOp(st, ops[0]), ops[1..]).1 == goal
  {
    T.ExecKeepsLeases(st, ops[0]);
    T.ConcatAssociative(results, if ops[0].OpGet? then T.ReadOp(st, ops[0].key) else [],
                        T.Exec(T.ExecOp(st, ops[0]), ops[1..]).1);
  }

  /** The revisions of one more entry. */
  lemma HasRevNext(es: seq<S.KeyEntry>, n: nat)
    requires n < |es|
    ensures forall r :: S.HasRev(es[..n + 1], r) <==>
      S.HasRev(es[..n], r) || exists m :: 0 <= m < |es[n].revisions| && es[n].revisions[m].rev == r
  {
  }

  class KVStore {
    var data: map<Key, seq<Version>>
    var sortedKeys: seq<Key>
    var events: seq<Event>
    var currentRev: nat
    var compactRev: nat
    var leases: map<int, Lease>
    var keyLease: map<Key, int>
    var nextLeaseID: nat
    ghost var writes: seq<Write>

    function Value(): State
      reads this
    {
      State(data, sortedKeys, events, currentRev, compactRev, leases, keyLease, nextLeaseID)
    }

    ghost predicate Valid()
      reads this
    {
      H.Refines(Value(), writes) && L.Consistent(Value())
    }

    constructor ()
      ensures Value() == M.EMPTY && writes == [] && Valid()
    {
      data, sortedKeys, events := map[], [], [];
      currentRev, compactRev, nextLeaseID := 0, 0, 0;
      leases, keyLease := map[], map[];
      writes := [];
      new;
      H.RefinesAtStart();
      L.LeasesAtStart();
    }

    // ---------- memory_backend.go ----------

    method InsertKeyIntoIndex(key: Key)
      modifies this`sortedKeys
      ensures sortedKeys == InsertKey(old(sortedKeys), key)
    {
      var pos := LowerBound(sortedKeys, key);
      if pos < |sortedKeys| && sortedKeys[pos] == key {
        return;
      }
      sortedKeys := sortedKeys[..pos] + [key] + sortedKeys[pos..];
    }

    method DeleteKeyFromIndex(key: Key)
      modifies this`sortedKeys
      ensures sortedKeys == DeleteKey(old(sortedKeys), key)
    {
      var pos := LowerBound(sortedKeys, key);
      if pos >= |sortedKeys| || sortedKeys[pos] != key {
        return;
      }
      sortedKeys := sortedKeys[..pos] + sortedKeys[pos + 1..];
    }

    method SetRevisions(key: Key, revisions: seq<Version>)
      modifies this`data, this`sortedKeys
      ensures Value() == M.SetRevisions(old(Value()), key, revisions)
    {
      if |revisions| == 0 {
        data := data - {key};
        DeleteKeyFromIndex(key);
        return;
      }
      if key !in data {
        InsertKeyIntoIndex(key);
      }
      data := data[key := revisions];
    }

    method AppendWrite(w: Write) returns (rev: nat, ev: Event)
      modifies this`data, this`sortedKeys, this`events, this`currentRev
      ensures Value() == M.Append(old(Value()), w)
      ensures rev == old(currentRev) + 1 && ev == EventOf(w, rev)
    {
      rev := currentRev + 1;
      currentRev := rev;
      var versions := if w.key in data then data[w.key] else [];
      versions := versions + [Version(rev, w.value, w.deleted)];
      SetRevisions(w.key, versions);
      ev := Event(if w.deleted then EventDelete else EventPut, w.key, w.value, rev);
      events := events + [ev];
    }

    // ---------- lease.go ----------

    method BindKeyToLease(key: Key, id: int)
      requires id in leases
      modifies this`leases, this`keyLease
      ensures Value() == M.Bind(old(Value()), key, id)
    {
      if key in keyLease && keyLease[key] != id {
        var oldID := keyLease[key];
        if oldID in leases {
          leases := leases[oldID := leases[oldID].(keys := leases[oldID].keys - {key})];
        }
      }
      leases := leases[id := leases[id].(keys := leases[id].keys + {key})];
      keyLease := keyLease[key := id];
    }

    method DetachKey(key: Key)
      modifies this`leases, this`keyLease
      ensures Value() == M.Detach(old(Value()), key)
    {
      if key !in keyLease {
        return;
      }
      var id := keyLease[key];
      keyLease := keyLease - {key};
      if id in leases {
        leases := leases[id := leases[id].(keys := leases[id].keys - {key})];
      }
    }

    /** Finds a lease exactly when a put under it would succeed, and then with exactly the keys bound to it. */
    method LookupLease(id: int, now: int) returns (r: Result<Lease>)
      ensures r == M.Lookup(Value(), id, now)
      ensures id != 0 ==> forall k, v :: M.Put(Value(), k, v, id, now).1.Ok? <==> r.Ok?
      ensures r.Ok? && L.Consistent(Value()) ==> forall k :: k in r.value.keys <==> L.BoundTo(Value(), k, id)
    {
      if id !in leases {
        return Err(LeaseNotFound);
      }
      if now > leases[id].expireAt {
        return Err(LeaseExpired);
      }
      if L.Consistent(Value()) {
        forall k ensures k in leases[id].keys <==> L.BoundTo(Value(), k, id) {
          assert L.HeldBy(Value(), k, id) <==> k in leases[id].keys;
        }
      }
      return Ok(leases[id]);
    }

    method AttachKey(k: Key, id: int, now: int) returns (r: Result<()>)
      requires Valid()
      modifies this
      ensures Valid() && writes == old(writes)
      ensures (Value(), r) == L.Attach(old(Value()), k, id, now)
    {
      L.AttachKeepsIff(Value(), writes, k, id, now);
      var lease := LookupLease(id, now);
      if lease.Err? {
        return Err(lease.error);
      }
      BindKeyToLease(k, id);
      return Ok(());
    }

    method LeaseGrant(ttl: int, now: int) returns (id: int)
      requires Valid()
      modifies this
      ensures Valid() && writes == old(writes)
      ensures (Value(), id) == M.Grant(old(Value()), ttl, now)
    {
      L.GrantKeeps(Value(), writes, ttl, now);
      nextLeaseID := nextLeaseID + 1;
      id := nextLeaseID;
      leases := leases[id := Lease(ttl, now + ttl * SECOND, {})];
    }

    method LeaseKeepAlive(id: int, now: int) returns (r: Result<int>)
      requires Valid()
      modifies this
      ensures Valid() && writes == old(writes)
      ensures (Value(), r) == M.KeepAlive(old(Value()), id, now)
    {
      L.KeepAliveKeeps(Value(), writes, id, now);
      if id !in leases {
        return Err(LeaseNotFound);
      }
      if now > leases[id].expireAt {
        return Err(LeaseExpired);
      }
      leases := leases[id := leases[id].(expireAt := now + leases[id].ttl * SECOND)];
      return Ok(leases[id].ttl);
    }

    /** `order` is the order in which the range over the lease's keys happens to visit them. */
    method LeaseRevoke(id: int, order: seq<Key>) returns (r: Result<()>)
      requires Valid()
      requires id in leases ==> OrderOf(order, leases[id].keys)
      modifies this
      ensures Valid()
      ensures (Value(), r) == M.Revoke(old(Value()), id, order)
      ensures writes == old(writes) + (if r.Ok? then L.Tombstones(order) else [])
    {
      if id !in leases {
        return Err(LeaseNotFound);
      }
      L.RevokeEffect(Value(), writes, id, order);
      ghost var goal := M.Revoke(Value(), id, order).0;
      leases := leases - {id};
      for i := 0 to |order|
        invariant M.DeleteAll(Value(), order[i..]) == goal && writes == old(writes)
      {
        assert order[i..][0] == order[i] && order[i..][1..] == order[i + 1..];
        DeleteLocked(order[i]);
      }
      writes := writes + L.Tombstones(order);
      return Ok(());
    }

    // ---------- kv_store.go ----------

    method DeleteLocked(k: Key)
      modifies this`data, this`sortedKeys, this`events, this`currentRev, this`leases, this`keyLease
      ensures Value() == M.Delete(old(Value()), k).0
    {
      var rev, ev := AppendWrite(Write(k, [], true));
      DetachKey(k);
    }

    method Put(k: Key, v: Bytes, leaseID: int, now: int) returns (r: Result<nat>)
      requires Valid()
      modifies this
      ensures Valid()
      ensures (Value(), r) == M.Put(old(Value()), k, v, leaseID, now)
      ensures writes == old(writes) + (if r.Ok? then [Write(k, v, false)] else [])
    {
      L.PutKeeps(Value(), writes, k, v, leaseID, now);
      if leaseID != 0 {
        var lease := LookupLease(leaseID, now);
        if lease.Err? {
          return Err(lease.error);
        }
      }
      var rev, ev := AppendWrite(Write(k, v, false));
      if leaseID != 0 {
        BindKeyToLease(k, leaseID);
      } else {
        DetachKey(k);
      }
      writes := writes + [Write(k, v, false)];
      return Ok(rev);
    }

    method Delete(k: Key) returns (rev: nat)
      requires Valid()
      modifies this
      ensures Valid()
      ensures (Value(), rev) == M.Delete(old(Value()), k)
      ensures writes == old(writes) + [Write(k, [], true)]
    {
      L.DeleteKeeps(Value(), writes, k);
      rev := currentRev + 1;
      DeleteLocked(k);
      writes := writes + [Write(k, [], true)];
    }

    /** A read at 0 or after the compacted revision is a replay of the writes. */
    method Get(k: Key, rev: int) returns (r: Option<Bytes>)
      requires Valid()
      ensures r == M.Get(Value(), k, rev)
      ensures rev == 0 || rev > compactRev ==>
        r == H.Replay(writes, k, if rev == 0 then |writes| else Min(rev, |writes|))
      ensures rev != 0 && rev <= compactRev ==> r == None
    {
      if rev == 0 || rev > compactRev { H.GetIsReplay(Value(), writes, k, rev); }
      if k !in data {
        return None;
      }
      if rev != 0 && rev <= compactRev {
        return None;
      }
      var at := if rev == 0 then currentRev else rev;
      H.VersionsIncreasing(Value(), writes, k);
      var pos := SearchVersion(data[k], at);
      if pos == -1 || data[k][pos].deleted {
        return None;
      }
      return Some(data[k][pos].value);
    }

    // ---------- range.go ----------

    method Range(start: Key, end: Key, rev: int) returns (result: seq<KeyValue>)
      requires Valid()
      ensures result == M.Range(Value(), start, end, rev)
      ensures rev != 0 || currentRev > compactRev ==> Q.IsPointwise(Value(), result, start, end, rev)
    {
      if rev != 0 {
        Q.RangeIsPointwise(Value(), writes, start, end, rev);
      } else {
        Q.RangeAtZero(Value(), writes, start, end);
      }
      var at := if rev == 0 then currentRev else rev;
      if at <= compactRev {
        return [];
      }
      var keys := RangeKeys(sortedKeys, start, end);
      result := Collect(keys, start, end, at);
    }

    method Collect(keys: seq<Key>, start: Key, end: Key, at: int) returns (result: seq<KeyValue>)
      requires H.Refines(Value(), writes)
      ensures result == M.Collect(Value(), M.Between(keys, start, end), at)
    {
      ghost var st := Value();
      ghost var goal := M.Collect(st, M.Between(keys, start, end), at);
      result := [];
      assert keys[0..] == keys;
      for i := 0 to |keys|
        invariant result + M.Collect(st, M.Between(keys[i..], start, end), at) == goal
      {
        assert keys[i..][0] == keys[i] && keys[i..][1..] == keys[i + 1..];
        VisitNext(st, keys[i..], start, end, at);
        if !Less(keys[i], start) && Less(keys[i], end) {
          H.VersionsIncreasing(st, writes, keys[i]);
          var visible := LatestVisibleRevision(if keys[i] in data then data[keys[i]] else [], at);
          if visible.Some? {
            result := result + [KeyValue(keys[i], visible.value.value, visible.value.rev)];
          }
        }
      }
      assert keys[|keys|..] == [];
    }

    method PrefixRange(prefix: Key, rev: int) returns (result: seq<KeyValue>)
      requires Valid()
      ensures result == M.PrefixRange(Value(), prefix, rev)
    {
      var end := PrefixEndOf(prefix);
      result := Range(prefix, end, rev);
    }

    // ---------- compact.go ----------

    method RewriteCompactedHistory(key: Key, versions: seq<Version>, firstAfter: int)
      requires |versions| > 1 && -1 <= firstAfter < |versions|
      modifies this`data, this`sortedKeys
      ensures Value() == if firstAfter == 0 then old(Value())
        else M.SetRevisions(old(Value()), key, versions[if firstAfter > 0 then firstAfter - 1 else |versions| - 1..])
    {
      if firstAfter == 0 {
        return;
      }
      var keepFrom := |versions| - 1;
      if firstAfter > 0 {
        keepFrom := firstAfter - 1;
      }
      SetRevisions(key, versions[keepFrom..]);
    }

    method Compact(rev: int) returns (r: Result<()>)
      requires Valid()
      modifies this
      ensures Valid() && writes == old(writes)
      ensures (Value(), r) == M.Compact(old(Value()), rev)
    {
      L.CompactKeeps(Value(), writes, rev);
      if rev <= compactRev || rev > currentRev {
        return Err(Compacted);
      }
      CompactHistories(rev);
      FilterEvents(rev);
      compactRev := rev;
      return Ok(());
    }

    method CompactHistories(rev: int)
      modifies this`data, this`sortedKeys
      ensures Value() == M.CompactKeys(old(Value()), old(sortedKeys), rev)
    {
      var keys := sortedKeys;
      ghost var goal := M.CompactKeys(Value(), keys, rev);
      for i := 0 to |keys|
        invariant M.CompactKeys(Value(), keys[i..], rev) == goal
      {
        assert keys[i..][0] == keys[i] && keys[i..][1..] == keys[i + 1..];
        CompactOne(keys[i], rev);
      }
      assert keys[|keys|..] == [];
    }

    method CompactOne(key: Key, rev: int)
      modifies this`data, this`sortedKeys
      ensures Value() == M.CompactKey(old(Value()), key, rev)
    {
      if key in data && |data[key]| > 1 {
        var versions := data[key];
        RewriteCompactedHistory(key, versions, FirstAfter(versions, rev));
      }
    }

    method FilterEvents(rev: int)
      modifies this`events
      ensures events == M.Later(old(events), rev)
    {
      var all, newEvents := events, [];
      assert all[0..] == all;
      for i := 0 to |all|
        invariant newEvents + M.Later(all[i..], rev) == M.Later(all, rev)
      {
        AfterNext(newEvents, all[i..], rev);
        assert all[i..][1..] == all[i + 1..];
        if all[i].rev > rev {
          newEvents := newEvents + [all[i]];
        }
      }
      assert all[|all|..] == [];
      events := newEvents;
    }

    // ---------- txn.go ----------

    /** Stops at the first compare that fails. */
    method CompareAll(compares: seq<T.Compare>) returns (ok: bool)
      requires NonEmpty(Value())
      ensures ok <==> forall i :: 0 <= i < |compares| ==> T.Passes(Value(), compares[i])
    {
      ok := true;
      var i := 0;
      while i < |compares|
        invariant 0 <= i <= |compares| && ok
        invariant forall j :: 0 <= j < i ==> T.Passes(Value(), compares[j])
      {
        var c := compares[i];
        var rev := 0;
        if c.key in data {
          rev := data[c.key][|data[c.key]| - 1].rev;
        }
        match c.op {
          case CompareEqual => if rev != c.rev { ok := false; }
          case CompareGreater => if rev <= c.rev { ok := false; }
          case CompareLess => if rev >= c.rev { ok := false; }
          case CompareOther =>
        }
        if !ok {
          assert !T.Passes(Value(), compares[i]);
          return;
        }
        i := i + 1;
      }
    }

    method ValidateLeases(ops: seq<T.Operation>, now: int) returns (bad: Option<Error>)
      ensures bad == T.FirstBad(Value(), ops, now)
    {
      for i := 0 to |ops|
        invariant T.FirstBad(Value(), ops[i..], now) == T.FirstBad(Value(), ops, now)
      {
        assert ops[i..][0] == ops[i] && ops[i..][1..] == ops[i + 1..];
        if ops[i].OpPut? && ops[i].leaseID != 0 {
          var lease := LookupLease(ops[i].leaseID, now);
          if lease.Err? {
            return Some(lease.error);
          }
        }
      }
      return None;
    }

    method Execute(op: T.Operation) returns (got: seq<KeyValue>)
      requires NonEmpty(Value()) && (op.OpPut? && op.leaseID != 0 ==> op.leaseID in leases)
      modifies this`data, this`sortedKeys, this`events, this`currentRev, this`leases, this`keyLease
      ensures NonEmpty(Value()) && Value() == T.ExecOp(old(Value()), op)
      ensures got == if op.OpGet? then T.ReadOp(old(Value()), op.key) else []
    {
      got := [];
      match op
      case OpGet(key) =>
        if key in data {
          var latest := data[key][|data[key]| - 1];
          if latest.deleted {
            got := [KeyValue([], latest.value, latest.rev)];
          } else {
            got := [KeyValue(key, latest.value, latest.rev)];
          }
        }
      case OpPut(key, value, id) =>
        var rev, ev := AppendWrite(Write(key, value, false));
        if id != 0 {
          BindKeyToLease(key, id);
        } else {
          DetachKey(key);
        }
      case OpDelete(key) => DeleteLocked(key);
      case OpOther =>
    }

    method ExecuteAll(ops: seq<T.Operation>) returns (results: seq<KeyValue>)
      requires NonEmpty(Value()) && T.LeasesKnown(Value(), ops)
      modifies this`data, this`sortedKeys, this`events, this`currentRev, this`leases, this`keyLease
      ensures (Value(), results) == T.Exec(old(Value()), ops)
    {
      results := [];
      ghost var goal := T.Exec(Value(), ops);
      assert ops[0..] == ops;
      for i := 0 to |ops|
        invariant NonEmpty(Value()) && T.LeasesKnown(Value(), ops[i..])
        invariant T.Exec(Value(), ops[i..]).0 == goal.0
        invariant results + T.Exec(Value(), ops[i..]).1 == goal.1
      {
        assert ops[i..][0] == ops[i] && ops[i..][1..] == ops[i + 1..];
        ExecNext(Value(), ops[i..], results, goal.1);
        var got := Execute(ops[i]);
        results := results + got;
      }
      assert ops[|ops|..] == [];
      assert results + [] == results;
      assert goal == (goal.0, goal.1);
    }

    method Txn(txn: T.Txn, now: int) returns (r: Result<T.TxnReply>)
      requires Valid()
      modifies this
      ensures Valid()
      ensures (Value(), r) == T.Transact(old(Value()), txn, now)
      ensures writes == old(writes) + (if r.Ok? then T.WritesIn(T.Branch(old(Value()), txn)) else [])
    {
      NoneEmpty(Value(), writes);
      T.TxnAtomic(Value(), writes, txn, now);
      var ok := CompareAll(txn.compares);
      var ops := if ok then txn.thenOps else txn.elseOps;
      var bad := ValidateLeases(ops, now);
      if bad.Some? {
        return Err(bad.value);
      }
      T.GoodLeasesKnown(Value(), ops, now);
      var results := ExecuteAll(ops);
      writes := writes + T.WritesIn(ops);
      return Ok(T.TxnReply(ok, results));
    }

    // ---------- snapshot and restore ----------

    method Snapshot(v: S.Visit) returns (snap: S.Snapshot)
      requires S.VisitOf(v, Value())
      ensures snap == S.Take(Value(), v)
    {
      var leaseRecords := SnapshotLeases(v);
      var keys := S.SortKeys(v.keys);
      S.SortKeysIs(v.keys);
      assert forall k :: k in keys ==> k in ToSet(keys);
      var entries := SnapshotEntries(keys);
      snap := S.Snapshot(currentRev, compactRev, entries, S.SortByRev(events, S.EventRev()), leaseRecords, keyLease,
                         nextLeaseID);
    }

    method SnapshotLeases(v: S.Visit) returns (records: seq<S.LeaseRecord>)
      requires S.VisitOf(v, Value())
      ensures records == S.Records(Value(), v)
    {
      records := [];
      for i := 0 to |v.ids|
        invariant records == S.Records(Value(), v)[..i]
      {
        assert v.ids[i] in v.ids;
        var l := leases[v.ids[i]];
        records := records + [S.LeaseRecord(v.ids[i], l.ttl, l.expireAt, S.SortKeys(v.leaseKeys[v.ids[i]]))];
      }
    }

    method SnapshotEntries(keys: seq<Key>) returns (entries: seq<S.KeyEntry>)
      requires forall k :: k in keys ==> k in data
      ensures entries == S.Entries(data, keys)
    {
      entries := [];
      for i := 0 to |keys|
        invariant entries == S.Entries(data, keys)[..i]
      {
        entries := entries + [S.KeyEntry(keys[i], S.SortByRev(data[keys[i]], S.RevOf()))];
      }
    }

    /** The revision checks: the newest revision is the current one and none before it is missing. */
    static method Check(snap: S.Snapshot) returns (ok: bool)
      ensures ok <==> S.Accepts(snap)
    {
      if snap.entries == [] {
        return false;
      }
      var seen, maxRev := CollectRevisions(snap.entries);
      if maxRev != snap.currentRev {
        assert S.Accepts(snap) && snap.currentRev > 0 ==> snap.currentRev in seen;
        return false;
      }
      for i := 1 to maxRev + 1
        invariant forall r :: 1 <= r < i ==> S.HasRev(snap.entries, r)
      {
        if i !in seen {
          assert !S.HasRev(snap.entries, i);
          return false;
        }
      }
      return true;
    }

    static method CollectRevisions(entries: seq<S.KeyEntry>) returns (seen: set<int>, maxRev: nat)
      ensures forall r :: r in seen <==> S.HasRev(entries, r)
      ensures (forall r :: r in seen ==> r <= maxRev) && (maxRev > 0 ==> maxRev in seen)
    {
      seen, maxRev := {}, 0;
      for i := 0 to |entries|
        invariant forall r :: r in seen <==> S.HasRev(entries[..i], r)
        invariant (forall r :: r in seen ==> r <= maxRev) && (maxRev > 0 ==> maxRev in seen)
      {
        ghost var before := seen;
        for j := 0 to |entries[i].revisions|
          invariant forall r :: r in seen <==> r in before || exists m :: 0 <= m < j && entries[i].revisions[m].rev == r
          invariant (forall r :: r in seen ==> r <= maxRev) && (maxRev > 0 ==> maxRev in seen)
        {
          var rev := entries[i].revisions[j].rev;
          seen := seen + {rev};
          if rev > maxRev {
            maxRev := rev;
          }
        }
        HasRevNext(entries, i);
      }
      assert entries[..|entries|] == entries;
    }

    /** A rejected snapshot leaves the store as it was; an accepted one, made by a store that `ws` explains,
        leaves a store that `ws` explains. */
    method Restore(snap: S.Snapshot, ghost ws: seq<Write>)
      modifies this
      ensures Value() == S.Restore(old(Value()), snap)
      ensures writes == if S.Accepts(snap) then ws else old(writes)
      ensures (if S.Accepts(snap) then S.MadeBy(snap, ws) else old(Valid())) ==> Valid()
    {
      var ok := Check(snap);
      if !ok {
        return;
      }
      if S.MadeBy(snap, ws) { S.RestoredIsExplained(Value(), snap, ws); }
      ReplaceState(snap);
      writes := ws;
    }

    method ReplaceState(snap: S.Snapshot)
      modifies this`data, this`sortedKeys, this`events, this`currentRev, this`compactRev, this`leases, this`keyLease,
               this`nextLeaseID
      ensures S.Accepts(snap) ==> Value() == S.Restore(old(Value()), snap)
    {
      data := RestoreData(snap.entries);
      leases := RestoreLeases(snap.leases);
      sortedKeys, events := S.SortKeys(S.EntryKeys(snap.entries)), snap.events;
      currentRev, compactRev := snap.currentRev, snap.compactRev;
      keyLease, nextLeaseID := snap.keyLease, snap.nextLeaseID;
    }

    static method RestoreData(entries: seq<S.KeyEntry>) returns (dataMap: map<Key, seq<Version>>)
      ensures dataMap == S.DataOf(entries)
    {
      dataMap := map[];
      for i := 0 to |entries|
        invariant dataMap == S.DataOf(entries[..i])
      {
        assert entries[..i + 1][..i] == entries[..i];
        dataMap := dataMap[entries[i].key := entries[i].revisions];
      }
      assert entries[..|entries|] == entries;
    }

    static method RestoreLeases(records: seq<S.LeaseRecord>) returns (result: map<int, Lease>)
      ensures result == S.LeasesOf(records)
    {
      result := map[];
      for i := 0 to |records|
        invariant result == S.LeasesOf(records[..i])
      {
        assert records[..i + 1][..i] == records[..i];
        if records[i].id > 0 {
          result := result[records[i].id := Lease(records[i].ttl, records[i].expireAt, ToSet(records[i].keys))];
        }
      }
      assert records[..|records|] == records;
    }
  }
}
