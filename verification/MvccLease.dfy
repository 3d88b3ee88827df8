/** Leases and the keys bound to them. */
module MvccLease {
  import opened RaftTypes
  import opened Keys
  import opened MvccSpec
  import opened MvccHistory

  ghost predicate BoundTo(st: State, k: Key, id: int) {
    k in st.keyLease && st.keyLease[k] == id
  }

  ghost predicate HeldBy(st: State, k: Key, id: int) {
    id in st.leases && k in st.leases[id].keys
  }

  /** A lease lists a key if and only if the key points to the lease. */
  ghost predicate Consistent(st: State) {
    && (forall k, id {:trigger BoundTo(st, k, id)} {:trigger HeldBy(st, k, id)} ::
          HeldBy(st, k, id) <==> BoundTo(st, k, id))
    && (forall id :: id in st.leases ==> 1 <= id <= st.nextLeaseID)
  }

  predicate IsLive(st: State, k: Key) {
    k in st.data && |st.data[k]| > 0 && !st.data[k][|st.data[k]| - 1].deleted
  }

  ghost predicate LeasedAreLive(st: State) {
    forall k :: k in st.keyLease ==> IsLive(st, k)
  }

  /** A step that leaves no leased key dead if there was none. */
  ghost predicate KeepsLive(st: State, st': State) {
    LeasedAreLive(st) ==> LeasedAreLive(st')
  }

  lemma LeasesAtStart()
    ensures Consistent(EMPTY) && LeasedAreLive(EMPTY)
  {
  }

  // ---------- binding ----------

  lemma ConsistentBind(st: State, k: Key, id: int)
    requires Consistent(st) && id in st.leases
    ensures Consistent(Bind(st, k, id)) && BoundTo(Bind(st, k, id), k, id)
    ensures forall k' :: k' in Bind(st, k, id).keyLease <==> k' in st.keyLease || k' == k
  {
    var st' := Bind(st, k, id);
    forall k', id'
      ensures HeldBy(st', k', id') <==> BoundTo(st', k', id')
    {
      assert HeldBy(st, k', id') <==> BoundTo(st, k', id');
      assert HeldBy(st, k, id') <==> BoundTo(st, k, id');
    }
  }

  lemma ConsistentDetach(st: State, k: Key)
    requires Consistent(st)
    ensures Consistent(Detach(st, k)) && k !in Detach(st, k).keyLease
    ensures forall k' :: k' in Detach(st, k).keyLease <==> k' in st.keyLease && k' != k
  {
    var st' := Detach(st, k);
    forall k', id'
      ensures HeldBy(st', k', id') <==> BoundTo(st', k', id')
    {
      assert HeldBy(st, k', id') <==> BoundTo(st, k', id');
      assert HeldBy(st, k, id') <==> BoundTo(st, k, id');
    }
  }

  /** A write changes no binding; only the written key's last version changes. */
  lemma AppendKeepsLeases(st: State, w: Write)
    requires Consistent(st)
    ensures Consistent(Append(st, w)) && Append(st, w).keyLease == st.keyLease && Append(st, w).leases == st.leases
    ensures IsLive(Append(st, w), w.key) == !w.deleted
    ensures forall k :: k != w.key ==> IsLive(Append(st, w), k) == IsLive(st, k)
  {
    var st' := Append(st, w);
    forall k, id
      ensures HeldBy(st', k, id) <==> BoundTo(st', k, id)
    {
      assert HeldBy(st, k, id) <==> BoundTo(st, k, id);
    }
  }

  lemma BoundKeepsData(st: State, k: Key, id: int)
    requires id != 0 ==> id in st.leases
    ensures Bound(st, k, id) == st.(leases := Bound(st, k, id).leases, keyLease := Bound(st, k, id).keyLease)
    ensures Bound(st, k, id).leases.Keys == st.leases.Keys
    ensures forall id' :: id' in st.leases ==> Bound(st, k, id).leases[id'].expireAt == st.leases[id'].expireAt
  {
  }

  // ---------- single operations ----------

  lemma PutKeeps(st: State, ws: seq<Write>, k: Key, v: Bytes, id: int, now: int)
    requires Refines(st, ws) && Consistent(st)
    ensures var (st', r) := Put(st, k, v, id, now);
      && Refines(st', if r.Ok? then ws + [Write(k, v, false)] else ws) && Consistent(st') && KeepsLive(st, st')
      && (r.Ok? <==> id == 0 || (id in st.leases && now <= st.leases[id].expireAt))
      && (r.Err? ==> st' == st)
      && (r.Ok? ==> if id == 0 then k !in st'.keyLease else BoundTo(st', k, id))
  {
    var (st', r) := Put(st, k, v, id, now);
    if r.Ok? {
      var w := Write(k, v, false);
      RefinesAppend(st, ws, w);
      AppendKeepsLeases(st, w);
      BoundKeeps(Append(st, w), ws + [w], k, id);
    }
  }

  /** Binding a key leaves the data and its other bindings. */
  lemma BoundKeeps(st: State, ws: seq<Write>, k: Key, id: int)
    requires Refines(st, ws) && Consistent(st) && (id != 0 ==> id in st.leases)
    ensures var st' := Bound(st, k, id);
      && Refines(st', ws) && Consistent(st') && st'.data == st.data
      && (if id == 0 then k !in st'.keyLease else BoundTo(st', k, id))
      && forall k' :: k' in st'.keyLease ==> k' in st.keyLease || k' == k
  {
    BoundKeepsData(st, k, id);
    RefinesSame(st, Bound(st, k, id), ws);
    if id != 0 { ConsistentBind(st, k, id); } else { ConsistentDetach(st, k); }
  }

  lemma DeleteKeeps(st: State, ws: seq<Write>, k: Key)
    requires Refines(st, ws) && Consistent(st)
    ensures Refines(Delete(st, k).0, ws + [Write(k, [], true)]) && k !in Delete(st, k).0.keyLease
    ensures Consistent(Delete(st, k).0) && KeepsLive(st, Delete(st, k).0)
  {
    var w := Write(k, [], true);
    RefinesAppend(st, ws, w);
    AppendKeepsLeases(st, w);
    RefinesSame(Append(st, w), Delete(st, k).0, ws + [w]);
    ConsistentDetach(Append(st, w), k);
  }

  lemma GrantKeeps(st: State, ws: seq<Write>, ttl: int, now: int)
    requires Refines(st, ws) && Consistent(st)
    ensures var (st', id) := Grant(st, ttl, now);
      && Refines(st', ws) && Consistent(st') && KeepsLive(st, st')
      && id !in st.leases
      && Lookup(st', id, now) == (if ttl >= 0 then Ok(Lease(ttl, now + ttl * SECOND, {})) else Err(LeaseExpired))
  {
    var (st', id) := Grant(st, ttl, now);
    RefinesSame(st, st', ws);
    forall k, id'
      ensures HeldBy(st', k, id') <==> BoundTo(st', k, id')
    {
      assert HeldBy(st, k, id') <==> BoundTo(st, k, id');
    }
  }

  lemma KeepAliveKeeps(st: State, ws: seq<Write>, id: int, now: int)
    requires Refines(st, ws) && Consistent(st)
    ensures var (st', r) := KeepAlive(st, id, now);
      && Refines(st', ws) && Consistent(st') && KeepsLive(st, st')
      && (r.Ok? <==> id in st.leases && now <= st.leases[id].expireAt)
      && (r.Err? ==> st' == st)
      && (r.Ok? ==>
            && r.value == st.leases[id].ttl && st'.leases.Keys == st.leases.Keys
            && st'.leases[id] == st.leases[id].(expireAt := now + r.value * SECOND)
            && forall id' :: id' in st.leases && id' != id ==> st'.leases[id'] == st.leases[id'])
  {
    if KeepAlive(st, id, now).1.Ok? { RenewKeeps(st, ws, id, now + st.leases[id].ttl * SECOND); }
  }

  function Renewed(st: State, id: int, at: int): State
    requires id in st.leases
  {
    st.(leases := st.leases[id := st.leases[id].(expireAt := at)])
  }

  /** The keys of a lease do not depend on its time. */
  lemma RenewKeeps(st: State, ws: seq<Write>, id: int, at: int)
    requires Refines(st, ws) && Consistent(st) && id in st.leases
    ensures Refines(Renewed(st, id, at), ws) && Consistent(Renewed(st, id, at)) && KeepsLive(st, Renewed(st, id, at))
  {
    var st' := Renewed(st, id, at);
    RefinesSame(st, st', ws);
    forall k, id'
      ensures HeldBy(st', k, id') <==> BoundTo(st', k, id')
    {
      assert HeldBy(st, k, id') <==> BoundTo(st, k, id');
    }
  }

  /** AttachKey binds without writing, so it keeps leased keys live if and only if the key is live. */
  function Attach(st: State, k: Key, id: int, now: int): (State, Result<()>) {
    match Lookup(st, id, now)
    case Err(e) => (st, Err(e))
    case Ok(_) => (Bind(st, k, id), Ok(()))
  }

  lemma AttachKeepsIff(st: State, ws: seq<Write>, k: Key, id: int, now: int)
    requires Refines(st, ws) && Consistent(st)
    ensures Refines(Attach(st, k, id, now).0, ws) && Consistent(Attach(st, k, id, now).0)
    ensures Attach(st, k, id, now).1.Ok? ==> BoundTo(Attach(st, k, id, now).0, k, id)
    ensures LeasedAreLive(st) ==>
      (LeasedAreLive(Attach(st, k, id, now).0) <==> Attach(st, k, id, now).1.Err? || IsLive(st, k))
  {
    var st' := Attach(st, k, id, now).0;
    RefinesSame(st, st', ws);
    if Attach(st, k, id, now).1.Ok? {
      ConsistentBind(st, k, id);
      assert k in st'.keyLease;
    }
  }

  lemma LastKept(vs: seq<Version>, rev: int)
    requires vs != []
    ensures CompactHistory(vs, rev) != [] && CompactHistory(vs, rev)[|CompactHistory(vs, rev)| - 1] == vs[|vs| - 1]
  {
  }

  lemma CompactKeeps(st: State, ws: seq<Write>, rev: int)
    requires Refines(st, ws) && Consistent(st)
    ensures Refines(Compact(st, rev).0, ws) && Consistent(Compact(st, rev).0) && KeepsLive(st, Compact(st, rev).0)
  {
    RefinesCompact(st, ws, rev);
    var st' := Compact(st, rev).0;
    if st.compactRev < rev <= st.currentRev {
      CompactData(st, ws, rev);
      forall k, id
        ensures HeldBy(st', k, id) <==> BoundTo(st', k, id)
      {
        assert HeldBy(st, k, id) <==> BoundTo(st, k, id);
      }
      forall k | k in st'.keyLease && IsLive(st, k)
        ensures IsLive(st', k)
      {
        LastKept(st.data[k], rev);
      }
    }
  }

  lemma CompactData(st: State, ws: seq<Write>, rev: int)
    requires Refines(st, ws) && st.compactRev < rev <= st.currentRev
    ensures var st' := Compact(st, rev).0;
      && st' == st.(data := st'.data, events := st'.events, compactRev := rev)
      && st'.data.Keys == st.data.Keys && forall k :: k in st.data ==> st'.data[k] == CompactHistory(st.data[k], rev)
  {
    forall k | k in st.sortedKeys
      ensures k in st.data && st.data[k] != []
    {
      assert k in ToSet(st.sortedKeys) && KeyOk(st, ws, k);
    }
    CompactKeysEffect(st, st.sortedKeys, rev);
    forall k | k in st.data
      ensures k in st.sortedKeys
    {
      assert k in ToSet(st.sortedKeys);
    }
  }

  // ---------- revoking ----------

  function Tombstones(keys: seq<Key>): seq<Write> {
    seq(|keys|, i requires 0 <= i < |keys| => Write(keys[i], [], true))
  }

  /** The bindings of `keys` are gone; other keys and all leases are as they were. */
  ghost predicate Loses(st: State, st': State, keys: set<Key>) {
    && st'.leases == st.leases && st'.keyLease == st.keyLease - keys && st'.nextLeaseID == st.nextLeaseID
    && (forall k :: k !in keys ==> Versions(st', k) == Versions(st, k))
  }

  lemma LosesMore(st: State, st1: State, st': State, k: Key, keys: set<Key>)
    requires Loses(st, st1, {k}) && Loses(st1, st', keys)
    ensures Loses(st, st', {k} + keys)
  {
    assert st.keyLease - {k} - keys == st.keyLease - ({k} + keys);
  }

  lemma DeleteBound(st: State, ws: seq<Write>, id: int, k: Key)
    requires Refines(st, ws) && id !in st.leases && BoundTo(st, k, id)
    ensures Refines(Delete(st, k).0, ws + [Write(k, [], true)]) && Loses(st, Delete(st, k).0, {k})
  {
    var w := Write(k, [], true);
    RefinesAppend(st, ws, w);
    RefinesSame(Append(st, w), Delete(st, k).0, ws + [w]);
  }

  lemma TombstonesFirst(ws: seq<Write>, keys: seq<Key>)
    requires keys != []
    ensures ws + [Write(keys[0], [], true)] + Tombstones(keys[1..]) == ws + Tombstones(keys)
    ensures ToSet(keys) == {keys[0]} + ToSet(keys[1..])
  {
  }

  /** The deletes of a revoked lease write one tombstone each, in visiting order, and undo the bindings;
      the other leases and bindings are untouched. */
  lemma {:induction false} DeleteAllEffect(st: State, ws: seq<Write>, id: int, keys: seq<Key>)
    requires Refines(st, ws) && id !in st.leases
    requires forall i, j :: 0 <= i < j < |keys| ==> keys[i] != keys[j]
    requires forall i :: 0 <= i < |keys| ==> BoundTo(st, keys[i], id)
    ensures Refines(DeleteAll(st, keys), ws + Tombstones(keys)) && Loses(st, DeleteAll(st, keys), ToSet(keys))
    decreases |keys|
  {
    if keys == [] {
      assert ws + Tombstones(keys) == ws;
    } else {
      var k0, rest := keys[0], keys[1..];
      var st1 := Delete(st, k0).0;
      DeleteBound(st, ws, id, k0);
      forall i | 0 <= i < |rest|
        ensures BoundTo(st1, rest[i], id)
      {
        assert BoundTo(st, keys[i + 1], id);
      }
      DeleteAllEffect(st1, ws + [Write(k0, [], true)], id, rest);
      TombstonesFirst(ws, keys);
      LosesMore(st, st1, DeleteAll(st1, rest), k0, ToSet(rest));
    }
  }

  /** LeaseRevoke writes a tombstone for each attached key and nothing else, in whatever order the keys
      are visited, and drops the lease with all its bindings. */
  lemma RevokeEffect(st: State, ws: seq<Write>, id: int, order: seq<Key>)
    requires Refines(st, ws) && Consistent(st)
    requires id in st.leases && OrderOf(order, st.leases[id].keys)
    ensures var st' := Revoke(st, id, order).0;
      && Refines(st', ws + Tombstones(order)) && Consistent(st') && KeepsLive(st, st')
      && st'.currentRev == st.currentRev + |order|
      && st'.leases == st.leases - {id} && st'.keyLease == st.keyLease - st.leases[id].keys
      && (forall k :: k !in st.leases[id].keys ==> Versions(st', k) == Versions(st, k))
  {
    var st1 := st.(leases := st.leases - {id});
    var st' := Revoke(st, id, order).0;
    RefinesSame(st, st1, ws);
    forall i | 0 <= i < |order|
      ensures BoundTo(st1, order[i], id)
    {
      assert order[i] in ToSet(order);
      assert HeldBy(st, order[i], id);
    }
    DeleteAllEffect(st1, ws, id, order);
    forall k, id'
      ensures HeldBy(st', k, id') <==> BoundTo(st', k, id')
    {
      assert HeldBy(st, k, id') <==> BoundTo(st, k, id');
      assert HeldBy(st, k, id) <==> BoundTo(st, k, id);
    }
    forall k | k in st'.keyLease && IsLive(st, k)
      ensures IsLive(st', k)
    {
      assert k !in ToSet(order);
      assert Versions(st', k) == Versions(st, k);
    }
  }

  lemma {:induction false} ReplayTombstones(ws: seq<Write>, keys: seq<Key>, k: Key, n: nat)
    requires n <= |keys|
    ensures var all := ws + Tombstones(keys);
      Replay(all, k, |ws| + n) == if k in keys[..n] then None else Replay(ws, k, |ws|)
  {
    var all := ws + Tombstones(keys);
    if n == 0 {
      ReplayPrefix(all, ws, k, |ws|);
    } else {
      ReplayTombstones(ws, keys, k, n - 1);
      assert keys[..n] == keys[..n - 1] + [keys[n - 1]];
    }
  }

  /** What is live after a revoke does not depend on the order of the map iteration: the attached keys are
      gone and every other key reads as before. */
  lemma RevokeLiveMap(st: State, ws: seq<Write>, id: int, order: seq<Key>, k: Key)
    requires Refines(st, ws) && Consistent(st)
    requires id in st.leases && OrderOf(order, st.leases[id].keys)
    ensures Get(Revoke(st, id, order).0, k, 0) == if k in st.leases[id].keys then None else Get(st, k, 0)
  {
    RevokeEffect(st, ws, id, order);
    var st' := Revoke(st, id, order).0;
    GetIsReplay(st, ws, k, 0);
    GetIsReplay(st', ws + Tombstones(order), k, 0);
    ReplayTombstones(ws, order, k, |order|);
    assert order[..|order|] == order;
    assert k in order <==> k in ToSet(order);
  }
}
