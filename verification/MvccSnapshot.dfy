/** Snapshot and Restore of a store. Serialization is the identity here, except that an empty list of
    entries comes back as no list. */
module MvccSnapshot {
  import opened Keys
  import opened MvccSpec
  import opened MvccHistory
  import opened MvccLease

  datatype KeyEntry = KeyEntry(key: Key, revisions: seq<Version>)
  datatype LeaseRecord = LeaseRecord(id: int, ttl: int, expireAt: int, keys: seq<Key>)
  datatype Snapshot = Snapshot(
    currentRev: nat, compactRev: nat, entries: seq<KeyEntry>, events: seq<Event>,
    leases: seq<LeaseRecord>, keyLease: map<Key, int>, nextLeaseID: nat)

  // ---------- sorting ----------

  function SortKeys(keys: seq<Key>): seq<Key> {
    if keys == [] then [] else InsertKey(SortKeys(keys[1..]), keys[0])
  }

  lemma {:induction false} SortKeysIs(keys: seq<Key>)
    ensures Sorted(SortKeys(keys)) && ToSet(SortKeys(keys)) == ToSet(keys)
  {
    if keys != [] {
      SortKeysIs(keys[1..]);
      InsertKeeps(SortKeys(keys[1..]), keys[0]);
      assert keys == [keys[0]] + keys[1..];
    }
  }

  function InsertByRev<T>(xs: seq<T>, x: T, rev: T -> int): seq<T> {
    if xs == [] || rev(x) <= rev(xs[0]) then [x] + xs else [xs[0]] + InsertByRev(xs[1..], x, rev)
  }

  function SortByRev<T>(xs: seq<T>, rev: T -> int): seq<T> {
    if xs == [] then [] else InsertByRev(SortByRev(xs[1..], rev), xs[0], rev)
  }

  /** What is in order already stays as it is. */
  lemma {:induction false} SortedStays<T>(xs: seq<T>, rev: T -> int)
    requires forall i, j :: 0 <= i < j < |xs| ==> rev(xs[i]) < rev(xs[j])
    ensures SortByRev(xs, rev) == xs
  {
    if xs != [] {
      SortedStays(xs[1..], rev);
      assert xs == [xs[0]] + xs[1..];
    }
  }

  // ---------- taking ----------

  function RevOf(): Version -> int { (v: Version) => v.rev }
  function EventRev(): Event -> int { (e: Event) => e.rev }

  function Entries(data: map<Key, seq<Version>>, keys: seq<Key>): (es: seq<KeyEntry>)
    requires forall k :: k in keys ==> k in data
    ensures |es| == |keys|
    ensures forall i :: 0 <= i < |keys| ==> es[i] == KeyEntry(keys[i], SortByRev(data[keys[i]], RevOf()))
  {
    seq(|keys|, i requires 0 <= i < |keys| => KeyEntry(keys[i], SortByRev(data[keys[i]], RevOf())))
  }

  function Record(id: int, l: Lease, keys: seq<Key>): LeaseRecord {
    LeaseRecord(id, l.ttl, l.expireAt, SortKeys(keys))
  }

  /** The orders in which the maps of keys, of leases and of each lease's keys happen to be visited. */
  datatype Visit = Visit(keys: seq<Key>, ids: seq<int>, leaseKeys: map<int, seq<Key>>)

  ghost predicate VisitOf(v: Visit, st: State) {
    && OrderOf(v.keys, st.data.Keys)
    && (forall id :: id in v.ids <==> id in st.leases) && (forall i, j :: 0 <= i < j < |v.ids| ==> v.ids[i] != v.ids[j])
    && v.leaseKeys.Keys == st.leases.Keys
    && forall id :: id in st.leases ==> OrderOf(v.leaseKeys[id], st.leases[id].keys)
  }

  ghost function Records(st: State, v: Visit): (rs: seq<LeaseRecord>)
    requires VisitOf(v, st)
    ensures |rs| == |v.ids|
    ensures forall i :: 0 <= i < |rs| ==> rs[i] == Record(v.ids[i], st.leases[v.ids[i]], v.leaseKeys[v.ids[i]])
  {
    seq(|v.ids|, i requires 0 <= i < |v.ids| => Record(v.ids[i], st.leases[v.ids[i]], v.leaseKeys[v.ids[i]]))
  }

  ghost function Take(st: State, v: Visit): Snapshot
    requires VisitOf(v, st)
  {
    SortKeysIs(v.keys);
    assert forall k :: k in SortKeys(v.keys) ==> k in ToSet(SortKeys(v.keys));
    Snapshot(st.currentRev, st.compactRev, Entries(st.data, SortKeys(v.keys)), SortByRev(st.events, EventRev()),
             Records(st, v), st.keyLease, st.nextLeaseID)
  }

  // ---------- restoring ----------

  ghost predicate HasRev(es: seq<KeyEntry>, r: int) {
    exists i, j :: 0 <= i < |es| && 0 <= j < |es[i].revisions| && es[i].revisions[j].rev == r
  }

  /** The checks of Restore: some entry, the newest revision is the current one, none is missing. */
  ghost predicate Accepts(snap: Snapshot) {
    && snap.entries != []
    && (forall r :: HasRev(snap.entries, r) ==> r <= snap.currentRev)
    && (snap.currentRev > 0 ==> HasRev(snap.entries, snap.currentRev))
    && (forall r :: 1 <= r <= snap.currentRev ==> HasRev(snap.entries, r))
  }

  function DataOf(es: seq<KeyEntry>): map<Key, seq<Version>> {
    if es == [] then map[] else DataOf(es[..|es| - 1])[es[|es| - 1].key := es[|es| - 1].revisions]
  }

  function LeasesOf(rs: seq<LeaseRecord>): map<int, Lease> {
    if rs == [] then map[]
    else
      var r, m := rs[|rs| - 1], LeasesOf(rs[..|rs| - 1]);
      if r.id <= 0 then m else m[r.id := Lease(r.ttl, r.expireAt, ToSet(r.keys))]
  }

  function EntryKeys(es: seq<KeyEntry>): (ks: seq<Key>)
    ensures |ks| == |es| && forall i :: 0 <= i < |es| ==> ks[i] == es[i].key
  {
    seq(|es|, i requires 0 <= i < |es| => es[i].key)
  }

  /** What a store becomes: the snapshot if it is accepted, otherwise what it was. The index is rebuilt. */
  ghost function Restore(st: State, snap: Snapshot): State {
    if !Accepts(snap) then st
    else State(DataOf(snap.entries), SortKeys(EntryKeys(snap.entries)), snap.events,
               snap.currentRev, snap.compactRev, LeasesOf(snap.leases), snap.keyLease, snap.nextLeaseID)
  }

  /** Made by a store that these writes explain. */
  ghost predicate MadeBy(snap: Snapshot, ws: seq<Write>) {
    exists st, v :: VisitOf(v, st) && Refines(st, ws) && Consistent(st) && snap == Take(st, v)
  }

  // ---------- the round trip ----------

  /** Looked up by key, an entry list with different keys holds exactly its entries. */
  lemma {:induction false} DataOfEntries(es: seq<KeyEntry>)
    requires forall i, j :: 0 <= i < j < |es| ==> es[i].key != es[j].key
    ensures forall k :: k in DataOf(es) ==> exists i :: 0 <= i < |es| && es[i].key == k
    ensures forall i :: 0 <= i < |es| ==> es[i].key in DataOf(es) && DataOf(es)[es[i].key] == es[i].revisions
  {
    if es != [] {
      var init := es[..|es| - 1];
      DataOfEntries(init);
      forall k | k in DataOf(es)
        ensures exists i :: 0 <= i < |es| && es[i].key == k
      {
        if k in DataOf(init) {
          var i :| 0 <= i < |init| && init[i].key == k;
          assert es[i].key == k;
        }
      }
      forall i | 0 <= i < |es|
        ensures es[i].key in DataOf(es) && DataOf(es)[es[i].key] == es[i].revisions
      {
        if i < |init| { assert init[i] == es[i]; }
      }
    }
  }

  lemma TakenEntries(st: State, ws: seq<Write>, v: Visit)
    requires Refines(st, ws) && VisitOf(v, st)
    ensures SortKeys(v.keys) == st.sortedKeys && (forall k :: k in st.sortedKeys <==> k in st.data)
    ensures |Take(st, v).entries| == |st.sortedKeys|
    ensures forall i :: 0 <= i < |st.sortedKeys| ==>
      st.sortedKeys[i] in st.data && Take(st, v).entries[i] == KeyEntry(st.sortedKeys[i], st.data[st.sortedKeys[i]])
  {
    SortKeysIs(v.keys);
    SortedUnique(SortKeys(v.keys), st.sortedKeys);
    assert forall k :: k in st.sortedKeys <==> k in ToSet(st.sortedKeys);
    forall i | 0 <= i < |st.sortedKeys|
      ensures st.sortedKeys[i] in st.data
      ensures Take(st, v).entries[i] == KeyEntry(st.sortedKeys[i], st.data[st.sortedKeys[i]])
    {
      var k := st.sortedKeys[i];
      VersionsIncreasing(st, ws, k);
      SortedStays(st.data[k], RevOf());
    }
  }

  lemma EntriesRoundTrip(es: seq<KeyEntry>, keys: seq<Key>, data: map<Key, seq<Version>>)
    requires Sorted(keys) && |keys| == |es| && forall k :: k in keys <==> k in data
    requires forall i :: 0 <= i < |es| ==> keys[i] in data && es[i] == KeyEntry(keys[i], data[keys[i]])
    ensures DataOf(es) == data
  {
    forall i, j | 0 <= i < j < |es|
      ensures es[i].key != es[j].key
    {
      assert Less(keys[i], keys[j]);
      LessIrreflexive(keys[i]);
    }
    DataOfEntries(es);
    forall k | k in data
      ensures k in DataOf(es) && DataOf(es)[k] == data[k]
    {
      var i :| 0 <= i < |keys| && keys[i] == k;
      assert es[i].key == k;
    }
  }

  /** The histories come back. */
  lemma DataRoundTrip(st: State, ws: seq<Write>, v: Visit)
    requires Refines(st, ws) && VisitOf(v, st)
    ensures DataOf(Take(st, v).entries) == st.data
    ensures EntryKeys(Take(st, v).entries) == st.sortedKeys
  {
    TakenEntries(st, ws, v);
    var es := Take(st, v).entries;
    assert EntryKeys(es) == st.sortedKeys;
    assert forall k :: k in st.sortedKeys <==> k in ToSet(st.sortedKeys);
    EntriesRoundTrip(es, st.sortedKeys, st.data);
  }

  lemma EventsRoundTrip(st: State, ws: seq<Write>, v: Visit)
    requires Refines(st, ws) && VisitOf(v, st)
    ensures Take(st, v).events == st.events
  {
    SortedStays(st.events, EventRev());
  }

  lemma {:induction false} LeasesOfRecords(rs: seq<LeaseRecord>)
    requires forall i, j :: 0 <= i < j < |rs| ==> rs[i].id != rs[j].id
    requires forall i :: 0 <= i < |rs| ==> rs[i].id > 0
    ensures forall id :: id in LeasesOf(rs) <==> exists i :: 0 <= i < |rs| && rs[i].id == id
    ensures forall i :: 0 <= i < |rs| ==>
      rs[i].id in LeasesOf(rs) && LeasesOf(rs)[rs[i].id] == Lease(rs[i].ttl, rs[i].expireAt, ToSet(rs[i].keys))
  {
    if rs != [] {
      var init := rs[..|rs| - 1];
      LeasesOfRecords(init);
      forall i | 0 <= i < |rs|
        ensures rs[i].id in LeasesOf(rs)
        ensures LeasesOf(rs)[rs[i].id] == Lease(rs[i].ttl, rs[i].expireAt, ToSet(rs[i].keys))
      {
        if i < |init| { assert init[i] == rs[i]; }
      }
      forall id | id in LeasesOf(rs)
        ensures exists i :: 0 <= i < |rs| && rs[i].id == id
      {
        if id != rs[|rs| - 1].id {
          assert id in LeasesOf(init);
          var i :| 0 <= i < |init| && init[i].id == id;
          assert rs[i].id == id;
        }
      }
    }
  }

  /** The leases come back, with their keys. */
  lemma LeasesRoundTrip(st: State, v: Visit)
    requires Consistent(st) && VisitOf(v, st)
    ensures LeasesOf(Take(st, v).leases) == st.leases
  {
    var rs := Take(st, v).leases;
    forall i | 0 <= i < |rs|
      ensures rs[i].id > 0 && Lease(rs[i].ttl, rs[i].expireAt, ToSet(rs[i].keys)) == st.leases[rs[i].id]
    {
      assert v.ids[i] in v.ids;
      SortKeysIs(v.leaseKeys[v.ids[i]]);
    }
    LeasesOfRecords(rs);
    forall id | id in st.leases
      ensures id in LeasesOf(rs) && LeasesOf(rs)[id] == st.leases[id]
    {
      var i :| 0 <= i < |v.ids| && v.ids[i] == id;
      assert rs[i].id == id;
    }
    forall id | id in LeasesOf(rs)
      ensures id in st.leases
    {
      var i :| 0 <= i < |rs| && rs[i].id == id;
      assert v.ids[i] in v.ids;
    }
  }

  /** Restore rebuilds an accepted store exactly: histories, index, events, revisions, leases, bindings. */
  lemma RoundTrip(other: State, st: State, ws: seq<Write>, v: Visit)
    requires Refines(st, ws) && Consistent(st) && VisitOf(v, st) && Accepts(Take(st, v))
    ensures Restore(other, Take(st, v)) == st
  {
    DataRoundTrip(st, ws, v);
    EventsRoundTrip(st, ws, v);
    LeasesRoundTrip(st, v);
    SortKeysIs(st.sortedKeys);
    SortedUnique(SortKeys(st.sortedKeys), st.sortedKeys);
  }

  /** A store that takes over an accepted snapshot is explained by the writes of the store that made it. */
  lemma RestoredIsExplained(other: State, snap: Snapshot, ws: seq<Write>)
    requires MadeBy(snap, ws) && Accepts(snap)
    ensures Refines(Restore(other, snap), ws) && Consistent(Restore(other, snap))
  {
    var st, v :| VisitOf(v, st) && Refines(st, ws) && Consistent(st) && snap == Take(st, v);
    RoundTrip(other, st, ws, v);
  }

  // ---------- which stores are accepted ----------

  /** No version was dropped. */
  ghost predicate Whole(st: State, ws: seq<Write>) {
    forall k :: Versions(st, k) == History(ws, k)
  }

  lemma UncompactedIsWhole(st: State, ws: seq<Write>)
    requires Refines(st, ws) && st.compactRev == 0
    ensures Whole(st, ws)
  {
    forall k
      ensures Versions(st, k) == History(ws, k)
    {
      assert KeyOk(st, ws, k);
      var h, vs := History(ws, k), Versions(st, k);
      if |vs| < |h| {
        RetainedIsWritten(st, ws, k, vs[0]);
        assert false;
      }
      assert h[0..] == h;
    }
  }

  /** Revision `r` is a version of the key that write `r` wrote, and of no other. */
  lemma {:induction false} HistoryHas(ws: seq<Write>, k: Key, r: nat)
    ensures (exists v :: v in History(ws, k) && v.rev == r) <==> 1 <= r <= |ws| && ws[r - 1].key == k
  {
    if ws != [] {
      var init, w := ws[..|ws| - 1], ws[|ws| - 1];
      HistoryHas(init, k, r);
      if r == |ws| && w.key == k { assert VersionOf(w, |ws|) in History(ws, k); }
      if v :| v in History(init, k) && v.rev == r { assert v in History(ws, k); }
    }
  }

  ghost predicate Retained(st: State, r: int) {
    exists k, x :: x in Versions(st, k) && x.rev == r
  }

  lemma TakenHasRev(st: State, ws: seq<Write>, v: Visit, r: nat)
    requires Refines(st, ws) && VisitOf(v, st)
    ensures HasRev(Take(st, v).entries, r) <==> Retained(st, r)
  {
    TakenEntries(st, ws, v);
    var es := Take(st, v).entries;
    if Retained(st, r) {
      var k, x :| x in Versions(st, k) && x.rev == r;
      assert k in st.data;
      var i :| 0 <= i < |st.sortedKeys| && st.sortedKeys[i] == k;
      var j :| 0 <= j < |st.data[k]| && st.data[k][j] == x;
      assert es[i].revisions[j].rev == r;
    }
    if HasRev(es, r) {
      var i, j :| 0 <= i < |es| && 0 <= j < |es[i].revisions| && es[i].revisions[j].rev == r;
      var k := st.sortedKeys[i];
      assert es[i].revisions[j] in Versions(st, k);
    }
  }

  /** A retained revision is a revision of the list of writes. */
  lemma RetainedIsWritten(st: State, ws: seq<Write>, k: Key, x: Version)
    requires Refines(st, ws) && x in Versions(st, k)
    ensures x in History(ws, k) && 1 <= x.rev <= |ws| && ws[x.rev - 1].key == k
  {
    assert KeyOk(st, ws, k);
    var h, vs := History(ws, k), Versions(st, k);
    var j :| 0 <= j < |vs| && vs[j] == x;
    assert h[|h| - |vs| + j] == x;
    HistoryHas(ws, k, x.rev);
  }

  lemma SuffixLacksFirst(vs: seq<Version>, h: seq<Version>)
    requires IsSuffix(vs, h) && Increasing(h) && vs != h
    ensures h != [] && forall x :: x in vs ==> x.rev != h[0].rev
  {
    assert h[0..] == h;
    assert |vs| < |h|;
    forall x | x in vs
      ensures x.rev != h[0].rev
    {
      var j :| 0 <= j < |vs| && vs[j] == x;
      assert h[|h| - |vs| + j] == x;
    }
  }

  /** In an increasing history the suffix that has every version is the whole. */
  lemma MissingVersion(st: State, ws: seq<Write>, k: Key)
    requires Refines(st, ws) && Versions(st, k) != History(ws, k)
    ensures History(ws, k) != []
    ensures var r := History(ws, k)[0].rev;
      1 <= r <= |ws| && ws[r - 1].key == k && forall x :: x in Versions(st, k) ==> x.rev != r
  {
    assert KeyOk(st, ws, k);
    HistoryIncreasing(ws, k);
    SuffixLacksFirst(Versions(st, k), History(ws, k));
    FirstIsWritten(ws, k);
  }

  lemma FirstIsWritten(ws: seq<Write>, k: Key)
    requires History(ws, k) != []
    ensures var r := History(ws, k)[0].rev;
      1 <= r <= |ws| && ws[r - 1].key == k
  {
    var h := History(ws, k);
    assert h[0] in h;
    HistoryHas(ws, k, h[0].rev);
  }

  // ---------- counting versions ----------

  /** How many versions the store has of these keys. */
  function Total(st: State, keys: seq<Key>): nat {
    if keys == [] then 0 else |Versions(st, keys[0])| + Total(st, keys[1..])
  }

  function TotalEver(ws: seq<Write>, keys: seq<Key>): nat {
    if keys == [] then 0 else |History(ws, keys[0])| + TotalEver(ws, keys[1..])
  }

  lemma {:induction false} OneMore(ws: seq<Write>, keys: seq<Key>)
    requires ws != [] && Sorted(keys)
    ensures TotalEver(ws, keys) == TotalEver(ws[..|ws| - 1], keys) + if ws[|ws| - 1].key in keys then 1 else 0
    decreases |keys|
  {
    if keys != [] {
      OneMore(ws, keys[1..]);
      TailIn(keys);
    }
  }

  /** Every write made one version. */
  lemma {:induction false} EveryWriteCounts(ws: seq<Write>, keys: seq<Key>)
    requires Sorted(keys) && forall i :: 0 <= i < |ws| ==> ws[i].key in keys
    ensures TotalEver(ws, keys) == |ws|
    decreases |ws|
  {
    if ws == [] {
      NothingCounts(keys);
    } else {
      assert forall i :: 0 <= i < |ws| - 1 ==> ws[..|ws| - 1][i] == ws[i];
      EveryWriteCounts(ws[..|ws| - 1], keys);
      OneMore(ws, keys);
    }
  }

  lemma {:induction false} NothingCounts(keys: seq<Key>)
    ensures TotalEver([], keys) == 0
  {
    if keys != [] { NothingCounts(keys[1..]); }
  }

  lemma {:induction false} CompleteIff(st: State, ws: seq<Write>, keys: seq<Key>)
    requires Refines(st, ws)
    ensures Total(st, keys) <= TotalEver(ws, keys)
    ensures Total(st, keys) == TotalEver(ws, keys) <==> forall k :: k in keys ==> Versions(st, k) == History(ws, k)
  {
    if keys != [] {
      var k0, h, vs := keys[0], History(ws, keys[0]), Versions(st, keys[0]);
      CompleteIff(st, ws, keys[1..]);
      assert KeyOk(st, ws, k0);
      assert |vs| == |h| ==> vs == h by { assert h[0..] == h; }
      assert forall k :: k in keys <==> k == k0 || k in keys[1..];
    }
  }

  lemma WholeIffCount(st: State, ws: seq<Write>)
    requires Refines(st, ws)
    ensures Whole(st, ws) <==> Total(st, st.sortedKeys) == st.currentRev
  {
    forall i | 0 <= i < |ws|
      ensures ws[i].key in st.sortedKeys
    {
      HistoryHas(ws, ws[i].key, i + 1);
      assert KeyOk(st, ws, ws[i].key);
      assert ws[i].key in ToSet(st.sortedKeys);
    }
    EveryWriteCounts(ws, st.sortedKeys);
    CompleteIff(st, ws, st.sortedKeys);
    forall k | k !in st.sortedKeys
      ensures Versions(st, k) == History(ws, k)
    {
      assert k !in ToSet(st.sortedKeys) && KeyOk(st, ws, k);
    }
  }

  /** Restore accepts the snapshot of a store if and only if something was written and the versions it has
      number the current revision, that is, compaction dropped none. */
  lemma AcceptsIff(st: State, ws: seq<Write>, v: Visit)
    requires Refines(st, ws) && VisitOf(v, st)
    ensures Accepts(Take(st, v)) <==> st.currentRev >= 1 && Total(st, st.sortedKeys) == st.currentRev
    ensures Accepts(Take(st, v)) <==> st.currentRev >= 1 && Whole(st, ws)
  {
    WholeIffCount(st, ws);
    if st.currentRev == 0 {
      EmptyIsRejected(st, ws, v);
    } else if Whole(st, ws) {
      WholeIsAccepted(st, ws, v);
    } else {
      DroppedIsRejected(st, ws, v);
    }
  }

  /** Before the first write there is no entry, and no snapshot is restored. */
  lemma EmptyIsRejected(st: State, ws: seq<Write>, v: Visit)
    requires Refines(st, ws) && VisitOf(v, st) && st.currentRev == 0
    ensures !Accepts(Take(st, v))
  {
    TakenEntries(st, ws, v);
    forall k
      ensures k !in st.data
    {
      assert KeyOk(st, ws, k);
    }
    if st.sortedKeys != [] { NonEmptySet(st.sortedKeys); assert false; }
  }

  lemma DroppedIsRejected(st: State, ws: seq<Write>, v: Visit)
    requires Refines(st, ws) && VisitOf(v, st) && !Whole(st, ws)
    ensures !Accepts(Take(st, v))
  {
    var k :| Versions(st, k) != History(ws, k);
    var r := FirstDropped(st, ws, k);
    TakenHasRev(st, ws, v, r);
  }

  lemma FirstDropped(st: State, ws: seq<Write>, k: Key) returns (r: nat)
    requires Refines(st, ws) && Versions(st, k) != History(ws, k)
    ensures 1 <= r <= st.currentRev && !Retained(st, r)
  {
    MissingVersion(st, ws, k);
    r := History(ws, k)[0].rev;
    forall k', x | x in Versions(st, k')
      ensures x.rev != r
    {
      RetainedIsWritten(st, ws, k', x);
    }
  }

  lemma WholeIsAccepted(st: State, ws: seq<Write>, v: Visit)
    requires Refines(st, ws) && VisitOf(v, st) && st.currentRev >= 1 && Whole(st, ws)
    ensures Accepts(Take(st, v))
  {
    TakenEntries(st, ws, v);
    var snap := Take(st, v);
    forall r: int | 1 <= r <= st.currentRev
      ensures HasRev(snap.entries, r)
    {
      HistoryHas(ws, ws[r - 1].key, r);
      var x :| x in History(ws, ws[r - 1].key) && x.rev == r;
      assert x in Versions(st, ws[r - 1].key);
      TakenHasRev(st, ws, v, r);
    }
    forall r | HasRev(snap.entries, r)
      ensures r <= snap.currentRev
    {
      var i, j :| 0 <= i < |snap.entries| && 0 <= j < |snap.entries[i].revisions|
        && snap.entries[i].revisions[j].rev == r;
      RetainedIsWritten(st, ws, st.sortedKeys[i], snap.entries[i].revisions[j]);
    }
    assert HasRev(snap.entries, 1);
  }
}
