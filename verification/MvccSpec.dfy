/** The MVCC store of internal/storage/mvcc as values: state, single operations, reads, compaction. */
module MvccSpec {
  import opened RaftTypes
  import opened Keys

  datatype Version = Version(rev: nat, value: Bytes, deleted: bool)
  datatype EventType = EventPut | EventDelete
  datatype Event = Event(kind: EventType, key: Key, value: Bytes, rev: nat)
  datatype KeyValue = KeyValue(key: Key, value: Bytes, rev: nat)
  datatype Lease = Lease(ttl: int, expireAt: int, keys: set<Key>)

  datatype State = State(
    data: map<Key, seq<Version>>, sortedKeys: seq<Key>, events: seq<Event>,
    currentRev: nat, compactRev: nat,
    leases: map<int, Lease>, keyLease: map<Key, int>, nextLeaseID: nat)

  const EMPTY := State(map[], [], [], 0, 0, map[], map[], 0)

  datatype Error = LeaseNotFound | LeaseExpired | Compacted
  datatype Result<+T> = Ok(value: T) | Err(error: Error)

  function Versions(st: State, k: Key): seq<Version> {
    if k in st.data then st.data[k] else []
  }

  /** The index follows the map: an empty history leaves both. */
  function SetRevisions(st: State, k: Key, vs: seq<Version>): State {
    if vs == [] then st.(data := st.data - {k}, sortedKeys := DeleteKey(st.sortedKeys, k))
    else st.(data := st.data[k := vs],
             sortedKeys := if k in st.data then st.sortedKeys else InsertKey(st.sortedKeys, k))
  }

  /** A write: `putLocked`, or `deleteLocked` up to its lease part. */
  datatype Write = Write(key: Key, value: Bytes, deleted: bool)

  function VersionOf(w: Write, rev: nat): Version {
    Version(rev, w.value, w.deleted)
  }

  function EventOf(w: Write, rev: nat): Event {
    Event(if w.deleted then EventDelete else EventPut, w.key, w.value, rev)
  }

  function Append(st: State, w: Write): State {
    var rev := st.currentRev + 1;
    var s := SetRevisions(st, w.key, Versions(st, w.key) + [VersionOf(w, rev)]);
    s.(currentRev := rev, events := s.events + [EventOf(w, rev)])
  }

  // ---------- leases ----------

  function WithoutKey(leases: map<int, Lease>, id: int, k: Key): map<int, Lease> {
    if id in leases then leases[id := leases[id].(keys := leases[id].keys - {k})] else leases
  }

  function Bind(st: State, k: Key, id: int): State
    requires id in st.leases
  {
    var leases :=
      if k in st.keyLease && st.keyLease[k] != id then WithoutKey(st.leases, st.keyLease[k], k) else st.leases;
    st.(leases := leases[id := leases[id].(keys := leases[id].keys + {k})], keyLease := st.keyLease[k := id])
  }

  function Detach(st: State, k: Key): State {
    if k !in st.keyLease then st
    else st.(keyLease := st.keyLease - {k}, leases := WithoutKey(st.leases, st.keyLease[k], k))
  }

  function Lookup(st: State, id: int, now: int): Result<Lease> {
    if id !in st.leases then Err(LeaseNotFound)
    else if now > st.leases[id].expireAt then Err(LeaseExpired)
    else Ok(st.leases[id])
  }

  const SECOND := 1_000_000_000

  function Grant(st: State, ttl: int, now: int): (State, int) {
    var id := st.nextLeaseID + 1;
    (st.(nextLeaseID := id, leases := st.leases[id := Lease(ttl, now + ttl * SECOND, {})]), id)
  }

  function KeepAlive(st: State, id: int, now: int): (State, Result<int>) {
    match Lookup(st, id, now)
    case Err(e) => (st, Err(e))
    case Ok(lease) => (st.(leases := st.leases[id := lease.(expireAt := now + lease.ttl * SECOND)]), Ok(lease.ttl))
  }

  // ---------- single operations ----------

  function Bound(st: State, k: Key, id: int): State
    requires id != 0 ==> id in st.leases
  {
    if id != 0 then Bind(st, k, id) else Detach(st, k)
  }

  function Put(st: State, k: Key, v: Bytes, id: int, now: int): (State, Result<nat>) {
    if id != 0 && Lookup(st, id, now).Err? then (st, Err(Lookup(st, id, now).error))
    else (Bound(Append(st, Write(k, v, false)), k, id), Ok(st.currentRev + 1))
  }

  function Delete(st: State, k: Key): (State, nat) {
    (Detach(Append(st, Write(k, [], true)), k), st.currentRev + 1)
  }

  /** `LeaseRevoke` with the order in which the map of keys happens to be visited. */
  function DeleteAll(st: State, keys: seq<Key>): State
    decreases |keys|
  {
    if keys == [] then st else DeleteAll(Delete(st, keys[0]).0, keys[1..])
  }

  function Revoke(st: State, id: int, order: seq<Key>): (State, Result<()>) {
    if id !in st.leases then (st, Err(LeaseNotFound))
    else (DeleteAll(st.(leases := st.leases - {id}), order), Ok(()))
  }

  /** A possible visiting order of a lease's keys: each of them once. */
  ghost predicate OrderOf(order: seq<Key>, keys: set<Key>) {
    ToSet(order) == keys && forall i, j :: 0 <= i < j < |order| ==> order[i] != order[j]
  }

  // ---------- reads ----------

  ghost predicate Increasing(vs: seq<Version>) {
    forall i, j :: 0 <= i < j < |vs| ==> vs[i].rev < vs[j].rev
  }

  /** The last version not newer than `rev`: the linear search the source left in a comment. */
  function Latest(vs: seq<Version>, rev: int): (r: Option<Version>)
    ensures r.Some? ==> r.value in vs && r.value.rev <= rev
  {
    if vs == [] then None
    else if vs[|vs| - 1].rev <= rev then Some(vs[|vs| - 1])
    else Latest(vs[..|vs| - 1], rev)
  }

  function Visible(vs: seq<Version>, rev: int): Option<Version> {
    var v := Latest(vs, rev);
    if v.Some? && !v.value.deleted then v else None
  }

  function Get(st: State, k: Key, rev: int): Option<Bytes> {
    if k !in st.data || (rev != 0 && rev <= st.compactRev) then None
    else
      var v := Visible(st.data[k], if rev == 0 then st.currentRev else rev);
      if v.Some? then Some(v.value.value) else None
  }

  /** The visible pairs among `keys`, in that order. */
  function Collect(st: State, keys: seq<Key>, rev: int): seq<KeyValue> {
    if keys == [] then []
    else
      var k, rest := keys[0], Collect(st, keys[1..], rev);
      var v := Visible(Versions(st, k), rev);
      if v.Some? then [KeyValue(k, v.value.value, v.value.rev)] + rest else rest
  }

  function RangeKeys(keys: seq<Key>, start: Key, end: Key): seq<Key> {
    var from := LowerBound(keys, start);
    if end == [] then keys[from..] else keys[from..][..LowerBound(keys[from..], end)]
  }

  function Between(keys: seq<Key>, start: Key, end: Key): seq<Key> {
    if keys == [] then []
    else
      var rest := Between(keys[1..], start, end);
      if !Less(keys[0], start) && Less(keys[0], end) then [keys[0]] + rest else rest
  }

  /** An empty end selects everything from the index and nothing from the comparison that follows. */
  function Range(st: State, start: Key, end: Key, rev: int): seq<KeyValue> {
    var at := if rev == 0 then st.currentRev else rev;
    if at <= st.compactRev then []
    else Collect(st, Between(RangeKeys(st.sortedKeys, start, end), start, end), at)
  }

  function PrefixRange(st: State, prefix: Key, rev: int): seq<KeyValue> {
    Range(st, prefix, PrefixEnd(prefix), rev)
  }

  // ---------- compaction ----------

  /** The first position newer than `rev`, or -1. */
  function FirstAfter(vs: seq<Version>, rev: int): (r: int)
    ensures -1 <= r < |vs|
    ensures r >= 0 ==> vs[r].rev > rev && forall j :: 0 <= j < r ==> vs[j].rev <= rev
    ensures r == -1 ==> forall j :: 0 <= j < |vs| ==> vs[j].rev <= rev
  {
    if vs == [] then -1
    else if vs[0].rev > rev then 0
    else
      var r := FirstAfter(vs[1..], rev);
      if r == -1 then -1 else r + 1
  }

  function CompactHistory(vs: seq<Version>, rev: int): seq<Version> {
    if |vs| <= 1 then vs
    else
      var first := FirstAfter(vs, rev);
      if first == 0 then vs
      else if first > 0 then vs[first - 1..]
      else vs[|vs| - 1..]
  }

  function CompactKey(st: State, k: Key, rev: int): State {
    if |Versions(st, k)| <= 1 then st else SetRevisions(st, k, CompactHistory(st.data[k], rev))
  }

  function CompactKeys(st: State, keys: seq<Key>, rev: int): State
    decreases |keys|
  {
    if keys == [] then st else CompactKeys(CompactKey(st, keys[0], rev), keys[1..], rev)
  }

  function Later(events: seq<Event>, rev: int): seq<Event> {
    if events == [] then []
    else (if events[0].rev > rev then [events[0]] else []) + Later(events[1..], rev)
  }

  function Compact(st: State, rev: int): (State, Result<()>) {
    if rev <= st.compactRev || rev > st.currentRev then (st, Err(Compacted))
    else
      var s := CompactKeys(st, st.sortedKeys, rev);
      (s.(events := Later(st.events, rev), compactRev := rev), Ok(()))
  }
}
