/** Crash safety of internal/storage/persister: two slots for each kind of file and a manifest that names the
    slots in force. Each file is replaced atomically; a crash may fall between any two replacements. */
module PersisterSpec {
  import opened RaftTypes
  import opened Codec

  datatype Manifest = Manifest(raftSlot: int, snapshotSlot: int)
  const NO_SNAPSHOT := -1

  datatype Disk = Disk(wal: map<int, Bytes>, snap: map<int, Bytes>, manifest: Option<Manifest>, legacy: Option<Bytes>)
  datatype Memory = Memory(raftSlot: int, snapshotSlot: int, raftstate: Bytes, snapshot: Bytes)
  datatype Pair = Pair(raftstate: Bytes, snapshot: Bytes)

  const BLANK := Memory(0, NO_SNAPSHOT, [], [])

  /** One atomic replacement of a file. */
  datatype Write =
    | WriteWal(slot: int, payload: Bytes)
    | WriteSnap(slot: int, payload: Bytes)
    | WriteManifest(manifest: Manifest)

  function Put(d: Disk, w: Write): Disk {
    match w
    case WriteWal(slot, payload) => d.(wal := d.wal[slot := Encode(WAL_MAGIC, payload)])
    case WriteSnap(slot, payload) => d.(snap := d.snap[slot := Encode(SNAPSHOT_MAGIC, payload)])
    case WriteManifest(m) => d.(manifest := Some(m))
  }

  function PutAll(d: Disk, ws: seq<Write>): Disk
    decreases |ws|
  {
    if ws == [] then d else PutAll(Put(d, ws[0]), ws[1..])
  }

  // ---------- loading ----------

  function Slot(files: map<int, Bytes>, slot: int, magic: Bytes): Decoded<Bytes>
    requires |magic| == 4
  {
    if slot in files then Decode(magic, files[slot]) else Good([])
  }

  predicate Legal(m: Manifest) {
    0 <= m.raftSlot < 2 && (m.snapshotSlot == NO_SNAPSHOT || 0 <= m.snapshotSlot < 2)
  }

  function FromSlots(d: Disk, m: Manifest): Option<Memory> {
    var raft := Slot(d.wal, m.raftSlot, WAL_MAGIC);
    var snap := if m.snapshotSlot == NO_SNAPSHOT then Good([]) else Slot(d.snap, m.snapshotSlot, SNAPSHOT_MAGIC);
    if !raft.Good? || !snap.Good? then None
    else Some(Memory(m.raftSlot, m.snapshotSlot, raft.value, snap.value))
  }

  function MigrationMemory(raft: Bytes, snap: Bytes): Memory {
    Memory(0, if |snap| > 0 then 0 else NO_SNAPSHOT, raft, snap)
  }

  function MigrationWrites(raft: Bytes, snap: Bytes): seq<Write> {
    (if |snap| > 0 then [WriteSnap(0, snap)] else [])
      + [WriteWal(0, raft), WriteManifest(Manifest(0, if |snap| > 0 then 0 else NO_SNAPSHOT))]
  }

  /** What opening the directory yields and writes; `None` if it reports an error. */
  function Load(d: Disk): Option<(Memory, seq<Write>)> {
    if d.manifest.Some? then
      if !Legal(d.manifest.value) then None
      else
        var mem := FromSlots(d, d.manifest.value);
        if mem.None? then None else Some((mem.value, []))
    else if d.legacy.None? then Some((BLANK, []))
    else
      var pair := DecodeLegacy(d.legacy.value);
      if !pair.Good? then None
      else Some((MigrationMemory(pair.value.0, pair.value.1), MigrationWrites(pair.value.0, pair.value.1)))
  }

  /** The pair a reload would hand to Raft. */
  function Stored(d: Disk): Option<Pair> {
    var l := Load(d);
    if l.None? then None else Some(Pair(l.value.0.raftstate, l.value.0.snapshot))
  }

  // ---------- saving ----------

  function NextSlot(current: int): int {
    if current == 0 then 1 else 0
  }

  predicate Rewrites(mem: Memory, snap: Bytes) {
    |snap| > 0 && (mem.snapshotSlot == NO_SNAPSHOT || snap != mem.snapshot)
  }

  function NewSnapshotSlot(mem: Memory, snap: Bytes): int {
    if |snap| == 0 then NO_SNAPSHOT else if Rewrites(mem, snap) then NextSlot(mem.snapshotSlot) else mem.snapshotSlot
  }

  function Saved(mem: Memory, raft: Bytes, snap: Bytes): Memory {
    Memory(NextSlot(mem.raftSlot), NewSnapshotSlot(mem, snap), raft, snap)
  }

  function SaveWrites(mem: Memory, raft: Bytes, snap: Bytes): seq<Write> {
    (if Rewrites(mem, snap) then [WriteSnap(NewSnapshotSlot(mem, snap), snap)] else [])
      + [WriteWal(NextSlot(mem.raftSlot), raft),
         WriteManifest(Manifest(NextSlot(mem.raftSlot), NewSnapshotSlot(mem, snap)))]
  }

  // ---------- a save that a crash may cut short ----------

  /** The disk holds exactly what is in memory and opening it writes nothing. */
  ghost predicate Holds(d: Disk, mem: Memory) {
    Load(d) == Some((mem, []))
  }

  /** A write that touches no file in force. */
  ghost predicate Aside(mem: Memory, w: Write) {
    match w
    case WriteWal(slot, _) => slot != mem.raftSlot
    case WriteSnap(slot, _) => slot != mem.snapshotSlot
    case WriteManifest(_) => false
  }

  lemma {:induction false} AsideKeeps(d: Disk, mem: Memory, ws: seq<Write>)
    requires Holds(d, mem) && forall i :: 0 <= i < |ws| ==> Aside(mem, ws[i])
    ensures Holds(PutAll(d, ws), mem)
    decreases |ws|
  {
    if ws != [] {
      assert Aside(mem, ws[0]);
      AsideKeeps(Put(d, ws[0]), mem, ws[1..]);
    }
  }

  /** All but the last write of a save go to slots not in force. */
  lemma SavesAside(mem: Memory, raft: Bytes, snap: Bytes, i: nat)
    requires i < |SaveWrites(mem, raft, snap)| - 1
    ensures Aside(mem, SaveWrites(mem, raft, snap)[i])
  {
  }

  lemma SaveCompletes(d: Disk, mem: Memory, raft: Bytes, snap: Bytes)
    requires Holds(d, mem) && Fits(raft) && Fits(snap)
    ensures Holds(PutAll(d, SaveWrites(mem, raft, snap)), Saved(mem, raft, snap))
  {
    FileRoundTrip(WAL_MAGIC, raft);
    FileRoundTrip(SNAPSHOT_MAGIC, snap);
    var slot, raftSlot := NewSnapshotSlot(mem, snap), NextSlot(mem.raftSlot);
    var d1 := if Rewrites(mem, snap) then Put(d, WriteSnap(slot, snap)) else d;
    var d2 := Put(d1, WriteWal(raftSlot, raft));
    var d3 := Put(d2, WriteManifest(Manifest(raftSlot, slot)));
    SaveWritesAre(d, mem, raft, snap);
    assert PutAll(d, SaveWrites(mem, raft, snap)) == d3;
    assert Slot(d3.wal, raftSlot, WAL_MAGIC) == Good(raft);
    assert slot != NO_SNAPSHOT ==> Slot(d3.snap, slot, SNAPSHOT_MAGIC) == Good(snap);
  }

  lemma SaveWritesAre(d: Disk, mem: Memory, raft: Bytes, snap: Bytes)
    ensures var slot, raftSlot := NewSnapshotSlot(mem, snap), NextSlot(mem.raftSlot);
      var d1 := if Rewrites(mem, snap) then Put(d, WriteSnap(slot, snap)) else d;
      PutAll(d, SaveWrites(mem, raft, snap))
        == Put(Put(d1, WriteWal(raftSlot, raft)), WriteManifest(Manifest(raftSlot, slot)))
  {
    var ws := SaveWrites(mem, raft, snap);
    TwoWrites(if Rewrites(mem, snap) then Put(d, ws[0]) else d, ws[|ws| - 2], ws[|ws| - 1]);
    if Rewrites(mem, snap) { assert ws[1..] == [ws[1], ws[2]]; } else { assert ws == [ws[0], ws[1]]; }
  }

  lemma TwoWrites(d: Disk, v: Write, w: Write)
    ensures PutAll(d, [v, w]) == Put(Put(d, v), w)
  {
    assert [v, w][1..] == [w] && [w][1..] == [];
    assert PutAll(Put(Put(d, v), w), []) == Put(Put(d, v), w);
    assert PutAll(Put(d, v), [w]) == Put(Put(d, v), w);
  }

  /** A save cut after any number of its writes leaves exactly the old state, or with all of them the new. */
  lemma SaveIsAtomic(d: Disk, mem: Memory, raft: Bytes, snap: Bytes, k: nat)
    requires Holds(d, mem) && Fits(raft) && Fits(snap) && k <= |SaveWrites(mem, raft, snap)|
    ensures Holds(PutAll(d, SaveWrites(mem, raft, snap)[..k]),
                  if k == |SaveWrites(mem, raft, snap)| then Saved(mem, raft, snap) else mem)
  {
    var ws := SaveWrites(mem, raft, snap);
    if k == |ws| {
      assert ws[..k] == ws;
      SaveCompletes(d, mem, raft, snap);
    } else {
      forall i | 0 <= i < k ensures Aside(mem, ws[..k][i]) { SavesAside(mem, raft, snap, i); }
      AsideKeeps(d, mem, ws[..k]);
    }
  }

  // ---------- opening, which may migrate the older file ----------

  lemma MigrationCompletes(d: Disk, raft: Bytes, snap: Bytes)
    requires Fits(raft) && Fits(snap)
    ensures Holds(PutAll(d, MigrationWrites(raft, snap)), MigrationMemory(raft, snap))
  {
    FileRoundTrip(WAL_MAGIC, raft);
    FileRoundTrip(SNAPSHOT_MAGIC, snap);
    var ws := MigrationWrites(raft, snap);
    TwoWrites(if |snap| > 0 then Put(d, ws[0]) else d, ws[|ws| - 2], ws[|ws| - 1]);
    if |snap| > 0 { assert ws[1..] == [ws[1], ws[2]]; } else { assert ws == [ws[0], ws[1]]; }
  }

  /** Until the manifest is written nothing but the slots changes, and those are not looked at. */
  lemma {:induction false} BeforeManifest(d: Disk, ws: seq<Write>)
    requires d.manifest.None? && forall i :: 0 <= i < |ws| ==> !ws[i].WriteManifest?
    ensures Load(PutAll(d, ws)) == Load(d) && PutAll(d, ws).manifest.None?
    decreases |ws|
  {
    if ws != [] {
      assert !ws[0].WriteManifest?;
      BeforeManifest(Put(d, ws[0]), ws[1..]);
    }
  }

  /** Opening the directory, cut after any number of writes, changes nothing a later opening would see. */
  lemma OpenIsAtomic(d: Disk, k: nat)
    requires Load(d).Some? && k <= |Load(d).value.1|
    ensures var (mem, ws) := Load(d).value;
      && Stored(PutAll(d, ws[..k])) == Stored(d)
      && (k == |ws| ==> Holds(PutAll(d, ws[..k]), mem))
      && (k < |ws| ==> Load(PutAll(d, ws[..k])) == Load(d))
  {
    var (mem, ws) := Load(d).value;
    if k < |ws| {
      BeforeManifest(d, ws[..k]);
    } else {
      assert ws[..k] == ws;
      if d.manifest.None? && d.legacy.Some? {
        LegacyFits(d.legacy.value);
        var pair := DecodeLegacy(d.legacy.value).value;
        MigrationCompletes(d, pair.0, pair.1);
      }
    }
  }

  // ---------- whole histories ----------

  /** `last` is the pair of the last completed save or opening; `pending` that of a save cut by a crash. */
  datatype World = World(disk: Disk, memory: Option<Memory>, last: Pair, pending: Option<Pair>)

  datatype Event =
    | Open
    | OpenCrash(written: nat)
    | Save(raftstate: Bytes, snapshot: Bytes)
    | SaveCrash(raftstate: Bytes, snapshot: Bytes, written: nat)
    | Crash

  predicate Enabled(w: World, e: Event) {
    match e
    case Open => w.memory.None? && Load(w.disk).Some?
    case OpenCrash(k) => w.memory.None? && Load(w.disk).Some? && k <= |Load(w.disk).value.1|
    case Save(r, s) => w.memory.Some? && Fits(r) && Fits(s)
    case SaveCrash(r, s, k) => w.memory.Some? && Fits(r) && Fits(s) && k <= |SaveWrites(w.memory.value, r, s)|
    case Crash => w.memory.Some?
  }

  function Next(w: World, e: Event): World
    requires Enabled(w, e)
  {
    match e
    case Open =>
      var (mem, ws) := Load(w.disk).value;
      World(PutAll(w.disk, ws), Some(mem), Pair(mem.raftstate, mem.snapshot), None)
    case OpenCrash(k) => w.(disk := PutAll(w.disk, Load(w.disk).value.1[..k]))
    case Save(r, s) =>
      World(PutAll(w.disk, SaveWrites(w.memory.value, r, s)), Some(Saved(w.memory.value, r, s)), Pair(r, s), None)
    case SaveCrash(r, s, k) =>
      World(PutAll(w.disk, SaveWrites(w.memory.value, r, s)[..k]), None, w.last, Some(Pair(r, s)))
    case Crash => w.(memory := None)
  }

  ghost predicate Sound(w: World) {
    && (Stored(w.disk) == Some(w.last) || (w.pending.Some? && Stored(w.disk) == w.pending))
    && (w.memory.Some? ==> Holds(w.disk, w.memory.value) && w.pending.None?)
  }

  lemma NextSound(w: World, e: Event)
    requires Sound(w) && Enabled(w, e)
    ensures Sound(Next(w, e))
  {
    match e
    case Open =>
      var ws := Load(w.disk).value.1;
      OpenIsAtomic(w.disk, |ws|);
      assert ws[..|ws|] == ws;
    case OpenCrash(k) => OpenIsAtomic(w.disk, k);
    case Save(r, s) => SaveCompletes(w.disk, w.memory.value, r, s);
    case SaveCrash(r, s, k) => SaveIsAtomic(w.disk, w.memory.value, r, s, k);
    case Crash =>
  }

  ghost predicate IsHistory(worlds: seq<World>, events: seq<Event>) {
    && |worlds| == |events| + 1
    && forall i :: 0 <= i < |events| ==> Enabled(worlds[i], events[i]) && worlds[i + 1] == Next(worlds[i], events[i])
  }

  /** In every history of openings, saves and crashes, from any readable directory, a reload never fails and
      gives exactly the last completed pair or exactly the one whose save was cut, never a mix. */
  lemma {:induction false} NeverAMix(worlds: seq<World>, events: seq<Event>, i: nat)
    requires IsHistory(worlds, events) && i < |worlds|
    requires worlds[0].memory.None? && Stored(worlds[0].disk) == Some(worlds[0].last)
    ensures Sound(worlds[i])
    ensures Stored(worlds[i].disk).Some?
    ensures Stored(worlds[i].disk) == Some(worlds[i].last) || Stored(worlds[i].disk) == worlds[i].pending
  {
    if i > 0 {
      NeverAMix(worlds, events, i - 1);
      assert worlds[i] == Next(worlds[i - 1], events[i - 1]);
      NextSound(worlds[i - 1], events[i - 1]);
    }
  }
}
