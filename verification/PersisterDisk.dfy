/** The persister as the source writes it. `trace` records the directory after every atomic replacement, the
    points where a crash can fall. */
module PersisterDisk {
  import opened RaftTypes
  import opened Codec
  import opened PersisterSpec

  /** The directory after each of the writes. */
  ghost function Points(d: Disk, ws: seq<Write>): (ds: seq<Disk>)
    ensures |ds| == |ws|
    ensures forall k :: 0 <= k < |ws| ==> ds[k] == PutAll(d, ws[..k + 1])
    decreases |ws|
  {
    if ws == [] then []
    else
      var rest := Points(Put(d, ws[0]), ws[1..]);
      assert PutAll(d, ws[..1]) == Put(d, ws[0]) by {
        assert ws[..1][1..] == [];
        assert PutAll(Put(d, ws[0]), []) == Put(d, ws[0]);
      }
      assert forall k :: 1 <= k < |ws| ==> ws[..k + 1][1..] == ws[1..][..k];
      [Put(d, ws[0])] + rest
  }

  class DiskPersister {
    var disk: Disk
    var raftSlot: int
    var snapshotSlot: int
    var raftstate: Bytes
    var snapshot: Bytes
    ghost var trace: seq<Disk>

    function Value(): Memory
      reads this
    {
      Memory(raftSlot, snapshotSlot, raftstate, snapshot)
    }

    constructor (dir: Disk)
      ensures disk == dir && Value() == BLANK && trace == []
    {
      disk, trace := dir, [];
      raftSlot, snapshotSlot, raftstate, snapshot := 0, NO_SNAPSHOT, [], [];
    }

    /** One file replaced by rename. */
    method Replace(w: Write)
      modifies this`disk, this`trace
      ensures disk == Put(old(disk), w) && trace == old(trace) + [disk]
    {
      match w {
        case WriteWal(slot, payload) =>
          var data := EncodeFile(WAL_MAGIC, payload);
          disk := disk.(wal := disk.wal[slot := data]);
        case WriteSnap(slot, payload) =>
          var data := EncodeFile(SNAPSHOT_MAGIC, payload);
          disk := disk.(snap := disk.snap[slot := data]);
        case WriteManifest(m) =>
          disk := disk.(manifest := Some(m));
      }
      trace := trace + [disk];
    }

    method LoadSlots(m: Manifest) returns (ok: bool)
      modifies this`raftSlot, this`snapshotSlot, this`raftstate, this`snapshot
      ensures ok == FromSlots(disk, m).Some?
      ensures Value() == if ok then FromSlots(disk, m).value else old(Value())
    {
      var raft := Slot(disk.wal, m.raftSlot, WAL_MAGIC);
      if !raft.Good? {
        return false;
      }
      var snap := Good([]);
      if m.snapshotSlot != NO_SNAPSHOT {
        snap := Slot(disk.snap, m.snapshotSlot, SNAPSHOT_MAGIC);
        if !snap.Good? {
          return false;
        }
      }
      raftSlot, snapshotSlot := m.raftSlot, m.snapshotSlot;
      snapshot, raftstate := snap.value, raft.value;
      return true;
    }

    method MigrateLegacyFile() returns (ok: bool)
      requires disk.manifest.None?
      modifies this
      ensures ok == Load(old(disk)).Some?
      ensures ok ==> Value() == Load(old(disk)).value.0
      ensures trace == old(trace) + if ok then Points(old(disk), Load(old(disk)).value.1) else []
      ensures disk == if ok then PutAll(old(disk), Load(old(disk)).value.1) else old(disk)
    {
      if disk.legacy.None? {
        raftSlot, snapshotSlot, raftstate, snapshot := 0, NO_SNAPSHOT, [], [];
        return true;
      }
      var pair := DecodeLegacy(disk.legacy.value);
      if !pair.Good? {
        return false;
      }
      var newRaft, newSnap := pair.value.0, pair.value.1;
      var newSnapshotSlot := NO_SNAPSHOT;
      ghost var d, ws := disk, MigrationWrites(newRaft, newSnap);
      if |newSnap| > 0 {
        newSnapshotSlot := 0;
        Replace(WriteSnap(newSnapshotSlot, newSnap));
      }
      Replace(WriteWal(0, newRaft));
      Replace(WriteManifest(Manifest(0, newSnapshotSlot)));
      PointsOfThree(d, ws);
      raftSlot, raftstate, snapshotSlot, snapshot := 0, newRaft, newSnapshotSlot, newSnap;
      return true;
    }

    method LoadFromDisk() returns (ok: bool)
      modifies this
      ensures ok == Load(old(disk)).Some?
      ensures ok ==> Value() == Load(old(disk)).value.0 && Holds(disk, Value())
      ensures trace == old(trace) + if ok then Points(old(disk), Load(old(disk)).value.1) else []
      ensures forall d :: d in trace[|old(trace)|..] ==> Stored(d) == Stored(old(disk))
    {
      ghost var d0 := disk;
      if Load(d0).Some? { OpenPoints(d0); }
      if disk.manifest.Some? {
        var m := disk.manifest.value;
        if !Legal(m) {
          return false;
        }
        ok := LoadSlots(m);
      } else {
        ok := MigrateLegacyFile();
      }
    }

    /** At every point of the save a reload gives exactly the old pair or exactly the new one. */
    method Save(raft: Bytes, snap: Bytes)
      requires Holds(disk, Value()) && Fits(raft) && Fits(snap)
      modifies this
      ensures Value() == Saved(old(Value()), raft, snap) && Holds(disk, Value())
      ensures disk == PutAll(old(disk), SaveWrites(old(Value()), raft, snap))
      ensures trace == old(trace) + Points(old(disk), SaveWrites(old(Value()), raft, snap))
      ensures forall k :: |old(trace)| <= k < |trace| ==>
        Stored(trace[k]) == Some(if k == |trace| - 1 then Pair(raft, snap) else old(Pair(raftstate, snapshot)))
    {
      ghost var d, mem := disk, Value();
      ghost var ws := SaveWrites(mem, raft, snap);
      SavePoints(d, mem, raft, snap);
      var newRaftSlot := NextSlot(raftSlot);
      var newSnapshotSlot := snapshotSlot;
      if |snap| == 0 {
        newSnapshotSlot := NO_SNAPSHOT;
      }
      if |snap| > 0 && (snapshotSlot == NO_SNAPSHOT || snap != snapshot) {
        newSnapshotSlot := NextSlot(snapshotSlot);
        Replace(WriteSnap(newSnapshotSlot, snap));
      }
      Replace(WriteWal(newRaftSlot, raft));
      Replace(WriteManifest(Manifest(newRaftSlot, newSnapshotSlot)));
      PointsOfThree(d, ws);
      raftSlot, raftstate, snapshotSlot, snapshot := newRaftSlot, raft, newSnapshotSlot, snap;
      SaveCompletes(d, mem, raft, snap);
      assert trace == old(trace) + Points(d, ws);
    }
  }

  /** Two or three writes spelled out. */
  lemma PointsOfThree(d: Disk, ws: seq<Write>)
    requires 2 <= |ws| <= 3
    ensures var d1 := Put(d, ws[0]);
      var d2 := Put(d1, ws[1]);
      && (|ws| == 2 ==> Points(d, ws) == [d1, d2] && PutAll(d, ws) == d2)
      && (|ws| == 3 ==> Points(d, ws) == [d1, d2, Put(d2, ws[2])] && PutAll(d, ws) == Put(d2, ws[2]))
  {
    var d1 := Put(d, ws[0]);
    PointsOfLast(d1, ws[1..]);
    if |ws| == 3 { PointsOfLast(Put(d1, ws[1]), ws[2..]); assert ws[1..][1..] == ws[2..]; }
    assert ws[..|ws|] == ws;
  }

  lemma PointsOfLast(d: Disk, ws: seq<Write>)
    requires 1 <= |ws|
    ensures Points(d, ws) == [Put(d, ws[0])] + Points(Put(d, ws[0]), ws[1..])
    ensures PutAll(d, ws) == PutAll(Put(d, ws[0]), ws[1..])
  {
  }

  lemma SavePoints(d: Disk, mem: Memory, raft: Bytes, snap: Bytes)
    requires Holds(d, mem) && Fits(raft) && Fits(snap)
    ensures var ds := Points(d, SaveWrites(mem, raft, snap));
      forall k :: 0 <= k < |ds| ==>
        Stored(ds[k]) == Some(if k == |ds| - 1 then Pair(raft, snap) else Pair(mem.raftstate, mem.snapshot))
  {
    var ws := SaveWrites(mem, raft, snap);
    forall k | 0 <= k < |ws|
      ensures Stored(Points(d, ws)[k])
        == Some(if k == |ws| - 1 then Pair(raft, snap) else Pair(mem.raftstate, mem.snapshot))
    {
      SaveIsAtomic(d, mem, raft, snap, k + 1);
    }
  }

  lemma OpenPoints(d: Disk)
    requires Load(d).Some?
    ensures forall x :: x in Points(d, Load(d).value.1) ==> Stored(x) == Stored(d)
    ensures Holds(PutAll(d, Load(d).value.1), Load(d).value.0)
  {
    var ws := Load(d).value.1;
    forall k | 0 <= k < |ws|
      ensures Stored(Points(d, ws)[k]) == Stored(d)
    {
      OpenIsAtomic(d, k + 1);
    }
    OpenIsAtomic(d, |ws|);
    assert ws[..|ws|] == ws;
  }
}
