/** One Raft peer as the source writes it: fields updated in place, a loop wherever the source loops.
    Every handler is proved to do to the fields what the RaftStep function of the same name says, and
    to leave nothing unsaved that must survive a crash. */
module RaftNode {
  import opened RaftTypes
  import S = RaftStep

  class Raft {
    const me: nat
    const peers: nat
    var currentTerm: nat
    var votedFor: int
    var role: Role
    var log: seq<Entry>
    var commitIndex: nat
    var lastApplied: nat
    var nextIndex: seq<int>
    var matchIndex: seq<int>
    var lastIncludeIndex: nat
    var lastIncludeTerm: nat
    var snapshot: Bytes
    var votes: nat
    var awaiting: set<nat>
    var disk: Option<Durable>

    function Value(): Node
      reads this
    {
      Node(me, peers, currentTerm, votedFor, role, log, commitIndex, lastApplied, nextIndex, matchIndex,
           lastIncludeIndex, lastIncludeTerm, snapshot, votes, awaiting, disk)
    }

    /** What holds between any two lock-protected sections, on any network. */
    ghost predicate Valid()
      reads this
    {
      S.WellFormed(Value()) && S.LogShape(Value()) && S.Synced(Value())
    }

    constructor (me: nat, peers: nat, disk: Option<Durable>)
      requires me < peers
      ensures Value() == S.Restart(me, peers, disk)
      ensures S.WellFormed(Value())
      ensures (disk.Some? ==> |disk.value.log| > 0) ==> S.Synced(Value())
    {
      this.me := me;
      this.peers := peers;
      commitIndex, lastApplied := 0, 0;
      log := [GENESIS];
      lastIncludeIndex, lastIncludeTerm := 0, 0;
      currentTerm, votedFor, role := 0, -1, Follower;
      nextIndex, matchIndex, snapshot := [], [], [];
      votes, awaiting := 0, {};
      this.disk := disk;
      new;
      ReadPersist();
      if peers <= 1 {
        role := Leader;
        InitLeaderProgress();
      }
    }

    /** After `Persist`, in this incarnation or a later one, this is the identity on the durable part. */
    method ReadPersist()
      modifies this
      ensures disk.Some? && |disk.value.log| > 0 ==> S.DurablePart(Value()) == disk.value
      ensures disk == old(disk)
      ensures old(disk).None? ==> Value() == old(Value())
      ensures old(disk).Some? ==>
        var d := old(disk).value;
        Value() == old(Value()).(
          currentTerm := d.currentTerm, votedFor := d.votedFor,
          log := if |d.log| > 0 then d.log else [Entry(old(lastIncludeTerm), old(lastIncludeIndex), [])],
          lastIncludeIndex := d.lastIncludeIndex, lastIncludeTerm := d.lastIncludeTerm,
          commitIndex := d.lastIncludeIndex, lastApplied := d.lastIncludeIndex, snapshot := d.snapshot)
    {
      if disk.None? {
        return;
      }
      var d := disk.value;
      currentTerm := d.currentTerm;
      votedFor := d.votedFor;
      if |d.log| > 0 {
        log := d.log;
      } else {
        log := [Entry(lastIncludeTerm, lastIncludeIndex, [])];
      }
      lastIncludeIndex := d.lastIncludeIndex;
      lastIncludeTerm := d.lastIncludeTerm;
      commitIndex := lastIncludeIndex;
      lastApplied := lastIncludeIndex;
      snapshot := d.snapshot;
    }

    /** A restart from what is written gives back term, vote, boundary, log and snapshot. */
    method Persist()
      modifies this`disk
      ensures Value() == S.Persisted(old(Value()))
      ensures |log| > 0 ==> S.DurablePart(S.Restart(me, peers, disk)) == old(S.DurablePart(Value()))
    {
      disk := Some(Durable(currentTerm, votedFor, lastIncludeIndex, lastIncludeTerm, log, snapshot));
    }

    method InitLeaderProgress()
      requires |log| > 0
      modifies this`nextIndex, this`matchIndex
      ensures Value() == S.InitLeader(old(Value()))
    {
      var lastLogIndex := lastIncludeIndex + |log| - 1;
      nextIndex := seq(peers, _ => 0);
      matchIndex := seq(peers, _ => 0);
      for i := 0 to peers
        invariant |nextIndex| == |matchIndex| == peers
        invariant forall j :: 0 <= j < i ==> nextIndex[j] == lastLogIndex + 1
        invariant forall j :: 0 <= j < i ==> matchIndex[j] == lastIncludeIndex
      {
        nextIndex := nextIndex[i := lastLogIndex + 1];
        matchIndex := matchIndex[i := lastIncludeIndex];
      }
      assert nextIndex == S.InitLeader(old(Value())).nextIndex;
      assert matchIndex == S.InitLeader(old(Value())).matchIndex;
    }

    // ---------- vote.go ----------

    method RequestVote(args: VoteArgs) returns (reply: VoteReply)
      requires Valid()
      modifies this
      ensures Valid()
      ensures (Value(), reply) == S.RequestVote(old(Value()), args)
    {
      var replyTerm := currentTerm;
      if args.term < currentTerm {
        return VoteReply(replyTerm, false);
      } else if args.term > currentTerm {
        role := Follower;
        currentTerm := args.term;
        replyTerm := currentTerm;
        votedFor := -1;
        Persist();
      }
      var last := log[|log| - 1];
      var upToDate := args.lastLogTerm > last.term ||
        (args.lastLogIndex >= lastIncludeIndex + |log| - 1 && args.lastLogTerm == last.term);
      if (votedFor == -1 || votedFor == args.candidate) && upToDate {
        votedFor := args.candidate;
        Persist();
        reply := VoteReply(replyTerm, true);
      } else {
        reply := VoteReply(replyTerm, false);
      }
    }

    /** The fields of a candidate, saved. */
    method Stand()
      requires Valid()
      modifies this
      ensures Value() == S.Persisted(old(Value()).(
        role := Candidate, currentTerm := old(currentTerm) + 1, votedFor := me,
        votes := 1, awaiting := S.Others(old(Value()))))
    {
      role := Candidate;
      currentTerm := currentTerm + 1;
      votedFor := me;
      votes := 1;
      awaiting := Ids(peers) - {me};
      Persist();
    }

    method StartElection() returns (args: VoteArgs)
      requires Valid()
      modifies this
      ensures Valid()
      ensures (Value(), args) == S.StartElection(old(Value()))
    {
      S.ElectionKeepsShape(Value());
      Stand();
      args := VoteArgs(currentTerm, me, lastIncludeIndex + |log| - 1, log[|log| - 1].term);
      if peers == 1 {
        role := Leader;
        InitLeaderProgress();
      }
    }

    method VoteReplied(server: nat, term: nat, reply: VoteReply)
      requires Valid()
      modifies this
      ensures Valid()
      ensures Value() == S.VoteReplied(old(Value()), server, term, reply)
    {
      if role != Candidate || currentTerm != term {
        return;
      }
      awaiting := awaiting - {server};
      if reply.term > term {
        currentTerm := reply.term;
        role := Follower;
        votedFor := -1;
        Persist();
        return;
      }
      if reply.granted && reply.term == term {
        votes := votes + 1;
        if votes > peers / 2 {
          role := Leader;
          InitLeaderProgress();
        }
      }
    }

    // ---------- raft.go, leader.go ----------

    method Start(command: Bytes) returns (reply: S.StartReply)
      requires Valid()
      modifies this
      ensures Valid()
      ensures (Value(), reply) == S.Start(old(Value()), command)
    {
      var term := currentTerm;
      if role != Leader {
        return S.StartReply(-1, term, false);
      }
      var newIndex := lastIncludeIndex + |log| - 1 + 1;
      log := log + [Entry(term, newIndex, command)];
      if peers <= 1 {
        commitIndex := newIndex;
      }
      Persist();
      reply := S.StartReply(newIndex, term, true);
    }

    /** The inner counting loop of `updateCommiIndex`. */
    method CountReplicas(index: int) returns (count: nat)
      requires Valid() && role == Leader
      ensures count == 1 + |S.Matching(Value(), index)|
    {
      count := 1;
      ghost var seen: set<nat> := {};
      for i := 0 to peers
        invariant seen == set j: nat | j < i && j != me && matchIndex[j] >= index
        invariant count == 1 + |seen|
      {
        if i != me && matchIndex[i] >= index {
          count := count + 1;
          seen := seen + {i};
        }
      }
      assert seen == S.Matching(Value(), index);
    }

    method UpdateCommitIndex()
      requires Valid() && role == Leader
      modifies this`commitIndex
      ensures Valid()
      ensures Value() == S.AdvanceCommit(old(Value()))
    {
      ghost var before := Value();
      var lastIndex := lastIncludeIndex + |log| - 1;
      var N := lastIndex;
      while N > commitIndex
        invariant Value() == before
        invariant N <= lastIndex
        invariant S.Highest(before, lastIndex) == S.Highest(before, Max(N, 0))
        decreases N
      {
        if N <= lastIncludeIndex {
          break;
        }
        var count := CountReplicas(N);
        if count > peers / 2 {
          var slot := N - lastIncludeIndex;
          if slot > 0 && slot < |log| && log[slot].term == currentTerm {
            commitIndex := N;
            return;
          }
        }
        N := N - 1;
      }
      S.NoneBelow(before, Max(N, 0));
    }

    method PrepareSend(server: nat) returns (out: Outgoing)
      requires Valid() && server < peers
      modifies this
      ensures Valid()
      ensures (Value(), out) == S.PrepareSend(old(Value()), server)
    {
      if role != Leader {
        return Nothing;
      }
      UpdateCommitIndex();
      var index := nextIndex[server];
      if index <= lastIncludeIndex {
        return SendSnapshot(SnapshotArgs(currentTerm, me, lastIncludeIndex, lastIncludeTerm, snapshot));
      }
      var prevLogIndex := index - 1;
      var slot := prevLogIndex - lastIncludeIndex;
      if slot < 0 || slot >= |log| {
        nextIndex := nextIndex[server := lastIncludeIndex + 1];
        return Nothing;
      }
      var lastLogIndex := lastIncludeIndex + |log| - 1;
      var entries := [];
      if index <= lastLogIndex {
        entries := log[index - lastIncludeIndex..];
      }
      out := SendAppend(AppendArgs(currentTerm, me, prevLogIndex, log[slot].term, entries, commitIndex));
    }

    method AppendReplied(server: nat, args: AppendArgs, reply: AppendReply)
      requires Valid() && server < peers
      modifies this
      ensures Valid()
      ensures Value() == S.AppendReplied(old(Value()), server, args, reply)
    {
      if role != Leader || args.term != currentTerm {
        return;
      }
      if reply.term > currentTerm {
        currentTerm := reply.term;
        role := Follower;
        Persist();
        return;
      }
      if reply.success {
        matchIndex := matchIndex[server := args.prevLogIndex + |args.entries|];
        nextIndex := nextIndex[server := matchIndex[server] + 1];
      } else {
        if reply.conflictTerm == -1 {
          nextIndex := nextIndex[server := reply.conflictIndex];
        }
        if reply.conflictIndex != -1 {
          nextIndex := nextIndex[server := reply.conflictIndex];
        }
      }
      if matchIndex[server] > nextIndex[server] {
        matchIndex := matchIndex[server := nextIndex[server] - 1];
      }
    }

    method SnapshotReplied(server: nat, term: nat, replyTerm: nat)
      requires Valid() && server < peers
      modifies this
      ensures Valid()
      ensures Value() == S.SnapshotReplied(old(Value()), server, term, replyTerm)
    {
      if role != Leader || currentTerm != term {
        return;
      }
      if replyTerm > currentTerm {
        currentTerm := replyTerm;
        role := Follower;
        votedFor := -1;
        Persist();
        return;
      }
      nextIndex := nextIndex[server := lastIncludeIndex + 1];
      matchIndex := matchIndex[server := lastIncludeIndex];
    }

    // ---------- append.go ----------

    method BackUp(slot: nat) returns (conflictIdx: nat)
      requires slot < |log|
      ensures conflictIdx == S.RunStart(log, slot)
    {
      conflictIdx := slot;
      while conflictIdx > 0 && log[conflictIdx - 1].term == log[slot].term
        invariant conflictIdx <= slot
        invariant log[conflictIdx].term == log[slot].term
        invariant S.RunStart(log, conflictIdx) == S.RunStart(log, slot)
      {
        conflictIdx := conflictIdx - 1;
      }
    }

    /** The head of `AppendEntries`: a message of this or a later term makes the peer follow it. */
    method Follow(term: nat)
      requires term >= currentTerm
      modifies this
      ensures Value() == S.Adopt(old(Value()), term).(role := Follower)
    {
      if term > currentTerm {
        currentTerm := term;
        votedFor := -1;
        role := Follower;
        Persist();
      } else if role != Follower {
        role := Follower;
      }
    }

    /** The tail of `AppendEntries`, once the previous entry matched. */
    method Accept(args: AppendArgs)
      requires |log| > 0 && S.Accepts(Value(), args)
      modifies this
      ensures Value() == S.Accepted(old(Value()), args)
    {
      if |args.entries| > 0 {
        var idx := args.prevLogIndex + 1 - lastIncludeIndex;
        log := log[..idx] + args.entries;
      }
      if args.leaderCommit > commitIndex {
        var lastNewIdx := lastIncludeIndex + |log| - 1;
        if args.leaderCommit < lastNewIdx {
          commitIndex := args.leaderCommit;
        } else {
          commitIndex := lastNewIdx;
        }
      }
      Persist();
    }

    method AppendEntries(args: AppendArgs) returns (reply: AppendReply)
      requires Valid()
      modifies this
      ensures (Value(), reply) == S.AppendEntries(old(Value()), args)
      ensures S.WellFormed(Value()) && S.Synced(Value())
      ensures S.Numbered(args) ==> Valid()
    {
      S.AppendKeepsShape(Value(), args);
      var replyTerm := currentTerm;
      if args.term < currentTerm {
        return AppendReply(replyTerm, false, 0, 0);
      }
      Follow(args.term);
      var lastIndex := |log| + lastIncludeIndex;
      if args.prevLogIndex < lastIncludeIndex {
        return AppendReply(replyTerm, false, 0, lastIncludeIndex + 1);
      }
      var slot := args.prevLogIndex - lastIncludeIndex;
      if slot >= |log| {
        return AppendReply(replyTerm, false, -1, lastIndex);
      }
      if log[slot].term != args.prevLogTerm {
        var conflictIdx := BackUp(slot);
        return AppendReply(replyTerm, false, log[slot].term, lastIncludeIndex + conflictIdx);
      }
      Accept(args);
      reply := AppendReply(replyTerm, true, 0, 0);
    }

    // ---------- snapshot.go ----------

    /** The filtering loop shared by `Snapshot` and `InstallSnapshot`: by entry number, not by position. */
    method DropThrough(index: nat, term: nat) returns (kept: seq<Entry>)
      requires S.LogShape(Value()) && lastIncludeIndex < index
      ensures kept == S.CutAt(Value(), index, term)
    {
      kept := [Entry(term, index, [])];
      var from := index + 1 - lastIncludeIndex;
      for i := 0 to |log|
        invariant kept == [Entry(term, index, [])] + (if from <= i then log[from..i] else [])
      {
        if log[i].index > index {
          kept := kept + [log[i]];
        }
      }
    }

    /** The common tail of `Snapshot` and `InstallSnapshot`, up to `persist`. */
    method MoveBoundary(index: nat, term: nat, data: Bytes)
      requires S.LogShape(Value()) && lastIncludeIndex < index
      modifies this
      ensures Value() == S.Compacted(old(Value()), index, term, data)
    {
      var newLog := DropThrough(index, term);
      lastIncludeIndex := index;
      lastIncludeTerm := term;
      log := newLog;
      snapshot := data;
      if commitIndex < index {
        commitIndex := index;
      }
      if lastApplied < index {
        lastApplied := index;
      }
    }

    method Snapshot(index: nat, data: Bytes)
      requires Valid() && index <= S.LastIndex(Value())
      modifies this
      ensures Valid()
      ensures Value() == S.TakeSnapshot(old(Value()), index, data)
    {
      S.SnapshotKeepsShape(Value(), index, data);
      if index <= lastIncludeIndex {
        return;
      }
      MoveBoundary(index, log[index - lastIncludeIndex].term, data);
      if role == Leader {
        RaiseProgress();
      }
      Persist();
    }

    method RaiseProgress()
      requires |nextIndex| == |matchIndex| == peers
      modifies this`nextIndex, this`matchIndex
      ensures nextIndex == S.RaiseTo(old(nextIndex), lastIncludeIndex + 1)
      ensures matchIndex == S.RaiseTo(old(matchIndex), lastIncludeIndex)
    {
      for i := 0 to peers
        invariant |nextIndex| == |matchIndex| == peers
        invariant forall j :: 0 <= j < peers ==>
          nextIndex[j] == if j < i then Max(old(nextIndex)[j], lastIncludeIndex + 1) else old(nextIndex)[j]
        invariant forall j :: 0 <= j < peers ==>
          matchIndex[j] == if j < i then Max(old(matchIndex)[j], lastIncludeIndex) else old(matchIndex)[j]
      {
        if nextIndex[i] <= lastIncludeIndex {
          nextIndex := nextIndex[i := lastIncludeIndex + 1];
        }
        if matchIndex[i] < lastIncludeIndex {
          matchIndex := matchIndex[i := lastIncludeIndex];
        }
      }
    }

    method InstallSnapshot(args: SnapshotArgs) returns (replyTerm: nat)
      requires Valid()
      modifies this
      ensures Valid()
      ensures (Value(), replyTerm) == S.InstallSnapshot(old(Value()), args)
    {
      S.InstallKeepsShape(Value(), args);
      replyTerm := currentTerm;
      if args.term < currentTerm {
        return;
      }
      Follow(args.term);
      if args.lastIncludeIndex <= lastIncludeIndex {
        return;
      }
      MoveBoundary(args.lastIncludeIndex, args.lastIncludeTerm, args.data);
      Persist();
    }

    // ---------- applier.go ----------

    method Apply() returns (msgs: seq<ApplyMsg>)
      requires Valid()
      modifies this`lastApplied
      ensures Valid()
      ensures (Value(), msgs) == S.Apply(old(Value()))
    {
      if lastApplied < lastIncludeIndex {
        lastApplied := lastIncludeIndex;
        return [ApplySnapshot(snapshot, lastIncludeIndex, lastIncludeTerm)];
      }
      msgs := [];
      ghost var first := lastApplied;
      while lastApplied < commitIndex
        invariant first <= lastApplied <= Max(first, Min(commitIndex, lastIncludeIndex + |log| - 1))
        invariant Value() == old(Value()).(lastApplied := lastApplied)
        invariant msgs == S.Commands(old(Value()), first, lastApplied)
        decreases commitIndex - lastApplied
      {
        // nextIdx is past the snapshot here: the source's branch for the other case is dead
        var nextIdx := lastApplied + 1;
        var slot := nextIdx - lastIncludeIndex;
        if slot <= 0 || slot >= |log| {
          break;
        }
        lastApplied := nextIdx;
        msgs := msgs + [ApplyCommand(log[slot].command, lastApplied)];
      }
    }
  }
}
