/** Each lock-protected section of internal/raft as a function from the state of one peer to its next
    state and reply. The imperative form is in RaftNode; the distributed system is in RaftSystem. */
module RaftStep {
  import opened RaftTypes

  // ---------- reading a node ----------

  ghost predicate WellFormed(n: Node) {
    && |n.log| > 0
    && n.me < n.peers
    && (n.role == Leader ==> |n.nextIndex| == n.peers && |n.matchIndex| == n.peers)
  }

  /** The log starts with the snapshot boundary and its entries are numbered without a gap. */
  ghost predicate LogShape(n: Node) {
    && |n.log| > 0
    && n.log[0].index == n.lastIncludeIndex
    && n.log[0].term == n.lastIncludeTerm
    && forall i :: 0 <= i < |n.log| ==> n.log[i].index == n.lastIncludeIndex + i
  }

  function LastIndex(n: Node): nat
    requires |n.log| > 0
  {
    n.lastIncludeIndex + |n.log| - 1
  }

  function LastTerm(n: Node): nat
    requires |n.log| > 0
  {
    n.log[|n.log| - 1].term
  }

  function DurablePart(n: Node): Durable {
    Durable(n.currentTerm, n.votedFor, n.lastIncludeIndex, n.lastIncludeTerm, n.log, n.snapshot)
  }

  function Persisted(n: Node): Node {
    n.(disk := Some(DurablePart(n)))
  }

  /** Nothing that must survive a crash is only in memory. */
  ghost predicate Synced(n: Node) {
    match n.disk
    case Some(d) => d == DurablePart(n)
    case None => DurablePart(n) == Durable(0, -1, 0, 0, [GENESIS], [])
  }

  // ---------- start and restart ----------

  function InitLeader(n: Node): Node
    requires |n.log| > 0
  {
    n.(nextIndex := seq(n.peers, i => LastIndex(n) + 1),
       matchIndex := seq(n.peers, i => n.lastIncludeIndex))
  }

  function Fresh(me: nat, peers: nat, disk: Option<Durable>): Node {
    Node(me, peers, 0, -1, Follower, [GENESIS], 0, 0, [], [], 0, 0, [], 0, {}, disk)
  }

  /** `Make` followed by `readPersist`: what a peer looks like after it (re)starts on its disk. */
  function Restart(me: nat, peers: nat, disk: Option<Durable>): Node {
    var n := Fresh(me, peers, disk);
    var r := match disk
      case None => n
      case Some(d) =>
        n.(currentTerm := d.currentTerm, votedFor := d.votedFor,
           log := if |d.log| > 0 then d.log else [GENESIS],
           lastIncludeIndex := d.lastIncludeIndex, lastIncludeTerm := d.lastIncludeTerm,
           commitIndex := d.lastIncludeIndex, lastApplied := d.lastIncludeIndex,
           snapshot := d.snapshot);
    if peers <= 1 then InitLeader(r.(role := Leader)) else r
  }

  // ---------- elections ----------

  /** Nothing durable is lost by a crash, and a second restart changes nothing: `readPersist` undoes `persist`. */
  lemma PersistThenRestart(n: Node)
    requires |n.log| > 0
    ensures var r := Restart(n.me, n.peers, Persisted(n).disk);
      && DurablePart(r) == DurablePart(n)
      && r.commitIndex == r.lastApplied == n.lastIncludeIndex && r.role == (if n.peers <= 1 then Leader else Follower)
      && Restart(r.me, r.peers, Persisted(r).disk) == r
  {
  }

  function Others(n: Node): set<nat> {
    Ids(n.peers) - {n.me}
  }

  function StartElection(n: Node): (Node, VoteArgs)
    requires |n.log| > 0
  {
    var c := Persisted(n.(role := Candidate, currentTerm := n.currentTerm + 1, votedFor := n.me,
                          votes := 1, awaiting := Others(n)));
    var args := VoteArgs(c.currentTerm, c.me, LastIndex(c), LastTerm(c));
    if n.peers == 1 then (InitLeader(c.(role := Leader)), args) else (c, args)
  }

  lemma ElectionKeepsShape(n: Node)
    requires WellFormed(n) && LogShape(n)
    ensures WellFormed(StartElection(n).0) && LogShape(StartElection(n).0) && Synced(StartElection(n).0)
  {
  }

  predicate UpToDate(n: Node, args: VoteArgs)
    requires |n.log| > 0
  {
    args.lastLogTerm > LastTerm(n) ||
    (args.lastLogTerm == LastTerm(n) && args.lastLogIndex >= LastIndex(n))
  }

  function Adopt(n: Node, term: nat): Node {
    if term > n.currentTerm
    then Persisted(n.(role := Follower, currentTerm := term, votedFor := -1))
    else n
  }

  function RequestVote(n: Node, args: VoteArgs): (Node, VoteReply)
    requires |n.log| > 0
  {
    if args.term < n.currentTerm then (n, VoteReply(n.currentTerm, false))
    else
      var m := Adopt(n, args.term);
      if (m.votedFor == -1 || m.votedFor == args.candidate) && UpToDate(m, args)
      then (Persisted(m.(votedFor := args.candidate)), VoteReply(m.currentTerm, true))
      else (m, VoteReply(m.currentTerm, false))
  }

  /** A goroutine of the election for `term` handles the reply of `server`. */
  function VoteReplied(n: Node, server: nat, term: nat, reply: VoteReply): Node
    requires |n.log| > 0
  {
    if n.role != Candidate || n.currentTerm != term then n
    else
      var m := n.(awaiting := n.awaiting - {server});
      if reply.term > term then
        Persisted(m.(currentTerm := reply.term, role := Follower, votedFor := -1))
      else if reply.granted && reply.term == term then
        var c := m.(votes := m.votes + 1);
        if c.votes > c.peers / 2 then InitLeader(c.(role := Leader)) else c
      else m
  }

  // ---------- replication, leader side ----------

  datatype StartReply = StartReply(index: int, term: nat, isLeader: bool)

  function Start(n: Node, command: Bytes): (Node, StartReply)
    requires |n.log| > 0
  {
    if n.role != Leader then (n, StartReply(-1, n.currentTerm, false))
    else
      var index := LastIndex(n) + 1;
      var m := n.(log := n.log + [Entry(n.currentTerm, index, command)]);
      (Persisted(if n.peers <= 1 then m.(commitIndex := index) else m),
       StartReply(index, n.currentTerm, true))
  }

  /** The peers other than the leader whose `matchIndex` reaches `index`. */
  function Matching(n: Node, index: int): set<nat>
    requires |n.matchIndex| == n.peers
  {
    set i: nat | i < n.peers && i != n.me && n.matchIndex[i] >= index
  }

  predicate Committable(n: Node, index: int)
    requires |n.log| > 0 && |n.matchIndex| == n.peers
  {
    && n.commitIndex < index <= LastIndex(n)
    && n.lastIncludeIndex < index
    && 1 + |Matching(n, index)| > n.peers / 2
    && n.log[index - n.lastIncludeIndex].term == n.currentTerm
  }

  /** The greatest committable index up to `bound`, or the present commit index. */
  function Highest(n: Node, bound: nat): (r: nat)
    requires |n.log| > 0 && |n.matchIndex| == n.peers
    ensures r == n.commitIndex || (r <= bound && Committable(n, r))
    ensures forall k :: r < k <= bound ==> !Committable(n, k)
    decreases bound
  {
    if Committable(n, bound) then bound
    else if bound == 0 then n.commitIndex
    else
      var r := Highest(n, bound - 1);
      r
  }

  /** Below the commit index nothing is committable, so the search for a commit ends there. */
  lemma NoneBelow(n: Node, bound: nat)
    requires |n.log| > 0 && |n.matchIndex| == n.peers
    requires bound <= n.commitIndex || bound <= n.lastIncludeIndex
    ensures Highest(n, bound) == n.commitIndex
  {
  }

  function AdvanceCommit(n: Node): Node
    requires |n.log| > 0 && |n.matchIndex| == n.peers
  {
    n.(commitIndex := Highest(n, LastIndex(n)))
  }

  /** One round of `logUpdate` towards `server`: commit what can be committed, then build the message. */
  function PrepareSend(n: Node, server: nat): (Node, Outgoing)
    requires WellFormed(n) && server < n.peers
  {
    if n.role != Leader then (n, Nothing)
    else
      var m := AdvanceCommit(n);
      var next := m.nextIndex[server];
      if next <= m.lastIncludeIndex then
        (m, SendSnapshot(SnapshotArgs(m.currentTerm, m.me, m.lastIncludeIndex, m.lastIncludeTerm, m.snapshot)))
      else
        var slot := next - 1 - m.lastIncludeIndex;
        if slot >= |m.log| then (m.(nextIndex := m.nextIndex[server := m.lastIncludeIndex + 1]), Nothing)
        else (m, SendAppend(AppendArgs(m.currentTerm, m.me, next - 1, m.log[slot].term, m.log[slot + 1..],
                                       m.commitIndex)))
  }

  function AppendReplied(n: Node, server: nat, args: AppendArgs, reply: AppendReply): Node
    requires WellFormed(n) && server < n.peers
  {
    if n.role != Leader || args.term != n.currentTerm then n
    else if reply.term > n.currentTerm then
      // this step-down keeps votedFor
      Persisted(n.(currentTerm := reply.term, role := Follower))
    else
      var m :=
        if reply.success then
          var match' := args.prevLogIndex + |args.entries|;
          n.(matchIndex := n.matchIndex[server := match'], nextIndex := n.nextIndex[server := match' + 1])
        else if reply.conflictTerm == -1 || reply.conflictIndex != -1 then
          n.(nextIndex := n.nextIndex[server := reply.conflictIndex])
        else n;
      if m.matchIndex[server] > m.nextIndex[server]
      then m.(matchIndex := m.matchIndex[server := m.nextIndex[server] - 1])
      else m
  }

  function SnapshotReplied(n: Node, server: nat, term: nat, replyTerm: nat): Node
    requires WellFormed(n) && server < n.peers
  {
    if n.role != Leader || n.currentTerm != term then n
    else if replyTerm > n.currentTerm then
      Persisted(n.(currentTerm := replyTerm, role := Follower, votedFor := -1))
    else
      n.(nextIndex := n.nextIndex[server := n.lastIncludeIndex + 1],
         matchIndex := n.matchIndex[server := n.lastIncludeIndex])
  }

  // ---------- replication, follower side ----------

  /** The first position of the run of equal terms that ends at `i`. */
  function RunStart(log: seq<Entry>, i: nat): (j: nat)
    requires i < |log|
    ensures j <= i && forall k :: j <= k <= i ==> log[k].term == log[i].term
    ensures j > 0 ==> log[j - 1].term != log[i].term
  {
    if i > 0 && log[i - 1].term == log[i].term then RunStart(log, i - 1) else i
  }

  /** The entries of a message carry on the numbering where its previous index ends. */
  ghost predicate Numbered(args: AppendArgs) {
    forall i :: 0 <= i < |args.entries| ==> args.entries[i].index == args.prevLogIndex + 1 + i
  }

  predicate Accepts(n: Node, args: AppendArgs)
    requires |n.log| > 0
  {
    && args.term >= n.currentTerm
    && n.lastIncludeIndex <= args.prevLogIndex <= LastIndex(n)
    && n.log[args.prevLogIndex - n.lastIncludeIndex].term == args.prevLogTerm
  }

  function Rejection(n: Node, args: AppendArgs, term: nat): AppendReply
    requires |n.log| > 0
  {
    if args.prevLogIndex < n.lastIncludeIndex then AppendReply(term, false, 0, n.lastIncludeIndex + 1)
    else if args.prevLogIndex > LastIndex(n) then AppendReply(term, false, -1, LastIndex(n) + 1)
    else
      var slot := args.prevLogIndex - n.lastIncludeIndex;
      AppendReply(term, false, n.log[slot].term, n.lastIncludeIndex + RunStart(n.log, slot))
  }

  function Spliced(n: Node, args: AppendArgs): seq<Entry>
    requires |n.log| > 0 && n.lastIncludeIndex <= args.prevLogIndex <= LastIndex(n)
  {
    if args.entries == [] then n.log
    else n.log[..args.prevLogIndex + 1 - n.lastIncludeIndex] + args.entries
  }

  function Accepted(n: Node, args: AppendArgs): Node
    requires |n.log| > 0 && Accepts(n, args)
  {
    var a := n.(log := Spliced(n, args));
    // not a maximum: where the log was cut below commitIndex, this lowers it
    var commit := if args.leaderCommit > a.commitIndex then Min(args.leaderCommit, LastIndex(a)) else a.commitIndex;
    Persisted(a.(commitIndex := commit))
  }

  function AppendEntries(n: Node, args: AppendArgs): (Node, AppendReply)
    requires |n.log| > 0
  {
    if args.term < n.currentTerm then (n, AppendReply(n.currentTerm, false, 0, 0))
    else
      var m := Adopt(n, args.term).(role := Follower);
      if !Accepts(m, args) then (m, Rejection(m, args, n.currentTerm))
      else (Accepted(m, args), AppendReply(n.currentTerm, true, 0, 0))
  }

  /** Whatever the message says, an accepted or refused AppendEntries leaves the node sound on disk, and
      a message whose entries are numbered leaves the log numbered. */
  lemma AppendKeepsShape(n: Node, args: AppendArgs)
    requires WellFormed(n) && Synced(n)
    ensures WellFormed(AppendEntries(n, args).0) && Synced(AppendEntries(n, args).0)
    ensures LogShape(n) && Numbered(args) ==> LogShape(AppendEntries(n, args).0)
  {
    if args.term >= n.currentTerm {
      var m := Adopt(n, args.term).(role := Follower);
      if Accepts(m, args) && args.entries != [] && LogShape(n) && Numbered(args) {
        var log := Spliced(m, args);
        var at := args.prevLogIndex + 1 - m.lastIncludeIndex;
        forall i | 0 <= i < |log|
          ensures log[i].index == m.lastIncludeIndex + i
        {
          if i < at { assert log[i] == m.log[i]; } else { assert log[i] == args.entries[i - at]; }
        }
      }
    }
  }

  // ---------- snapshots ----------

  function RaiseTo(xs: seq<int>, floor: int): (ys: seq<int>)
    ensures |ys| == |xs| && forall i :: 0 <= i < |xs| ==> ys[i] == Max(xs[i], floor)
  {
    seq(|xs|, i requires 0 <= i < |xs| => Max(xs[i], floor))
  }

  /** What is left of the log once everything up to `index` is in a snapshot. */
  function CutAt(n: Node, index: nat, term: nat): seq<Entry>
    requires n.lastIncludeIndex < index
  {
    var from := index + 1 - n.lastIncludeIndex;
    [Entry(term, index, [])] + (if from <= |n.log| then n.log[from..] else [])
  }

  function Compacted(n: Node, index: nat, term: nat, data: Bytes): Node
    requires n.lastIncludeIndex < index
  {
    n.(log := CutAt(n, index, term), lastIncludeIndex := index, lastIncludeTerm := term, snapshot := data,
       commitIndex := Max(n.commitIndex, index), lastApplied := Max(n.lastApplied, index))
  }

  function TakeSnapshot(n: Node, index: nat, data: Bytes): Node
    requires WellFormed(n)
    requires index <= LastIndex(n)
  {
    if index <= n.lastIncludeIndex then n
    else
      var term := n.log[index - n.lastIncludeIndex].term;
      var m := Compacted(n, index, term, data);
      Persisted(if n.role == Leader
                then m.(nextIndex := RaiseTo(m.nextIndex, index + 1), matchIndex := RaiseTo(m.matchIndex, index))
                else m)
  }

  function InstallSnapshot(n: Node, args: SnapshotArgs): (Node, nat)
    requires |n.log| > 0
  {
    if args.term < n.currentTerm then (n, n.currentTerm)
    else
      var m := Adopt(n, args.term).(role := Follower);
      if args.lastIncludeIndex <= m.lastIncludeIndex then (m, n.currentTerm)
      else
        (Persisted(Compacted(m, args.lastIncludeIndex, args.lastIncludeTerm, args.data)), n.currentTerm)
  }

  lemma CutKeepsNumbers(n: Node, index: nat, term: nat)
    requires LogShape(n) && n.lastIncludeIndex < index
    ensures forall i :: 0 <= i < |CutAt(n, index, term)| ==> CutAt(n, index, term)[i].index == index + i
  {
  }

  lemma SnapshotKeepsShape(n: Node, index: nat, data: Bytes)
    requires WellFormed(n) && Synced(n) && LogShape(n) && index <= LastIndex(n)
    ensures WellFormed(TakeSnapshot(n, index, data)) && Synced(TakeSnapshot(n, index, data))
    ensures LogShape(TakeSnapshot(n, index, data))
    ensures LastIndex(TakeSnapshot(n, index, data)) == LastIndex(n)
  {
  }

  lemma InstallKeepsShape(n: Node, args: SnapshotArgs)
    requires WellFormed(n) && Synced(n) && LogShape(n)
    ensures WellFormed(InstallSnapshot(n, args).0) && Synced(InstallSnapshot(n, args).0)
    ensures LogShape(InstallSnapshot(n, args).0)
  {
    if args.term >= n.currentTerm && args.lastIncludeIndex > n.lastIncludeIndex {
      CutKeepsNumbers(Adopt(n, args.term).(role := Follower), args.lastIncludeIndex, args.lastIncludeTerm);
    }
  }

  // ---------- applying ----------

  /** One pass of `applier` under the lock: the new state and the messages it will send. */
  function Apply(n: Node): (Node, seq<ApplyMsg>)
    requires |n.log| > 0
  {
    if n.lastApplied < n.lastIncludeIndex then
      (n.(lastApplied := n.lastIncludeIndex),
       [ApplySnapshot(n.snapshot, n.lastIncludeIndex, n.lastIncludeTerm)])
    else
      var upTo := Max(n.lastApplied, Min(n.commitIndex, LastIndex(n)));
      (n.(lastApplied := upTo), Commands(n, n.lastApplied, upTo))
  }

  function Commands(n: Node, from: nat, upTo: nat): (msgs: seq<ApplyMsg>)
    requires |n.log| > 0 && n.lastIncludeIndex <= from <= upTo
    requires upTo <= LastIndex(n) || from == upTo
    ensures |msgs| == upTo - from
    ensures forall k :: 0 <= k < |msgs| ==>
      msgs[k] == ApplyCommand(n.log[from + 1 + k - n.lastIncludeIndex].command, from + 1 + k)
  {
    seq(upTo - from, k requires 0 <= k < upTo - from =>
      ApplyCommand(n.log[from + 1 + k - n.lastIncludeIndex].command, from + 1 + k))
  }
}
