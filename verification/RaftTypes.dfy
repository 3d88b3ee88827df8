/** The records of internal/raft: log entries, node state, RPC arguments and replies. */
module RaftTypes {
  newtype Byte = b: int | 0 <= b < 256
  type Bytes = seq<Byte>

  datatype Option<+T> = None | Some(value: T)

  datatype Entry = Entry(term: nat, index: nat, command: Bytes)

  datatype Role = Follower | Candidate | Leader

  /** What `persist` writes: term, vote, snapshot boundary and log, with the snapshot bytes. */
  datatype Durable = Durable(
    currentTerm: nat, votedFor: int,
    lastIncludeIndex: nat, lastIncludeTerm: nat,
    log: seq<Entry>, snapshot: Bytes)

  /** One Raft peer. `votes` is the counter shared by the goroutines of the running election and
      `awaiting` the peers whose goroutine has not handled its one reply yet. */
  datatype Node = Node(
    me: nat, peers: nat,
    currentTerm: nat, votedFor: int, role: Role,
    log: seq<Entry>, commitIndex: nat, lastApplied: nat,
    nextIndex: seq<int>, matchIndex: seq<int>,
    lastIncludeIndex: nat, lastIncludeTerm: nat, snapshot: Bytes,
    votes: nat, awaiting: set<nat>,
    disk: Option<Durable>)

  datatype VoteArgs = VoteArgs(term: nat, candidate: nat, lastLogIndex: nat, lastLogTerm: nat)
  datatype VoteReply = VoteReply(term: nat, granted: bool)

  datatype AppendArgs = AppendArgs(
    term: nat, leader: nat, prevLogIndex: nat, prevLogTerm: nat,
    entries: seq<Entry>, leaderCommit: nat)
  datatype AppendReply = AppendReply(term: nat, success: bool, conflictTerm: int, conflictIndex: int)

  datatype SnapshotArgs = SnapshotArgs(
    term: nat, leader: nat, lastIncludeIndex: nat, lastIncludeTerm: nat, data: Bytes)

  /** What one round of `logUpdate` sends to a peer. */
  datatype Outgoing =
    | Nothing
    | SendAppend(append: AppendArgs)
    | SendSnapshot(install: SnapshotArgs)

  datatype ApplyMsg =
    | ApplyCommand(command: Bytes, index: nat)
    | ApplySnapshot(data: Bytes, snapshotIndex: nat, snapshotTerm: nat)

  const GENESIS := Entry(0, 0, [])

  function Max(a: int, b: int): int { if a < b then b else a }
  /** The peer numbers of a cluster of `n`. */
  function Ids(n: nat): (ids: set<nat>)
    ensures forall i: nat :: i in ids <==> i < n
    ensures |ids| == n
  {
    if n == 0 then {} else Ids(n - 1) + {n - 1}
  }

  function Min(a: int, b: int): int { if a < b then a else b }

  lemma {:induction false} Within<T>(a: set<T>, b: set<T>)
    requires a <= b
    ensures |a| <= |b|
  {
    if a != {} {
      var x :| x in a;
      Within(a - {x}, b - {x});
    }
  }
}
