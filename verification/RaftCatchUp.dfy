/** How a leader brings one follower up to date: the rounds of `logUpdate` towards that peer, each a
    PrepareSend, an AppendEntries and the handling of its reply, with nothing else in between. */
module RaftCatchUp {
  import opened RaftTypes
  import opened RaftSystem
  import S = RaftStep
  import opened L = RaftLog
  import C = RaftCommit
  import R = RaftSafety

  /** The logs agree through `i` if their terms there do. */
  ghost predicate MeetAt(a: seq<Entry>, b: seq<Entry>, i: nat) {
    i < |a| && i < |b| && a[i].term == b[i].term ==> Agree(a, b, i + 1)
  }

  /** A leader and a follower of its term or an earlier one, with their history logs. Where they have the same
      term, not below the follower's snapshot boundary, they agree; at the boundary they do have the same. */
  ghost predicate Pair(l: Node, f: Node, fullL: seq<Entry>, fullF: seq<Entry>) {
    && S.WellFormed(l) && S.WellFormed(f) && l.role == Leader && f.me < l.peers && f.me != l.me
    && Holds(l, fullL) && Holds(f, fullF)
    && f.currentTerm <= l.currentTerm
    && f.lastIncludeIndex < |fullL| && fullL[f.lastIncludeIndex].term == fullF[f.lastIncludeIndex].term
    && forall i: nat {:trigger MeetAt(fullF, fullL, i)} :: f.lastIncludeIndex <= i ==> MeetAt(fullF, fullL, i)
  }

  /** In every state of a fresh run a leader and any peer of a term no later form such a pair, snapshots installed
      or not. */
  lemma ReachablePair(r: R.Run, i: nat, u: nat, v: nat)
    requires R.IsFreshRun(r) && i < |r.states| && u < |r.states[i].nodes| && v < |r.states[i].nodes| && u != v
    requires r.states[i].nodes[v].role == Leader && r.states[i].nodes[u].currentTerm <= r.states[i].nodes[v].currentTerm
    ensures var s := r.states[i];
      Pair(s.nodes[v], s.nodes[u], R.HistoryLog(s, v), R.HistoryLog(s, u))
  {
    R.RunSafe(r, i);
    SafePair(r.states[i], u, v);
  }

  lemma SafePair(s: Sys, u: nat, v: nat)
    requires R.Safe(s) && u < |s.nodes| && v < |s.nodes| && u != v
    requires s.nodes[v].role == Leader && s.nodes[u].currentTerm <= s.nodes[v].currentTerm
    ensures Pair(s.nodes[v], s.nodes[u], s.hist.full[v], s.hist.full[u])
  {
    var full, k := s.hist.full, s.nodes[u].lastIncludeIndex;
    assert PeerLogOk(s.nodes[v], full[v], s.hist.base[v], s.hist)
      && PeerLogOk(s.nodes[u], full[u], s.hist.base[u], s.hist);
    assert C.PeerCommitOk(s.nodes[u], full[u], s.hist);
    R.RecordedReflexive(s);
    if k > 0 { R.LeaderHas(s, s, u, v, k); }
    forall i: nat | k <= i
      ensures MeetAt(full[u], full[v], i)
    {
      if i < |full[u]| && i < |full[v]| && full[u][i].term == full[v][i].term { R.LeaderMatches(s, u, v, i); }
    }
  }

  /** How many more rounds a `nextIndex` can cost: past the end it is reset, below the follower's
      boundary it jumps to just above it, just above it is accepted, elsewhere it falls. */
  ghost function Rank(next: int, lastL: nat, snapF: nat): nat {
    if next > lastL + 1 then lastL + 3
    else if next <= snapF then 1
    else if next == snapF + 1 then 0
    else next
  }

  // ---------- one round, part by part ----------

  /** What the leader sends: the entry before `nextIndex` and everything from there. */
  lemma Sending(l: Node, fullL: seq<Entry>, server: nat)
    requires S.WellFormed(l) && l.role == Leader && Holds(l, fullL) && server < l.peers
    ensures var (l1, out) := S.PrepareSend(l, server);
      && l1 == l.(commitIndex := l1.commitIndex, nextIndex := l1.nextIndex) && |l1.nextIndex| == l.peers
      && (out.Nothing? ==> l.nextIndex[server] > |fullL| && l1.nextIndex[server] == l.lastIncludeIndex + 1)
      && (out.SendSnapshot? ==> l1.nextIndex[server] <= l.lastIncludeIndex)
      && (out.SendAppend? ==>
            && l1.nextIndex == l.nextIndex
            && out.append.term == l.currentTerm && out.append.prevLogIndex == l.nextIndex[server] - 1 < |fullL|
            && LastOfMsg(out.append) == |fullL| - 1 && out.append.prevLogTerm == fullL[out.append.prevLogIndex].term
            && forall i :: 0 <= i < |out.append.entries| ==>
              out.append.entries[i] == fullL[out.append.prevLogIndex + 1 + i])
  {
  }

  /** What a follower of an earlier or the same term answers when it refuses. */
  lemma Refusing(f: Node, args: AppendArgs)
    requires S.WellFormed(f) && S.Synced(f) && f.currentTerm <= args.term
    requires !S.AppendEntries(f, args).1.success
    ensures var (f1, reply) := S.AppendEntries(f, args);
      && f1 == f.(currentTerm := args.term, votedFor := f1.votedFor, role := Follower, disk := f1.disk) && S.Synced(f1)
      && reply.term <= args.term
      && (args.prevLogIndex < f.lastIncludeIndex ==> reply.conflictIndex == f.lastIncludeIndex + 1)
      && (args.prevLogIndex >= f.lastIncludeIndex ==> f.lastIncludeIndex <= reply.conflictIndex <= args.prevLogIndex)
      && (args.prevLogIndex == f.lastIncludeIndex ==> f.log[0].term != args.prevLogTerm)
  {
  }

  /** What the leader makes of a refusal. */
  lemma Refused(l: Node, server: nat, args: AppendArgs, reply: AppendReply)
    requires S.WellFormed(l) && l.role == Leader && server < l.peers && args.term == l.currentTerm
    requires !reply.success && reply.term <= l.currentTerm && reply.conflictIndex >= 0
    ensures var l2 := S.AppendReplied(l, server, args, reply);
      && l2 == l.(nextIndex := l.nextIndex[server := reply.conflictIndex], matchIndex := l2.matchIndex)
      && |l2.matchIndex| == l.peers
  {
  }

  /** A refusal strictly lowers `nextIndex` while it is not below the follower's boundary, and in every
      case brings acceptance nearer: at the boundary itself a refusal is impossible. */
  lemma RefusalMakesProgress(next: int, conflict: int, lastL: nat, snapF: nat)
    requires 1 <= next <= lastL + 1 && snapF <= lastL && next - 1 != snapF
    requires if next - 1 < snapF then conflict == snapF + 1 else snapF <= conflict <= next - 1
    ensures next - 1 >= snapF ==> conflict < next
    ensures Rank(conflict, lastL, snapF) < Rank(next, lastL, snapF)
  {
  }

  /** A round that ends in a refusal leaves the pair a pair. */
  lemma RoundKeepsPair(l: Node, f: Node, l': Node, f': Node, fullL: seq<Entry>, fullF: seq<Entry>)
    requires Pair(l, f, fullL, fullF)
    requires l' == l.(commitIndex := l'.commitIndex, nextIndex := l'.nextIndex, matchIndex := l'.matchIndex)
    requires |l'.nextIndex| == |l'.matchIndex| == l.peers
    requires f' == f.(currentTerm := f'.currentTerm, votedFor := f'.votedFor, role := f'.role, disk := f'.disk)
    requires f.currentTerm <= f'.currentTerm <= l.currentTerm && S.Synced(f') && (f'.role == Follower || f' == f)
    ensures Pair(l', f', fullL, fullF)
  {
  }

  /** Once accepted, the follower's log is the leader's through the leader's last index. */
  lemma AcceptedRound(f: Node, args: AppendArgs, fullL: seq<Entry>, fullF: seq<Entry>)
    requires S.WellFormed(f) && Holds(f, fullF)
    requires forall i: nat {:trigger MeetAt(fullF, fullL, i)} :: f.lastIncludeIndex <= i ==> MeetAt(fullF, fullL, i)
    requires LastOfMsg(args) == |fullL| - 1 && args.prevLogTerm == fullL[args.prevLogIndex].term
    requires forall i :: 0 <= i < |args.entries| ==> args.entries[i] == fullL[args.prevLogIndex + 1 + i]
    requires S.AppendEntries(f, args).1.success
    ensures var f1, full' := S.AppendEntries(f, args).0, L.Extended(fullF, args);
      && f1.lastIncludeIndex == f.lastIncludeIndex < |full'| && f1.log == View(full', f1.lastIncludeIndex)
      && Agree(full', fullL, |fullL|)
      && S.AppendEntries(f, args).1.term <= args.term
  {
    HoldsAppend(f, fullF, args);
    assert MeetAt(fullF, fullL, args.prevLogIndex);
    L.ExtendedAgrees(fullF, fullL, args);
  }

  lemma Confirmed(l: Node, server: nat, args: AppendArgs, reply: AppendReply)
    requires S.WellFormed(l) && l.role == Leader && server < l.peers && args.term == l.currentTerm
    requires reply.success && reply.term <= l.currentTerm
    ensures var l2 := S.AppendReplied(l, server, args, reply);
      && l2 == l.(nextIndex := l.nextIndex[server := LastOfMsg(args) + 1],
                  matchIndex := l.matchIndex[server := LastOfMsg(args)])
      && |l2.nextIndex| == |l2.matchIndex| == l.peers
  {
  }

  datatype Outcome = CaughtUp | NeedsSnapshot | TryAgain

  /** The follower's log stands for a history log that has all of the leader's. */
  ghost predicate HasAllOf(f: Node, fullL: seq<Entry>) {
    exists full :: Agree(full, fullL, |fullL|) && f.lastIncludeIndex < |full| && f.log == View(full, f.lastIncludeIndex)
  }

  /** Send, handle, answer, handle the answer. */
  method Round(l: Node, f: Node, ghost fullL: seq<Entry>, ghost fullF: seq<Entry>)
    returns (l': Node, f': Node, outcome: Outcome)
    requires Pair(l, f, fullL, fullF)
    ensures |l'.nextIndex| == |l'.matchIndex| == l.peers == l'.peers && l'.lastIncludeIndex == l.lastIncludeIndex
    ensures f'.me == f.me && f'.lastIncludeIndex == f.lastIncludeIndex
    ensures outcome == CaughtUp ==> HasAllOf(f', fullL) && l'.matchIndex[f.me] == |fullL| - 1
    ensures outcome == NeedsSnapshot ==> l'.nextIndex[f.me] <= l.lastIncludeIndex && f' == f
    ensures outcome == TryAgain ==>
      && Pair(l', f', fullL, fullF) && f'.log == f.log
      && Rank(l'.nextIndex[f.me], |fullL| - 1, f.lastIncludeIndex)
         < Rank(l.nextIndex[f.me], |fullL| - 1, f.lastIncludeIndex)
  {
    var (l1, out) := S.PrepareSend(l, f.me);
    Sending(l, fullL, f.me);
    if out.SendSnapshot? {
      return l1, f, NeedsSnapshot;
    }
    if out.Nothing? {
      RoundKeepsPair(l, f, l1, f, fullL, fullF);
      return l1, f, TryAgain;
    }
    l', f', outcome := Exchange(l, l1, f, out.append, fullL, fullF);
  }

  method Exchange(ghost l: Node, l1: Node, f: Node, args: AppendArgs,
                  ghost fullL: seq<Entry>, ghost fullF: seq<Entry>)
    returns (l': Node, f': Node, outcome: Outcome)
    requires Pair(l, f, fullL, fullF)
    requires l1 == l.(commitIndex := l1.commitIndex)
    requires args.term == l.currentTerm && args.prevLogIndex == l.nextIndex[f.me] - 1 < |fullL|
    requires LastOfMsg(args) == |fullL| - 1 && args.prevLogTerm == fullL[args.prevLogIndex].term
    requires forall i :: 0 <= i < |args.entries| ==> args.entries[i] == fullL[args.prevLogIndex + 1 + i]
    ensures |l'.nextIndex| == |l'.matchIndex| == l.peers == l'.peers && l'.lastIncludeIndex == l.lastIncludeIndex
    ensures f'.me == f.me && f'.lastIncludeIndex == f.lastIncludeIndex && outcome != NeedsSnapshot
    ensures outcome == CaughtUp ==> HasAllOf(f', fullL) && l'.matchIndex[f.me] == |fullL| - 1
    ensures outcome == TryAgain ==>
      && Pair(l', f', fullL, fullF) && f'.log == f.log
      && Rank(l'.nextIndex[f.me], |fullL| - 1, f.lastIncludeIndex)
         < Rank(l.nextIndex[f.me], |fullL| - 1, f.lastIncludeIndex)
  {
    var (f1, reply) := S.AppendEntries(f, args);
    var l2 := S.AppendReplied(l1, f.me, args, reply);
    if reply.success {
      AcceptedRound(f, args, fullL, fullF);
      Confirmed(l1, f.me, args, reply);
      return l2, f1, CaughtUp;
    }
    Refusing(f, args);
    Refused(l1, f.me, args, reply);
    RefusalMakesProgress(l.nextIndex[f.me], reply.conflictIndex, |fullL| - 1, f.lastIncludeIndex);
    RoundKeepsPair(l, f, l2, f1, fullL, fullF);
    return l2, f1, TryAgain;
  }

  /** The rounds end, in acceptance with equal logs, or where the next entry is in the leader's snapshot. */
  method CatchUp(leader: Node, follower: Node, ghost fullL: seq<Entry>, ghost fullF: seq<Entry>)
    returns (l: Node, f: Node, outcome: Outcome)
    requires Pair(leader, follower, fullL, fullF)
    ensures |l.nextIndex| == |l.matchIndex| == leader.peers && outcome != TryAgain
    ensures outcome == CaughtUp ==> HasAllOf(f, fullL) && l.matchIndex[follower.me] == |fullL| - 1
    ensures outcome == NeedsSnapshot ==>
      l.nextIndex[follower.me] <= leader.lastIncludeIndex && f.log == follower.log
  {
    l, f, outcome := leader, follower, TryAgain;
    while outcome == TryAgain
      invariant f.me == follower.me && |l.nextIndex| == |l.matchIndex| == l.peers == leader.peers
      invariant l.lastIncludeIndex == leader.lastIncludeIndex
      invariant outcome == TryAgain ==> Pair(l, f, fullL, fullF) && f.log == follower.log
      invariant outcome == CaughtUp ==> HasAllOf(f, fullL) && l.matchIndex[f.me] == |fullL| - 1
      invariant outcome == NeedsSnapshot ==> l.nextIndex[f.me] <= leader.lastIncludeIndex && f.log == follower.log
      decreases outcome == TryAgain, Rank(l.nextIndex[f.me], |fullL| - 1, f.lastIncludeIndex)
    {
      l, f, outcome := Round(l, f, fullL, fullF);
    }
  }
}
