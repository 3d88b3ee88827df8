/** The commit invariant through what a follower does: accepting an AppendEntries, which cuts its log, and
    installing a snapshot, which replaces its prefix and keeps its suffix. */
module RaftAccept {
  import opened RaftTypes
  import opened RaftSystem
  import S = RaftStep
  import E = RaftElection
  import opened L = RaftLog
  import opened RaftCommit

  // ---------- what an accepted message meets ----------

  /** The message does not end before what its receiver already acknowledged to this leader, or it is a
      heartbeat, which cuts nothing. */
  ghost predicate FreshFor(acked: map<nat, nat>, args: AppendArgs) {
    args.entries == [] || args.term !in acked || acked[args.term] <= LastOfMsg(args)
  }

  /** The consistency check passed. */
  ghost predicate Passes(n: Node, full: seq<Entry>, args: AppendArgs) {
    && n.lastIncludeIndex <= args.prevLogIndex < |full| && full[args.prevLogIndex].term == args.prevLogTerm
    && n.currentTerm <= args.term
  }

  /** What a peer believes committed is what every leader of its term or a later one has. */
  lemma CommittedMeetsLeader(s: Sys, v: nat, t: nat)
    requires E.Elections(s) && Logs(s) && Commits(s) && v < |s.nodes| && t in s.hist.led && s.nodes[v].currentTerm <= t
    ensures Agree(s.hist.full[v], s.hist.led[t].log, s.nodes[v].commitIndex + 1)
  {
    var n, full, h := s.nodes[v], s.hist.full[v], s.hist;
    assert PeerLogOk(n, full, h.base[v], h) && PeerCommitOk(n, full, h) && LedLogOk(h.led, t);
    if n.commitIndex > 0 {
      var p :| SettledBy(h, full, n.commitIndex, p) && p.term <= n.currentTerm;
      if p.term < t { LeaderCompleteness(s, p, t); }
    }
  }

  /** Where the check passes the receiver's log, a snapshot's prefix included, is the sender's up to there. */
  lemma AcceptMeets(s: Sys, v: nat, msg: AppendMsg)
    requires E.Elections(s) && Logs(s) && Commits(s) && v < |s.nodes| && msg in s.net.appends
    requires Passes(s.nodes[v], s.hist.full[v], msg.args)
    ensures AppendOk(s.hist.led, msg) && Agree(s.hist.full[v], s.hist.led[msg.args.term].log, msg.args.prevLogIndex + 1)
  {
    var n, full, base, led, args := s.nodes[v], s.hist.full[v], s.hist.base[v], s.hist.led, msg.args;
    assert PeerLogOk(n, full, base, s.hist) && PeerCommitOk(n, full, s.hist);
    assert AppendOk(led, msg) && LedLogOk(led, args.term);
    CommittedMeetsLeader(s, v, args.term);
    if args.prevLogIndex > n.lastIncludeIndex { SameTermSamePrefix(base, led[args.term].log, led, args.prevLogIndex); }
  }

  lemma AcceptReaches(s: Sys, v: nat, msg: AppendMsg)
    requires E.Elections(s) && Logs(s) && Commits(s) && v < |s.nodes| && msg in s.net.appends
    requires Passes(s.nodes[v], s.hist.full[v], msg.args)
    ensures AppendOk(s.hist.led, msg)
    ensures Agree(Extended(s.hist.full[v], msg.args), s.hist.led[msg.args.term].log, LastOfMsg(msg.args) + 1)
    ensures msg.args.entries != [] ==> |Extended(s.hist.full[v], msg.args)| == LastOfMsg(msg.args) + 1
  {
    AcceptMeets(s, v, msg);
    ExtendedAgrees(s.hist.full[v], s.hist.led[msg.args.term].log, msg.args);
  }

  /** A consent that is no acknowledgement is to a heartbeat at the boundary, of the leader whose snapshot it was. */
  lemma Unconfirmed(s: Sys, v: nat, msg: AppendMsg)
    requires Logs(s) && Commits(s) && v < |s.nodes| && msg in s.net.appends
    requires Passes(s.nodes[v], s.hist.full[v], msg.args) && !Confirms(s.hist.base[v], msg.args)
    ensures msg.args.entries == [] && msg.args.prevLogIndex == s.nodes[v].lastIncludeIndex
    ensures msg.args.leader < |s.nodes| && LastOfMsg(msg.args) <= s.nodes[msg.args.leader].lastIncludeIndex
  {
    assert PeerLogOk(s.nodes[v], s.hist.full[v], s.hist.base[v], s.hist);
    assert AppendOk(s.hist.led, msg) && LedLogOk(s.hist.led, msg.args.term);
    assert BoundaryOk(s.nodes, s.hist, v);
  }

  // ---------- accepting ----------

  /** What an accepted message changes: on record and in the mail, */
  ghost predicate AcceptRecord(s: Sys, s': Sys, v: nat, msg: AppendMsg) {
    && Sized(s) && v < |s.nodes|
    && s'.hist == Appended(s.hist, v, msg.args).(seen := s'.hist.seen)
    && s'.net == s.net.(appendReplies := s'.net.appendReplies)
    && (forall a :: a in s'.net.appendReplies ==> a in s.net.appendReplies || (a.from == v && a.args == msg.args))
  }

  /** and at the receiver. */
  ghost predicate AcceptNode(n: Node, x: Node, full: seq<Entry>, args: AppendArgs) {
    && Passes(n, full, args)
    && x.me == n.me && x.role == Follower && x.currentTerm == args.term
    && x.lastIncludeIndex == n.lastIncludeIndex && x.lastApplied == n.lastApplied
    && x.commitIndex == (if args.leaderCommit <= n.commitIndex then n.commitIndex
                         else Min(args.leaderCommit, |Extended(full, args)| - 1))
  }

  ghost predicate AcceptMove(s: Sys, s': Sys, v: nat, msg: AppendMsg) {
    && Sized(s) && Sized(s') && v < |s.nodes| == |s'.nodes| && msg in s.net.appends
    && s'.nodes == s.nodes[v := s'.nodes[v]]
    && AcceptRecord(s, s', v, msg) && AcceptNode(s.nodes[v], s'.nodes[v], s.hist.full[v], msg.args)
    && FreshFor(s.hist.acked[v], msg.args)
  }

  lemma AcceptFrame(s: Sys, s': Sys, v: nat, msg: AppendMsg)
    requires Logs(s) && Commits(s) && AcceptMove(s, s', v, msg)
    ensures Moved(s, s', v) && AcksOk(s'.nodes, s'.hist)
    ensures s'.hist.full[v] == Extended(s.hist.full[v], msg.args)
    ensures s'.hist.base[v] == BaseAfter(s.hist.led, s.hist.base[v], msg.args)
  {
    assert AppendOk(s.hist.led, msg);
    assert AcksGrow(s.nodes, s.hist.acked, s'.hist.acked);
    forall q: nat, t: nat ensures AckOk(s'.nodes, s'.hist, q, t) { assert AckOk(s.nodes, s.hist, q, t); }
  }

  /** The receiver still has what it acknowledged in this term and before, */
  lemma AcceptRetains(s: Sys, s': Sys, v: nat, msg: AppendMsg, t: nat, N: nat)
    requires E.Elections(s) && Logs(s) && Commits(s) && AcceptMove(s, s', v, msg) && Moved(s, s', v)
    requires s'.hist.base[v] == BaseAfter(s.hist.led, s.hist.base[v], msg.args)
    requires Own(s'.hist.led, t, N) && Acked(s'.hist.acked, v, t, N)
    ensures Dead(s'.hist, t, N) || Agree(s'.hist.base[v], s'.hist.led[t].log, N + 1)
  {
    var h, h', args := s.hist, s'.hist, msg.args;
    assert PeerLogOk(s.nodes[v], h.full[v], h.base[v], h);
    assert AppendOk(h.led, msg) && LedLogOk(h.led, args.term);
    assert RetainedAt(h, v, t, N);
    if Dead(h, t, N) {
      DeadStays(s, h', t, N);
    } else if t != args.term {
      assert AckOk(s.nodes, h, v, t);
      assert CompleteAt(h, t, args.term, N);
    } else if args.entries == [] && !Acked(h.acked, v, t, N) {
      SameTermSamePrefix(h.base[v], h.led[t].log, h.led, args.prevLogIndex);
    }
  }

  lemma AcceptRetained(s: Sys, s': Sys, v: nat, msg: AppendMsg)
    requires E.Elections(s) && Logs(s) && Commits(s) && AcceptMove(s, s', v, msg) && Moved(s, s', v)
    requires s'.hist.base[v] == BaseAfter(s.hist.led, s.hist.base[v], msg.args)
    ensures Retained(s'.hist)
  {
    forall q: nat, t: nat, N: nat
      ensures RetainedAt(s'.hist, q, t, N)
    {
      if q < |s'.hist.base| && Own(s'.hist.led, t, N) && Acked(s'.hist.acked, q, t, N) {
        if q == v {
          AcceptRetains(s, s', v, msg, t, N);
        } else {
          assert RetainedAt(s.hist, q, t, N);
          RetainedStays(s, s'.hist, q, t, N);
        }
      }
    }
  }

  /** Cutting the log at the message never touches what the peer believed committed. */
  lemma AcceptKeepsCommitted(s: Sys, v: nat, msg: AppendMsg, p: Pos)
    requires E.Elections(s) && Logs(s) && Commits(s) && v < |s.nodes| && msg in s.net.appends
    requires Passes(s.nodes[v], s.hist.full[v], msg.args) && FreshFor(s.hist.acked[v], msg.args)
    requires var n := s.nodes[v];
      && SettledBy(s.hist, s.hist.full[v], n.commitIndex, p) && p.term <= n.currentTerm
      && (p.term == n.currentTerm ==> Sure(n, s.hist))
    ensures SettledBy(s.hist, Extended(s.hist.full[v], msg.args), s.nodes[v].commitIndex, p)
  {
    AcceptReaches(s, v, msg);
    if msg.args.entries != [] && p.term < msg.args.term { LeaderCompleteness(s, p, msg.args.term); }
  }

  /** What the receiver believed stays settled, */
  lemma AcceptOldBelief(s: Sys, s': Sys, v: nat, msg: AppendMsg) returns (p: Pos)
    requires E.Elections(s) && Logs(s) && Commits(s) && AcceptMove(s, s', v, msg) && Moved(s, s', v)
    requires s'.hist.full[v] == Extended(s.hist.full[v], msg.args)
    requires s.nodes[v].commitIndex > 0 && s'.nodes[v].commitIndex == s.nodes[v].commitIndex
    ensures SettledBy(s'.hist, s'.hist.full[v], s'.nodes[v].commitIndex, p) && p.term <= s'.nodes[v].currentTerm
    ensures p.term == s'.nodes[v].currentTerm ==> Sure(s'.nodes[v], s'.hist)
  {
    var n, h := s.nodes[v], s.hist;
    assert PeerCommitOk(n, h.full[v], h);
    p :| SettledBy(h, h.full[v], n.commitIndex, p) && p.term <= n.currentTerm
      && (p.term == n.currentTerm ==> Sure(n, h));
    AcceptKeepsCommitted(s, v, msg, p);
    SettledStays(s.nodes, h, s'.hist, s'.hist.full[v], n.commitIndex, p);
  }

  /** and what the message announces is settled in the new log. */
  lemma AcceptNewBelief(s: Sys, s': Sys, v: nat, msg: AppendMsg) returns (p: Pos)
    requires E.Elections(s) && Logs(s) && Commits(s) && AcceptMove(s, s', v, msg) && Moved(s, s', v)
    requires s'.hist.full[v] == Extended(s.hist.full[v], msg.args)
    requires msg.args.leaderCommit > s.nodes[v].commitIndex
    ensures s'.nodes[v].commitIndex == msg.args.leaderCommit < |s'.hist.full[v]|
    ensures SettledBy(s'.hist, s'.hist.full[v], s'.nodes[v].commitIndex, p) && p.term <= s'.nodes[v].currentTerm
    ensures Sure(s'.nodes[v], s'.hist)
  {
    var h, args := s.hist, msg.args;
    assert NewsOk(h, args);
    AcceptReaches(s, v, msg);
    if !Confirms(h.base[v], args) { Unconfirmed(s, v, msg); }
    p :| SettledBy(h, h.led[args.term].log, args.leaderCommit, p) && p.term <= args.term;
  }

  lemma AcceptBelief(s: Sys, s': Sys, v: nat, msg: AppendMsg)
    requires E.Elections(s) && Logs(s) && Commits(s) && AcceptMove(s, s', v, msg) && Moved(s, s', v)
    requires s'.hist.full[v] == Extended(s.hist.full[v], msg.args)
    ensures PeerCommitOk(s'.nodes[v], s'.hist.full[v], s'.hist)
  {
    var n := s.nodes[v];
    assert PeerCommitOk(n, s.hist.full[v], s.hist) && PeerLogOk(n, s.hist.full[v], s.hist.base[v], s.hist);
    if msg.args.leaderCommit > n.commitIndex {
      var p := AcceptNewBelief(s, s', v, msg);
    } else if n.commitIndex > 0 {
      var p := AcceptOldBelief(s, s', v, msg);
    }
  }

  lemma AcceptBoundary(s: Sys, s': Sys, v: nat, msg: AppendMsg)
    requires E.Elections(s) && Logs(s) && Commits(s) && AcceptMove(s, s', v, msg) && Moved(s, s', v)
    requires s'.hist.full[v] == Extended(s.hist.full[v], msg.args)
    requires s'.hist.base[v] == BaseAfter(s.hist.led, s.hist.base[v], msg.args)
    ensures BoundaryOk(s'.nodes, s'.hist, v)
  {
    var n, full, base, led, args := s.nodes[v], s.hist.full[v], s.hist.base[v], s.hist.led, msg.args;
    assert PeerLogOk(n, full, base, s.hist) && BoundaryOk(s.nodes, s.hist, v);
    if args.entries == [] {
      BoundaryStays(s.nodes, s'.nodes, s.hist, s'.hist, v);
    } else {
      AcceptMeets(s, v, msg);
      assert s'.hist.base[v][n.lastIncludeIndex] == led[args.term].log[n.lastIncludeIndex] == full[n.lastIncludeIndex];
    }
  }

  lemma AcceptTruthful(s: Sys, s': Sys, v: nat, msg: AppendMsg)
    requires Logs(s) && Commits(s) && AcceptMove(s, s', v, msg) && Moved(s, s', v)
    ensures Truthful(s, s')
  {
    if !Confirms(s.hist.base[v], msg.args) { Unconfirmed(s, v, msg); }
    forall a | a in s'.net.appendReplies && a !in s.net.appendReplies ensures AnswerOk(s'.nodes, s'.hist, a) { }
  }

  lemma AcceptStep(s: Sys, s': Sys, v: nat, msg: AppendMsg)
    requires E.Elections(s) && Logs(s) && Commits(s) && AcceptMove(s, s', v, msg)
    ensures Commits(s')
  {
    AcceptFrame(s, s', v, msg);
    CompleteStays(s, s'.hist);
    AcceptRetained(s, s', v, msg);
    VotesSafeStay(s, s'.hist);
    forall t ensures SelfAck(s'.hist, t) { assert SelfAck(s.hist, t); }
    CommitsStay(s.nodes, s.hist, s'.hist);
    AcceptBelief(s, s', v, msg);
    AcceptBoundary(s, s', v, msg);
    AcceptTruthful(s, s', v, msg);
    Assemble(s, s', v);
  }

  lemma AcceptedNode(n: Node, full: seq<Entry>, args: AppendArgs)
    requires S.WellFormed(n) && Holds(n, full) && S.AppendEntries(n, args).1.success
    ensures AcceptNode(n, S.AppendEntries(n, args).0, full, args)
  {
    HoldsAppend(n, full, args);
  }

  lemma AcceptMoves(s: Sys, v: nat, msg: AppendMsg)
    requires Logs(s) && Enabled(s, GetAppend(v, msg)) && S.AppendEntries(s.nodes[v], msg.args).1.success
    requires FreshFor(s.hist.acked[v], msg.args)
    ensures AcceptMove(s, AfterAppend(s, v, msg), v, msg)
  {
    assert PeerLogOk(s.nodes[v], s.hist.full[v], s.hist.base[v], s.hist);
    AcceptedNode(s.nodes[v], s.hist.full[v], msg.args);
    AppendLogs(s, v, msg);
  }

  lemma AcceptCommits(s: Sys, v: nat, msg: AppendMsg)
    requires E.Elections(s) && Logs(s) && Commits(s) && Enabled(s, GetAppend(v, msg))
    requires S.AppendEntries(s.nodes[v], msg.args).1.success && FreshFor(s.hist.acked[v], msg.args)
    ensures Commits(AfterAppend(s, v, msg))
  {
    AcceptMoves(s, v, msg);
    AcceptStep(s, AfterAppend(s, v, msg), v, msg);
  }

  lemma RejectCommits(s: Sys, v: nat, msg: AppendMsg)
    requires E.Elections(s) && Logs(s) && Commits(s) && Enabled(s, GetAppend(v, msg))
    requires !S.AppendEntries(s.nodes[v], msg.args).1.success
    ensures Commits(AfterAppend(s, v, msg))
  {
    var s' := AfterAppend(s, v, msg);
    assert PeerCommitOk(s.nodes[v], s.hist.full[v], s.hist);
    BelieveLess(s.nodes[v], s'.nodes[v], s.hist.full[v], s.hist);
    QuietCommit(s, s', v);
  }

  // ---------- installing a snapshot ----------

  /** What an installed snapshot changes. */
  ghost predicate InstallMove(s: Sys, s': Sys, v: nat, copy: SnapshotMsg) {
    && Sized(s) && Sized(s') && v < |s.nodes| == |s'.nodes| && copy in s.net.snapshots
    && s'.nodes == s.nodes[v := s'.nodes[v]]
    && Installs(s.nodes[v], copy.args) && s'.hist == Restored(s.hist, v, copy.args) && s'.net == s.net
    && var n, x, k := s.nodes[v], s'.nodes[v], copy.args.lastIncludeIndex;
       && x.me == n.me && x.role == Follower && x.currentTerm == copy.args.term && x.lastIncludeIndex == k
       && x.commitIndex == Max(n.commitIndex, k) && x.lastApplied == Max(n.lastApplied, k)
  }

  lemma InstallFrame(s: Sys, s': Sys, v: nat, copy: SnapshotMsg)
    requires Logs(s) && Commits(s) && InstallMove(s, s', v, copy)
    ensures Moved(s, s', v) && AcksOk(s'.nodes, s'.hist) && CopyOk(s.hist.led, copy)
    ensures CopyNewsOk(s.nodes, s.hist, copy)
    ensures var h, k := s.hist, copy.args.lastIncludeIndex;
      var prefix := LedPrefix(h.led, copy.args.term, k);
      && |prefix| == k + 1 && Agree(prefix, h.led[copy.args.term].log, k + 1)
      && s'.hist.full[v] == Installed(h.full[v], prefix)
      && s'.hist.base[v] == if |h.base[v]| <= |prefix| then prefix else h.base[v]
  {
    assert CopyOk(s.hist.led, copy) && CopyNewsOk(s.nodes, s.hist, copy);
    LedPrefixOk(s.hist.led, copy.args.term, copy.args.lastIncludeIndex);
    AcksStay(s.nodes, s'.nodes, s.hist, s'.hist);
  }

  lemma InstallRetains(s: Sys, s': Sys, v: nat, copy: SnapshotMsg, t: nat, N: nat)
    requires E.Elections(s) && Logs(s) && Commits(s) && InstallMove(s, s', v, copy) && Moved(s, s', v)
    requires Own(s'.hist.led, t, N) && Acked(s'.hist.acked, v, t, N)
    ensures Dead(s'.hist, t, N) || Agree(s'.hist.base[v], s'.hist.led[t].log, N + 1)
  {
    var h := s.hist;
    InstallFrame(s, s', v, copy);
    assert RetainedAt(h, v, t, N);
    if Dead(h, t, N) {
      DeadStays(s, s'.hist, t, N);
    } else if t != copy.args.term {
      assert AckOk(s.nodes, h, v, t);
      assert CompleteAt(h, t, copy.args.term, N);
    }
  }

  lemma InstallRetained(s: Sys, s': Sys, v: nat, copy: SnapshotMsg)
    requires E.Elections(s) && Logs(s) && Commits(s) && InstallMove(s, s', v, copy) && Moved(s, s', v)
    ensures Retained(s'.hist)
  {
    forall q: nat, t: nat, N: nat
      ensures RetainedAt(s'.hist, q, t, N)
    {
      if q < |s'.hist.base| && Own(s'.hist.led, t, N) && Acked(s'.hist.acked, q, t, N) {
        if q == v {
          InstallRetains(s, s', v, copy, t, N);
        } else {
          assert RetainedAt(s.hist, q, t, N);
          RetainedStays(s, s'.hist, q, t, N);
        }
      }
    }
  }

  /** Above an already committed index the snapshot brings nothing new, and below it the same. */
  lemma InstallOldBelief(s: Sys, s': Sys, v: nat, copy: SnapshotMsg) returns (p: Pos)
    requires E.Elections(s) && Logs(s) && Commits(s) && InstallMove(s, s', v, copy) && Moved(s, s', v)
    requires s.nodes[v].commitIndex > copy.args.lastIncludeIndex
    ensures SettledBy(s'.hist, s'.hist.full[v], s'.nodes[v].commitIndex, p) && p.term <= s'.nodes[v].currentTerm
    ensures p.term == s'.nodes[v].currentTerm ==> Sure(s'.nodes[v], s'.hist)
  {
    var n, full, h := s.nodes[v], s.hist.full[v], s.hist;
    assert PeerCommitOk(n, full, h);
    InstallFrame(s, s', v, copy);
    CommittedMeetsLeader(s, v, copy.args.term);
    p :| SettledBy(h, full, n.commitIndex, p) && p.term <= n.currentTerm && (p.term == n.currentTerm ==> Sure(n, h));
    InstalledSame(full, LedPrefix(h.led, copy.args.term, copy.args.lastIncludeIndex), h.led[copy.args.term].log,
                  n.commitIndex);
  }

  lemma InstalledSame(full: seq<Entry>, prefix: seq<Entry>, log: seq<Entry>, k: nat)
    requires Agree(full, log, k + 1) && Agree(prefix, log, |prefix|) && |prefix| <= k
    ensures Installed(full, prefix) == full
  {
  }

  lemma InstallNewBelief(s: Sys, s': Sys, v: nat, copy: SnapshotMsg) returns (p: Pos)
    requires E.Elections(s) && Logs(s) && Commits(s) && InstallMove(s, s', v, copy) && Moved(s, s', v)
    requires s.nodes[v].commitIndex <= copy.args.lastIncludeIndex
    ensures SettledBy(s'.hist, s'.hist.full[v], s'.nodes[v].commitIndex, p) && p.term <= s'.nodes[v].currentTerm
  {
    var h := s.hist;
    InstallFrame(s, s', v, copy);
    p :| SettledBy(h, h.led[copy.args.term].log, copy.args.lastIncludeIndex, p) && p.term <= copy.args.term;
    assert SettledBy(s'.hist, s'.hist.full[v], s'.nodes[v].commitIndex, p);
  }

  lemma InstallBelief(s: Sys, s': Sys, v: nat, copy: SnapshotMsg)
    requires E.Elections(s) && Logs(s) && Commits(s) && InstallMove(s, s', v, copy) && Moved(s, s', v)
    ensures PeerCommitOk(s'.nodes[v], s'.hist.full[v], s'.hist)
  {
    var n := s.nodes[v];
    assert PeerCommitOk(n, s.hist.full[v], s.hist);
    if n.commitIndex > copy.args.lastIncludeIndex {
      var p := InstallOldBelief(s, s', v, copy);
    } else {
      var p := InstallNewBelief(s, s', v, copy);
    }
    InstallFrame(s, s', v, copy);
  }

  lemma InstallBoundary(s: Sys, s': Sys, v: nat, copy: SnapshotMsg)
    requires E.Elections(s) && Logs(s) && Commits(s) && InstallMove(s, s', v, copy) && Moved(s, s', v)
    ensures BoundaryOk(s'.nodes, s'.hist, v)
  {
    InstallFrame(s, s', v, copy);
  }

  lemma InstallStep(s: Sys, s': Sys, v: nat, copy: SnapshotMsg)
    requires E.Elections(s) && Logs(s) && Commits(s) && InstallMove(s, s', v, copy)
    ensures Commits(s')
  {
    InstallFrame(s, s', v, copy);
    CompleteStays(s, s'.hist);
    InstallRetained(s, s', v, copy);
    VotesSafeStay(s, s'.hist);
    forall t ensures SelfAck(s'.hist, t) { assert SelfAck(s.hist, t); }
    CommitsStay(s.nodes, s.hist, s'.hist);
    InstallBelief(s, s', v, copy);
    InstallBoundary(s, s', v, copy);
    Assemble(s, s', v);
  }

  lemma InstallCommits(s: Sys, v: nat, copy: SnapshotMsg)
    requires E.Elections(s) && Logs(s) && Commits(s) && Enabled(s, GetSnapshot(v, copy))
    requires Installs(s.nodes[v], copy.args)
    ensures Commits(AfterSnapshot(s, v, copy))
  {
    E.CalmInstall(s.nodes[v], copy.args);
    InstallStep(s, AfterSnapshot(s, v, copy), v, copy);
  }

  lemma IgnoreCommits(s: Sys, v: nat, copy: SnapshotMsg)
    requires E.Elections(s) && Logs(s) && Commits(s) && Enabled(s, GetSnapshot(v, copy))
    requires !Installs(s.nodes[v], copy.args)
    ensures Commits(AfterSnapshot(s, v, copy))
  {
    var s' := AfterSnapshot(s, v, copy);
    E.CalmInstall(s.nodes[v], copy.args);
    assert PeerCommitOk(s.nodes[v], s.hist.full[v], s.hist);
    BelieveLess(s.nodes[v], s'.nodes[v], s.hist.full[v], s.hist);
    QuietCommit(s, s', v);
  }

  // ---------- every step ----------

  lemma LocalStep(s: Sys, v: nat, x: Node, emitted: set<(nat, Bytes)>)
    requires E.Elections(s) && Logs(s) && Commits(s) && v < |s.nodes| && E.Calm(s.nodes[v], x)
    requires x.lastIncludeIndex >= s.nodes[v].lastIncludeIndex
    requires PeerCommitOk(x, s.hist.full[v], s.hist) && EmittedOk(s.hist, emitted)
    ensures Commits(s.(nodes := s.nodes[v := x], hist := s.hist.(emitted := emitted)))
  {
    var s' := s.(nodes := s.nodes[v := x], hist := s.hist.(emitted := emitted));
    EmittedStays(s.nodes, s.hist, s'.hist, emitted);
    QuietCommit(s, s', v);
  }

  lemma ReplyBelief(nodes: seq<Node>, n: Node, full: seq<Entry>, h: Hist, ack: AppendAck)
    requires S.WellFormed(n) && PeerCommitOk(n, full, h) && ack.from < n.peers && AnswerOk(nodes, h, ack)
    requires ack.args.leader < |nodes| && nodes[ack.args.leader] == n
    ensures PeerCommitOk(S.AppendReplied(n, ack.from, ack.args, ack.reply), full, h)
  {
    MatchAfterReply(nodes, n, h, ack);
    BelieveLess(n, S.AppendReplied(n, ack.from, ack.args, ack.reply), full, h);
  }

  /** Setting `matchIndex` to the snapshot index on an InstallSnapshot reply claims nothing above it. */
  lemma SnapshotReplyBelief(n: Node, full: seq<Entry>, h: Hist, from: nat, term: nat, replyTerm: nat)
    requires S.WellFormed(n) && PeerCommitOk(n, full, h) && from < n.peers
    ensures PeerCommitOk(S.SnapshotReplied(n, from, term, replyTerm), full, h)
  {
    BelieveLess(n, S.SnapshotReplied(n, from, term, replyTerm), full, h);
  }

  lemma CompactBelief(n: Node, full: seq<Entry>, h: Hist, index: nat, data: Bytes)
    requires S.WellFormed(n) && index <= S.LastIndex(n) && index <= n.lastApplied && PeerCommitOk(n, full, h)
    ensures PeerCommitOk(S.TakeSnapshot(n, index, data), full, h)
  {
    MatchAfterCompact(n, h, index, data);
    BeliefAfterCompact(n, full, h, index, data);
  }

  lemma LocalBelief(s: Sys, a: Action)
    requires Logs(s) && Commits(s) && Enabled(s, a)
    requires IsLocal(a)
    ensures PeerCommitOk(LocalMove(s, a).0, s.hist.full[a.v], s.hist)
  {
    var n, full, h := s.nodes[a.v], s.hist.full[a.v], s.hist;
    assert PeerLogOk(n, full, h.base[a.v], h) && PeerCommitOk(n, full, h);
    match a
    case GetAppendReply(v, ack) =>
      assert AnswerOk(s.nodes, h, ack);
      ReplyBelief(s.nodes, n, full, h, ack);
    case GetSnapshotReply(v, from, term, replyTerm) => SnapshotReplyBelief(n, full, h, from, term, replyTerm);
    case Compact(v, index, data) => CompactBelief(n, full, h, index, data);
    case ApplyCommitted(v) => BeliefAfterApply(n, full, h);
    case Crash(v) => BeliefAfterCrash(n, full, h);
  }

  lemma LocalEmitted(s: Sys, a: Action)
    requires Logs(s) && Commits(s) && Enabled(s, a)
    requires IsLocal(a)
    ensures EmittedOk(s.hist, LocalMove(s, a).1)
  {
    var n, full, h := s.nodes[a.v], s.hist.full[a.v], s.hist;
    assert PeerLogOk(n, full, h.base[a.v], h) && PeerCommitOk(n, full, h);
    forall e | e in LocalMove(s, a).1
      ensures exists p :: EmittedBy(h, e, p)
    {
      if e !in h.emitted { ApplyEmitsCommitted(n, full, h, e); }
    }
  }

  lemma LocalCommits(s: Sys, a: Action)
    requires E.Elections(s) && Logs(s) && Commits(s) && Enabled(s, a)
    requires IsLocal(a)
    ensures Commits(Next(s, a))
  {
    assert PeerLogOk(s.nodes[a.v], s.hist.full[a.v], s.hist.base[a.v], s.hist);
    LocalMoveHolds(s, a, s.hist.full[a.v]);
    LocalBelief(s, a);
    LocalEmitted(s, a);
    LocalStep(s, a.v, LocalMove(s, a).0, LocalMove(s, a).1);
  }

  /** The one thing asked of the network: an accepted AppendEntries is fresh. */
  ghost predicate Fresh(s: Sys, a: Action) {
    Enabled(s, a) && (a.GetAppend? && S.AppendEntries(s.nodes[a.v], a.msg.args).1.success ==>
      FreshFor(s.hist.acked[a.v], a.msg.args))
  }

  lemma AppendCommits(s: Sys, v: nat, msg: AppendMsg)
    requires E.Elections(s) && Logs(s) && Commits(s) && Fresh(s, GetAppend(v, msg))
    ensures Commits(AfterAppend(s, v, msg))
  {
    if S.AppendEntries(s.nodes[v], msg.args).1.success { AcceptCommits(s, v, msg); } else { RejectCommits(s, v, msg); }
  }

  lemma SnapshotCommits(s: Sys, v: nat, copy: SnapshotMsg)
    requires E.Elections(s) && Logs(s) && Commits(s) && Enabled(s, GetSnapshot(v, copy))
    ensures Commits(AfterSnapshot(s, v, copy))
  {
    if Installs(s.nodes[v], copy.args) { InstallCommits(s, v, copy); } else { IgnoreCommits(s, v, copy); }
  }

  lemma CommitsKept(s: Sys, a: Action)
    requires E.Elections(s) && Logs(s) && Commits(s) && Fresh(s, a)
    ensures Commits(Next(s, a)) && ElectsWhole(s, a)
  {
    match a
    case Campaign(v) => CampaignCommits(s, v);
    case GetVoteRequest(v, request) => VoteRequestCommits(s, v, request);
    case GetVoteReply(v, vote) =>
      VoteReplyCommits(s, v, vote);
      VoteReplyElectsWhole(s, v, vote);
    case Propose(v, command) => ProposeCommits(s, v, command);
    case Send(v, server) => SendCommits(s, v, server);
    case GetAppend(v, msg) => AppendCommits(s, v, msg);
    case GetSnapshot(v, copy) => SnapshotCommits(s, v, copy);
    case _ => LocalCommits(s, a);
  }
}
