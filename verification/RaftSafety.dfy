/** What holds over whole runs of a cluster, in terms of what the peers themselves hold. */
module RaftSafety {
  import opened RaftTypes
  import opened RaftSystem
  import S = RaftStep
  import E = RaftElection
  import opened L = RaftLog
  import opened C = RaftCommit
  import opened A = RaftAccept
  import P = RaftShape

  datatype Run = Run(states: seq<Sys>, actions: seq<Action>)

  ghost predicate StepAt(r: Run, i: nat) {
    && i < |r.actions| && i + 1 < |r.states|
    && Enabled(r.states[i], r.actions[i]) && r.states[i + 1] == Next(r.states[i], r.actions[i])
  }

  /** A run from the start: any enabled step, in any order, with any message lost, late or repeated. */
  ghost predicate IsRun(r: Run) {
    && |r.states| == |r.actions| + 1 && Init(r.states[0])
    && forall i: nat {:trigger StepAt(r, i)} :: i < |r.actions| ==> StepAt(r, i)
  }

  /** A run in which every installed snapshot fits the log it is installed on. */
  ghost predicate IsFittingRun(r: Run) {
    IsRun(r) && forall i :: 0 <= i < |r.actions| ==> Fitting(r.states[i], r.actions[i])
  }

  /** A run in which every accepted AppendEntries is fresh. */
  ghost predicate IsFreshRun(r: Run) {
    IsRun(r) && forall i :: 0 <= i < |r.actions| ==> Fresh(r.states[i], r.actions[i])
  }

  /** A run in which each peer handles a leader's AppendEntries of a term in the order they were built. */
  ghost predicate IsOrderedRun(r: Run) {
    IsRun(r) && forall i :: 0 <= i < |r.actions| ==> InOrder(r.states[i], r.actions[i])
  }

  // ---------- every state of a run ----------

  lemma {:induction false} RunSound(r: Run, i: nat)
    requires IsRun(r) && i < |r.states|
    ensures P.Shapes(r.states[i]) && E.Elections(r.states[i])
  {
    if i == 0 {
      P.ShapesAtStart(r.states[0]);
      E.ElectionsAtStart(r.states[0]);
    } else {
      RunSound(r, i - 1);
      assert StepAt(r, i - 1);
      SoundStep(r.states[i - 1], r.actions[i - 1]);
    }
  }

  lemma SoundStep(s: Sys, a: Action)
    requires P.Shapes(s) && E.Elections(s) && Enabled(s, a)
    ensures P.Shapes(Next(s, a)) && E.Elections(Next(s, a))
  {
    assert P.NodeOk(s.nodes[a.v]);
    P.ShapesKept(s, a);
    E.ElectionsKept(s, a);
  }

  lemma {:induction false} RunWhole(r: Run, i: nat)
    requires IsFittingRun(r) && i < |r.states|
    ensures Logs(r.states[i]) && Whole(r.states[i].hist)
  {
    if i == 0 {
      LogsAtStart(r.states[0]);
    } else {
      RunWhole(r, i - 1);
      RunSound(r, i - 1);
      assert StepAt(r, i - 1);
      LogsKept(r.states[i - 1], r.actions[i - 1]);
      WholeKept(r.states[i - 1], r.actions[i - 1]);
    }
  }

  /** The invariants of fresh runs, together. */
  ghost predicate Safe(s: Sys) {
    E.Elections(s) && Logs(s) && Commits(s)
  }

  lemma SafeAtStart(s: Sys)
    requires Init(s)
    ensures Safe(s)
  {
    E.ElectionsAtStart(s);
    LogsAtStart(s);
    CommitsAtStart(s);
  }

  lemma SafeStep(s: Sys, a: Action)
    requires Safe(s) && Fresh(s, a) && S.Synced(s.nodes[a.v])
    ensures Safe(Next(s, a)) && Grows(s.hist.led, Next(s, a).hist.led)
  {
    CommitsKept(s, a);
    LogsKept(s, a);
    E.ElectionsKept(s, a);
  }

  lemma {:induction false} RunSafe(r: Run, i: nat)
    requires IsFreshRun(r) && i < |r.states|
    ensures Safe(r.states[i])
  {
    if i == 0 {
      SafeAtStart(r.states[0]);
    } else {
      RunSafe(r, i - 1);
      RunSafeStep(r, i - 1);
    }
  }

  lemma RunSafeStep(r: Run, i: nat)
    requires IsFreshRun(r) && i < |r.actions| && Safe(r.states[i])
    ensures Safe(r.states[i + 1]) && Grows(r.states[i].hist.led, r.states[i + 1].hist.led)
  {
    RunSound(r, i);
    assert StepAt(r, i) && Fresh(r.states[i], r.actions[i]);
    assert P.NodeOk(r.states[i].nodes[r.actions[i].v]);
    SafeStep(r.states[i], r.actions[i]);
  }

  /** What is on record at one time is on record later. */
  ghost predicate Recorded(s: Sys, s': Sys) {
    && |s.nodes| == |s'.nodes|
    && Grows(s.hist.led, s'.hist.led)
    && (forall p :: p in s.hist.committed ==> p in s'.hist.committed)
    && s.hist.emitted <= s'.hist.emitted
  }

  lemma StepRecorded(s: Sys, a: Action)
    requires Enabled(s, a) && Grows(s.hist.led, Next(s, a).hist.led)
    ensures Recorded(s, Next(s, a))
  {
    P.OthersStay(s, a);
    match a
    case Send(v, server) => SendRecords(s, v, server);
    case ApplyCommitted(v) => assert s.hist.emitted <= AfterApply(s, v).hist.emitted;
    case _ => NothingRecorded(s, a);
  }

  lemma NothingRecorded(s: Sys, a: Action)
    requires Enabled(s, a) && !a.Send? && !a.ApplyCommitted?
    ensures Next(s, a).hist.committed == s.hist.committed && Next(s, a).hist.emitted == s.hist.emitted
  {
  }

  lemma SendRecords(s: Sys, v: nat, server: nat)
    requires Enabled(s, Send(v, server))
    ensures forall p :: p in s.hist.committed ==> p in AfterSend(s, v, server).hist.committed
    ensures AfterSend(s, v, server).hist.emitted == s.hist.emitted
  {
  }

  lemma RunStepRecorded(r: Run, i: nat)
    requires IsFreshRun(r) && i < |r.actions|
    ensures Recorded(r.states[i], r.states[i + 1])
  {
    RunSafe(r, i);
    RunSafeStep(r, i);
    assert StepAt(r, i);
    StepRecorded(r.states[i], r.actions[i]);
  }

  lemma {:induction false} RunRecorded(r: Run, i: nat, j: nat)
    requires IsFreshRun(r) && i <= j < |r.states|
    ensures Recorded(r.states[i], r.states[j])
    decreases j
  {
    if i == j {
      RecordedReflexive(r.states[i]);
    } else {
      RunRecorded(r, i, j - 1);
      RunStepRecorded(r, j - 1);
      RecordedTransitive(r.states[i], r.states[j - 1], r.states[j]);
    }
  }

  lemma RecordedReflexive(s: Sys)
    ensures Recorded(s, s)
  {
  }

  lemma RecordedTransitive(a: Sys, b: Sys, c: Sys)
    requires Recorded(a, b) && Recorded(b, c)
    ensures Recorded(a, c)
  {
  }

  /** Peer `v`'s log as if nothing had been dropped into a snapshot. */
  ghost function HistoryLog(s: Sys, v: nat): seq<Entry> {
    if v < |s.hist.full| then s.hist.full[v] else []
  }

  // ---------- Election Safety ----------

  /** Who led a term is never forgotten. */
  ghost predicate SameLeaders(s: Sys, s': Sys) {
    forall t :: t in s.hist.led ==> t in s'.hist.led && s'.hist.led[t].leader == s.hist.led[t].leader
  }

  lemma LeadersStay(s: Sys, a: Action)
    requires E.Elections(s) && Enabled(s, a)
    ensures SameLeaders(s, Next(s, a))
  {
    if a.GetVoteReply? && Counts(s.nodes[a.v], a.vote) { E.CountedReplyKeeps(s, a.v, a.vote); }
  }

  lemma RunLeadersStep(r: Run, i: nat)
    requires IsRun(r) && i < |r.actions|
    ensures SameLeaders(r.states[i], r.states[i + 1])
  {
    RunSound(r, i);
    assert StepAt(r, i);
    LeadersStay(r.states[i], r.actions[i]);
  }

  lemma {:induction false} RunLeaders(r: Run, i: nat, j: nat)
    requires IsRun(r) && i <= j < |r.states|
    ensures SameLeaders(r.states[i], r.states[j])
    decreases j
  {
    if i < j {
      RunLeaders(r, i, j - 1);
      RunLeadersStep(r, j - 1);
    }
  }

  /** At most one peer leads in a term, whenever in the run and whatever crashed in between. */
  lemma ElectionSafety(r: Run, i: nat, j: nat, u: nat, v: nat)
    requires IsRun(r) && i <= j < |r.states| && u < |r.states[i].nodes| && v < |r.states[j].nodes|
    requires r.states[i].nodes[u].role == Leader && r.states[j].nodes[v].role == Leader
    requires r.states[i].nodes[u].currentTerm == r.states[j].nodes[v].currentTerm
    ensures u == v
  {
    RunSound(r, i);
    RunSound(r, j);
    RunLeaders(r, i, j);
    assert E.PeerOk(r.states[i], u) && E.PeerOk(r.states[j], v);
  }

  // ---------- Log Matching ----------

  predicate Retains(n: Node, i: nat) {
    n.lastIncludeIndex <= i < n.lastIncludeIndex + |n.log|
  }

  function EntryAt(n: Node, i: nat): Entry
    requires Retains(n, i)
  {
    n.log[i - n.lastIncludeIndex]
  }

  /** Two logs with the same term at an index agree on everything both still retain before it: terms at a
      snapshot boundary, whole entries after it. The network may do what it likes, as long as every snapshot installed
      fits. */
  lemma LogMatching(r: Run, k: nat, u: nat, v: nat, i: nat, j: nat)
    requires IsFittingRun(r) && k < |r.states| && u < |r.states[k].nodes| && v < |r.states[k].nodes|
    requires var a, b := r.states[k].nodes[u], r.states[k].nodes[v];
      && Retains(a, i) && Retains(b, i) && EntryAt(a, i).term == EntryAt(b, i).term
      && j <= i && Retains(a, j) && Retains(b, j)
    ensures var a, b := r.states[k].nodes[u], r.states[k].nodes[v];
      && EntryAt(a, j).term == EntryAt(b, j).term && EntryAt(a, j).index == EntryAt(b, j).index == j
      && (a.lastIncludeIndex < j && b.lastIncludeIndex < j ==> EntryAt(a, j) == EntryAt(b, j))
  {
    RunWhole(r, k);
    var s := r.states[k];
    assert PeerLogOk(s.nodes[u], s.hist.full[u], s.hist.base[u], s.hist);
    assert PeerLogOk(s.nodes[v], s.hist.full[v], s.hist.base[v], s.hist);
    SameTermSamePrefix(s.hist.full[u], s.hist.full[v], s.hist.led, i);
  }

  /** Every log starts at its snapshot boundary, is numbered without a gap and is saved, whatever arrives; with
      fresh messages the indices are ordered too, so no slice is ever out of range. */
  lemma LogShapeInEveryState(r: Run, k: nat, v: nat)
    requires IsRun(r) && k < |r.states| && v < |r.states[k].nodes|
    ensures S.LogShape(r.states[k].nodes[v]) && S.Synced(r.states[k].nodes[v])
    ensures IsFreshRun(r) ==>
      var n := r.states[k].nodes[v];
      n.lastIncludeIndex <= n.lastApplied <= n.commitIndex <= S.LastIndex(n)
  {
    RunSound(r, k);
    var s := r.states[k];
    assert P.NodeOk(s.nodes[v]);
    if IsFreshRun(r) {
      RunSafe(r, k);
      assert PeerLogOk(s.nodes[v], s.hist.full[v], s.hist.base[v], s.hist);
      assert PeerCommitOk(s.nodes[v], s.hist.full[v], s.hist);
    }
  }

  // ---------- Leader Completeness ----------

  /** The committed position behind what a peer believes. */
  lemma SettledOnMajority(s: Sys, v: nat, N: nat) returns (p: Pos)
    requires Safe(s) && v < |s.nodes| && 1 <= N <= s.nodes[v].commitIndex
    ensures p in s.hist.committed && N <= p.index && p.term in s.hist.led && p.term <= s.nodes[v].currentTerm
    ensures Agree(s.hist.full[v], s.hist.led[p.term].log, N + 1)
  {
    assert PeerCommitOk(s.nodes[v], s.hist.full[v], s.hist);
    p :| SettledBy(s.hist, s.hist.full[v], s.nodes[v].commitIndex, p) && p.term <= s.nodes[v].currentTerm;
  }

  lemma LeaderHasCommitted(s: Sys, v: nat, p: Pos)
    requires Safe(s) && v < |s.nodes| && s.nodes[v].role == Leader
    requires p in s.hist.committed && p.term <= s.nodes[v].currentTerm
    ensures p.term in s.hist.led && Agree(s.hist.full[v], s.hist.led[p.term].log, p.index + 1)
    ensures p.index <= S.LastIndex(s.nodes[v])
  {
    assert PeerLogOk(s.nodes[v], s.hist.full[v], s.hist.base[v], s.hist) && CommitOk(|s.nodes|, s.hist, p);
    if p.term < s.nodes[v].currentTerm { LeaderCompleteness(s, p, s.nodes[v].currentTerm); }
  }

  lemma LeaderHas(s: Sys, s': Sys, u: nat, v: nat, N: nat)
    requires Safe(s) && Safe(s') && Recorded(s, s') && u < |s.nodes| && v < |s'.nodes|
    requires 1 <= N <= s.nodes[u].commitIndex && s'.nodes[v].role == Leader
    requires s'.nodes[v].currentTerm >= s.nodes[u].currentTerm
    ensures Agree(s'.hist.full[v], s.hist.full[u], N + 1) && N <= S.LastIndex(s'.nodes[v])
  {
    var p := SettledOnMajority(s, u, N);
    LeaderHasCommitted(s', v, p);
  }

  /** What a peer believes committed at one time is in the log of every leader of its term or a later one
      from then on. */
  lemma LeadersHaveCommitted(r: Run, i: nat, j: nat, u: nat, v: nat, N: nat)
    requires IsFreshRun(r) && i <= j < |r.states| && u < |r.states[i].nodes| && v < |r.states[j].nodes|
    requires 1 <= N <= r.states[i].nodes[u].commitIndex
    requires r.states[j].nodes[v].role == Leader
    requires r.states[j].nodes[v].currentTerm >= r.states[i].nodes[u].currentTerm
    ensures N < r.states[j].nodes[v].lastIncludeIndex + |r.states[j].nodes[v].log|
    ensures Agree(HistoryLog(r.states[j], v), HistoryLog(r.states[i], u), N + 1)
  {
    RunSafe(r, i); RunSafe(r, j); RunRecorded(r, i, j);
    LeaderHas(r.states[i], r.states[j], u, v, N);
  }

  /** What a peer's base agrees on with a log in which it is committed, its own log does too. */
  lemma WholeThrough(s: Sys, q: nat, p: Pos)
    requires Safe(s) && q < |s.nodes| && p in s.hist.committed && p.term in s.hist.led
    requires Agree(s.hist.base[q], s.hist.led[p.term].log, p.index + 1)
    ensures Agree(s.hist.full[q], s.hist.led[p.term].log, p.index + 1)
  {
    var n, full, h := s.nodes[q], s.hist.full[q], s.hist;
    assert PeerLogOk(n, full, h.base[q], h) && PeerCommitOk(n, full, h) && LedLogOk(h.led, p.term);
    if n.commitIndex > 0 {
      var p' :| SettledBy(h, full, n.commitIndex, p');
      CommittedAgree(s, p, p', Min(p.index, n.commitIndex));
    }
  }

  /** A committed entry stays stored, with all before it, on the majority that acknowledged it. */
  lemma CommittedStaysStored(r: Run, i: nat, p: Pos, q: nat)
    requires IsFreshRun(r) && i < |r.states| && p in r.states[i].hist.committed && q in r.states[i].hist.committed[p]
    ensures var s := r.states[i];
      && s.hist.committed[p] <= Ids(|s.nodes|) && |s.hist.committed[p]| > |s.nodes| / 2
      && p.term in s.hist.led && q < |s.nodes| && p.index < s.nodes[q].lastIncludeIndex + |s.nodes[q].log|
      && Agree(HistoryLog(s, q), s.hist.led[p.term].log, p.index + 1)
  {
    var s := r.states[i];
    RunSafe(r, i);
    assert CommitOk(|s.nodes|, s.hist, p);
    NotDead(s, p);
    assert q in Ids(|s.nodes|);
    assert RetainedAt(s.hist, q, p.term, p.index);
    WholeThrough(s, q, p);
    assert PeerLogOk(s.nodes[q], s.hist.full[q], s.hist.base[q], s.hist);
  }

  /** What any peer considers committed is stored, with everything before it, on a majority: raising
      `matchIndex` without an acknowledgement never counts a peer that does not have the entry. */
  lemma CommittedIsOnMajority(r: Run, i: nat, v: nat, N: nat) returns (quorum: set<nat>)
    requires IsFreshRun(r) && i < |r.states| && v < |r.states[i].nodes| && 1 <= N <= r.states[i].nodes[v].commitIndex
    ensures quorum <= Ids(|r.states[i].nodes|) && |quorum| > |r.states[i].nodes| / 2
    ensures forall q :: q in quorum ==>
      && q < |r.states[i].nodes| && N < r.states[i].nodes[q].lastIncludeIndex + |r.states[i].nodes[q].log|
      && Agree(HistoryLog(r.states[i], q), HistoryLog(r.states[i], v), N + 1)
  {
    var s := r.states[i];
    RunSafe(r, i);
    var p := SettledOnMajority(s, v, N);
    assert CommitOk(|s.nodes|, s.hist, p);
    quorum := s.hist.committed[p];
    forall q | q in quorum
      ensures q < |s.nodes| && N < s.nodes[q].lastIncludeIndex + |s.nodes[q].log|
      ensures Agree(HistoryLog(s, q), HistoryLog(s, v), N + 1)
    {
      CommittedStaysStored(r, i, p, q);
      AgreeThrough(HistoryLog(s, q), s.hist.led[p.term].log, HistoryLog(s, v), p.index + 1, N + 1);
    }
  }

  lemma AgreeThrough(a: seq<Entry>, b: seq<Entry>, c: seq<Entry>, k: nat, m: nat)
    requires Agree(a, b, k) && Agree(c, b, m) && m <= k
    ensures Agree(a, c, m)
  {
  }

  /** No message announces a commit beyond its own last entry, so a follower never moves its commit index
      past what the message verified. */
  lemma AnnouncedCommitIsVerified(r: Run, i: nat, m: AppendMsg, v: nat)
    requires IsFreshRun(r) && i < |r.states| && m in r.states[i].net.appends && v < |r.states[i].nodes|
    requires |r.states[i].nodes[v].log| > 0
    ensures m.args.leaderCommit <= m.args.prevLogIndex + |m.args.entries|
    ensures var n, x := r.states[i].nodes[v], S.AppendEntries(r.states[i].nodes[v], m.args).0;
      x.commitIndex > n.commitIndex ==> x.commitIndex <= m.args.prevLogIndex + |m.args.entries|
  {
    RunSafe(r, i);
    assert NewsOk(r.states[i].hist, m.args);
  }

  // ---------- what InstallSnapshot leaves of Log Matching ----------

  /** A leader's log and the log of a peer of no later term agree through any index, not below the peer's
      boundary, at which their terms do. */
  lemma LeaderMatches(s: Sys, u: nat, v: nat, i: nat)
    requires Safe(s) && u < |s.nodes| && v < |s.nodes|
    requires s.nodes[v].role == Leader && s.nodes[u].currentTerm <= s.nodes[v].currentTerm
    requires s.nodes[u].lastIncludeIndex <= i < |s.hist.full[u]| && i < |s.hist.full[v]|
    requires s.hist.full[u][i].term == s.hist.full[v][i].term
    ensures Agree(s.hist.full[u], s.hist.full[v], i + 1)
  {
    var n, h := s.nodes[u], s.hist;
    assert PeerLogOk(n, h.full[u], h.base[u], h) && PeerCommitOk(n, h.full[u], h);
    assert PeerLogOk(s.nodes[v], h.full[v], h.base[v], h);
    CommittedMeetsLeader(s, u, s.nodes[v].currentTerm);
    if i > n.lastIncludeIndex { SameTermSamePrefix(h.base[u], h.full[v], h.led, i); }
  }

  /** Snapshots may break Log Matching between two followers, but never between a leader and a peer of its term
      or an earlier one. */
  lemma LeaderLogMatching(r: Run, k: nat, u: nat, v: nat, i: nat, j: nat)
    requires IsFreshRun(r) && k < |r.states| && u < |r.states[k].nodes| && v < |r.states[k].nodes|
    requires var a, b := r.states[k].nodes[u], r.states[k].nodes[v];
      && b.role == Leader && a.currentTerm <= b.currentTerm
      && Retains(a, i) && Retains(b, i) && EntryAt(a, i).term == EntryAt(b, i).term
      && j <= i && Retains(a, j) && Retains(b, j)
    ensures var a, b := r.states[k].nodes[u], r.states[k].nodes[v];
      && EntryAt(a, j).term == EntryAt(b, j).term
      && (a.lastIncludeIndex < j && b.lastIncludeIndex < j ==> EntryAt(a, j) == EntryAt(b, j))
  {
    RunSafe(r, k);
    LeaderMatchesAt(r.states[k], u, v, i, j);
  }

  lemma LeaderMatchesAt(s: Sys, u: nat, v: nat, i: nat, j: nat)
    requires Safe(s) && u < |s.nodes| && v < |s.nodes| && j <= i
    requires s.nodes[v].role == Leader && s.nodes[u].currentTerm <= s.nodes[v].currentTerm
    requires Retains(s.nodes[u], i) && Retains(s.nodes[v], i) && Retains(s.nodes[u], j) && Retains(s.nodes[v], j)
    requires EntryAt(s.nodes[u], i).term == EntryAt(s.nodes[v], i).term
    ensures EntryAt(s.nodes[u], j).term == EntryAt(s.nodes[v], j).term
    ensures s.nodes[u].lastIncludeIndex < j && s.nodes[v].lastIncludeIndex < j ==>
      EntryAt(s.nodes[u], j) == EntryAt(s.nodes[v], j)
  {
    assert PeerLogOk(s.nodes[u], s.hist.full[u], s.hist.base[u], s.hist);
    assert PeerLogOk(s.nodes[v], s.hist.full[v], s.hist.base[v], s.hist);
    LeaderMatches(s, u, v, i);
  }

  // ---------- State Machine Safety ----------

  lemma BothSettled(s: Sys, s': Sys, u: nat, v: nat, N: nat)
    requires Safe(s) && Safe(s') && Recorded(s, s') && u < |s.nodes| && v < |s'.nodes|
    requires N <= s.nodes[u].commitIndex && N <= s'.nodes[v].commitIndex
    ensures Agree(s.hist.full[u], s'.hist.full[v], N + 1)
  {
    if N > 0 {
      var p := SettledOnMajority(s, u, N);
      var q := SettledOnMajority(s', v, N);
      CommittedAgree(s', p, q, N);
    } else {
      assert PeerLogOk(s.nodes[u], s.hist.full[u], s.hist.base[u], s.hist);
      assert PeerLogOk(s'.nodes[v], s'.hist.full[v], s'.hist.base[v], s'.hist);
    }
  }

  /** Above its boundary a peer's log is its history log. */
  lemma RetainedEntry(s: Sys, v: nat, N: nat)
    requires Logs(s) && v < |s.nodes| && s.nodes[v].lastIncludeIndex < N < |s.hist.full[v]|
    ensures Retains(s.nodes[v], N) && EntryAt(s.nodes[v], N) == s.hist.full[v][N]
  {
    assert PeerLogOk(s.nodes[v], s.hist.full[v], s.hist.base[v], s.hist);
  }

  /** Two peers that consider an index committed, each at its own time, hold the same log through it. */
  lemma CommittedLogsAgree(r: Run, i: nat, j: nat, u: nat, v: nat, N: nat)
    requires IsFreshRun(r) && i <= j < |r.states| && u < |r.states[i].nodes| && v < |r.states[j].nodes|
    requires N <= r.states[i].nodes[u].commitIndex && N <= r.states[j].nodes[v].commitIndex
    ensures Agree(HistoryLog(r.states[i], u), HistoryLog(r.states[j], v), N + 1)
    ensures var a, b := r.states[i].nodes[u], r.states[j].nodes[v];
      a.lastIncludeIndex < N && b.lastIncludeIndex < N ==>
        Retains(a, N) && Retains(b, N) && EntryAt(a, N) == EntryAt(b, N)
  {
    var s, s' := r.states[i], r.states[j];
    RunSafe(r, i); RunSafe(r, j); RunRecorded(r, i, j);
    BothSettled(s, s', u, v, N);
    if s.nodes[u].lastIncludeIndex < N && s'.nodes[v].lastIncludeIndex < N {
      RetainedEntry(s, u, N);
      RetainedEntry(s', v, N);
    }
  }

  /** No two state machines, in any incarnation of any peer, are ever given different commands for one index. */
  lemma StateMachineSafety(r: Run, i: nat, index: nat, c: Bytes, d: Bytes)
    requires IsFreshRun(r) && i < |r.states|
    requires (index, c) in r.states[i].hist.emitted && (index, d) in r.states[i].hist.emitted
    ensures c == d
  {
    var s := r.states[i];
    RunSafe(r, i);
    var p :| EmittedBy(s.hist, (index, c), p);
    var q :| EmittedBy(s.hist, (index, d), q);
    CommittedAgree(s, p, q, index);
  }

  // ---------- the ordering assumption ----------

  /** The handled message was built after every message of its leader and term handled here before. */
  ghost predicate InOrder(s: Sys, a: Action) {
    Enabled(s, a) && (a.GetAppend? ==>
      var seen, args := s.hist.seen[a.v], a.msg.args;
      args.term !in seen || seen[args.term] < a.msg.stamp)
  }

  /** Later messages of a term end no earlier, and those still due at `m.to` cover what it acknowledged. */
  ghost predicate DueOk(h: Hist, m: AppendMsg) {
    && m.stamp < h.built && m.to < |h.acked| == |h.seen| && m.to != m.args.leader
    && (m.args.term !in h.seen[m.to] || h.seen[m.to][m.args.term] < m.stamp ==>
          m.args.term !in h.acked[m.to] || h.acked[m.to][m.args.term] <= LastOfMsg(m.args))
  }

  ghost predicate Dues(s: Sys) {
    && (forall m {:trigger DueOk(s.hist, m)} :: m in s.net.appends ==> DueOk(s.hist, m))
    && (forall m, m' ::
          m in s.net.appends && m' in s.net.appends && m.args.term == m'.args.term && m.stamp <= m'.stamp ==>
          LastOfMsg(m.args) <= LastOfMsg(m'.args))
  }

  lemma DuesAtStart(s: Sys)
    requires Init(s)
    ensures Dues(s)
  {
  }

  /** In order means fresh. */
  lemma InOrderIsFresh(s: Sys, a: Action)
    requires Dues(s) && InOrder(s, a)
    ensures Fresh(s, a)
  {
    if a.GetAppend? { assert DueOk(s.hist, a.msg); }
  }

  /** Nothing due changes when no message is added, handled or overtaken by an acknowledgement. */
  lemma DuesStay(s: Sys, s': Sys)
    requires Dues(s) && s'.net.appends == s.net.appends
    requires s'.hist.built == s.hist.built && s'.hist.seen == s.hist.seen && |s'.hist.acked| == |s.hist.acked|
    requires forall m :: m in s.net.appends ==> m.to < |s.hist.acked| ==>
      (m.args.term in s'.hist.acked[m.to] ==>
        m.args.term in s.hist.acked[m.to] && s'.hist.acked[m.to][m.args.term] == s.hist.acked[m.to][m.args.term])
    ensures Dues(s')
  {
    forall m | m in s'.net.appends
      ensures DueOk(s'.hist, m)
    {
      assert DueOk(s.hist, m);
    }
  }

  /** A leader's own acknowledgements concern no message: it sends none to itself. */
  lemma LeaderAckDues(s: Sys, s': Sys, v: nat, t: nat, value: nat)
    requires Logs(s) && Dues(s) && v < |s.nodes| && s'.net.appends == s.net.appends
    requires s'.hist.built == s.hist.built && s'.hist.seen == s.hist.seen
    requires s'.hist.acked == s.hist.acked[v := Raised(s.hist.acked[v], t, value)]
    requires t in s.hist.led ==> s.hist.led[t].leader == v
    ensures Dues(s')
  {
    forall m | m in s.net.appends
      ensures m.args.term != t || m.to != v
    {
      assert AppendOk(s.hist.led, m) && DueOk(s.hist, m);
    }
    DuesStay(s, s');
  }

  lemma SendDues(s: Sys, v: nat, server: nat)
    requires E.Elections(s) && Logs(s) && Commits(s) && Dues(s) && Enabled(s, Send(v, server))
    ensures Dues(AfterSend(s, v, server))
  {
    var s' := AfterSend(s, v, server);
    var n, h, h' := s.nodes[v], s.hist, s'.hist;
    if n.role == Leader && S.PrepareSend(n, server).1.SendAppend? {
      var m := AppendMsg(server, h.built, S.PrepareSend(n, server).1.append);
      assert PeerLogOk(n, h.full[v], h.base[v], h) && E.PeerOk(s, v) && AckOk(s.nodes, h, server, n.currentTerm);
      SendCarriesSuffix(n, h.full[v], server);
      AddDue(s, s', m, n.currentTerm);
    } else {
      DuesStay(s, s');
    }
  }

  lemma AddDue(s: Sys, s': Sys, m: AppendMsg, t: nat)
    requires Logs(s) && Dues(s) && t in s.hist.led && m.args.term == t
    requires s'.net.appends == s.net.appends + {m} && m.stamp == s.hist.built && s'.hist.built == s.hist.built + 1
    requires s'.hist.seen == s.hist.seen && s'.hist.acked == s.hist.acked
    requires LastOfMsg(m.args) + 1 == |s.hist.led[t].log|
    requires m.to < |s.hist.acked| == |s.hist.seen| && m.to != m.args.leader
    requires t in s.hist.acked[m.to] ==> s.hist.acked[m.to][t] <= LastOfMsg(m.args)
    ensures Dues(s')
  {
    forall k | k in s'.net.appends
      ensures DueOk(s'.hist, k)
    {
      if k in s.net.appends { assert DueOk(s.hist, k); }
    }
    forall k | k in s.net.appends
      ensures k.stamp < m.stamp && (k.args.term == t ==> LastOfMsg(k.args) <= LastOfMsg(m.args))
    {
      assert AppendOk(s.hist.led, k) && DueOk(s.hist, k);
    }
  }

  lemma AppendDues(s: Sys, v: nat, msg: AppendMsg)
    requires Dues(s) && InOrder(s, GetAppend(v, msg))
    ensures Dues(AfterAppend(s, v, msg))
  {
    var s' := AfterAppend(s, v, msg);
    assert DueOk(s.hist, msg);
    forall m | m in s'.net.appends
      ensures DueOk(s'.hist, m)
    {
      assert DueOk(s.hist, m);
    }
  }

  lemma VoteReplyDues(s: Sys, v: nat, vote: VoteMsg)
    requires E.Elections(s) && Logs(s) && Dues(s) && Enabled(s, GetVoteReply(v, vote))
    ensures Dues(AfterVoteReply(s, v, vote))
  {
    var s' := AfterVoteReply(s, v, vote);
    if s'.nodes[v].role == Leader && s.nodes[v].role != Leader {
      E.CountedReplyKeeps(s, v, vote);
      LeaderAckDues(s, s', v, s'.nodes[v].currentTerm, LastOf(s.hist.full[v]));
    } else {
      DuesStay(s, s');
    }
  }

  lemma ProposeDues(s: Sys, v: nat, command: Bytes)
    requires E.Elections(s) && Logs(s) && Dues(s) && Enabled(s, Propose(v, command))
    ensures Dues(AfterPropose(s, v, command))
  {
    var s' := AfterPropose(s, v, command);
    if s.nodes[v].role == Leader {
      assert E.PeerOk(s, v);
      LeaderAckDues(s, s', v, s.nodes[v].currentTerm, LastOf(s'.hist.full[v]));
    } else {
      DuesStay(s, s');
    }
  }

  lemma DuesKept(s: Sys, a: Action)
    requires Safe(s) && Dues(s) && InOrder(s, a)
    ensures Dues(Next(s, a))
  {
    match a
    case GetVoteReply(v, vote) => VoteReplyDues(s, v, vote);
    case Propose(v, command) => ProposeDues(s, v, command);
    case Send(v, server) => SendDues(s, v, server);
    case GetAppend(v, msg) => AppendDues(s, v, msg);
    case _ => DuesStay(s, Next(s, a));
  }

  lemma {:induction false} OrderedUpTo(r: Run, i: nat)
    requires IsOrderedRun(r) && i < |r.states|
    ensures Safe(r.states[i]) && Dues(r.states[i])
  {
    if i == 0 {
      SafeAtStart(r.states[0]);
      DuesAtStart(r.states[0]);
    } else {
      OrderedUpTo(r, i - 1);
      OrderedStep(r, i - 1);
    }
  }

  lemma OrderedStep(r: Run, i: nat)
    requires IsOrderedRun(r) && i < |r.actions| && Safe(r.states[i]) && Dues(r.states[i])
    ensures Safe(r.states[i + 1]) && Dues(r.states[i + 1]) && Fresh(r.states[i], r.actions[i])
  {
    assert StepAt(r, i) && InOrder(r.states[i], r.actions[i]);
    RunSound(r, i);
    assert P.NodeOk(r.states[i].nodes[r.actions[i].v]);
    InOrderIsFresh(r.states[i], r.actions[i]);
    SafeStep(r.states[i], r.actions[i]);
    DuesKept(r.states[i], r.actions[i]);
  }

  /** Per-leader, per-term, per-follower order is enough: every theorem on fresh runs is one on ordered runs. */
  lemma OrderedRunsAreFresh(r: Run)
    requires IsOrderedRun(r)
    ensures IsFreshRun(r)
  {
    forall i | 0 <= i < |r.actions|
      ensures Fresh(r.states[i], r.actions[i])
    {
      OrderedUpTo(r, i);
      OrderedStep(r, i);
    }
  }
}
