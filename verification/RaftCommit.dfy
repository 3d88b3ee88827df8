/** Leader Completeness and State Machine Safety (Raft, section 5.4), for runs in which no AppendEntries
    with entries is delivered to a peer that already acknowledged more of the same leader's log.

    The source cuts a follower's log on every such message, so an entry a peer acknowledged may be lost
    later. The invariants follow, for every entry of every reign, who acknowledged it: either it is
    retained, or it is dead, which means a later leader was elected entirely by peers that had not
    acknowledged it, and so no majority ever will.

    InstallSnapshot is among the steps. It puts a committed prefix before a suffix that may not belong to it,
    so what a peer acknowledged is followed in its `base`, and the log itself only as far as it is committed.
    A peer whose log was changed in this way cannot win an election (WinnerIsWhole). */
module RaftCommit {
  import opened RaftTypes
  import opened RaftSystem
  import S = RaftStep
  import E = RaftElection
  import opened L = RaftLog

  ghost predicate Acked(acked: seq<map<nat, nat>>, q: nat, t: nat, N: nat) {
    q < |acked| && t in acked[q] && acked[q][t] >= N
  }

  /** The voters of term `t'` had not acknowledged entry `N` of term `t`. */
  ghost predicate Skipped(h: Hist, t': nat, t: nat, N: nat) {
    t' in h.led && t < t' && forall q :: q in h.led[t'].voters ==> !Acked(h.acked, q, t, N)
  }

  ghost predicate Dead(h: Hist, t: nat, N: nat) {
    exists t' :: Skipped(h, t', t, N)
  }

  /** Entry `N` was created in term `t`. */
  ghost predicate Own(led: map<nat, Reign>, t: nat, N: nat) {
    t in led && led[t].start <= N < |led[t].log|
  }

  ghost predicate Inherits(led: map<nat, Reign>, t': nat, t: nat, N: nat) {
    t in led && t' in led && N < led[t'].start && Agree(led[t'].log, led[t].log, N + 1)
  }

  ghost predicate CompleteAt(h: Hist, t: nat, t': nat, N: nat) {
    Own(h.led, t, N) && t' in h.led && t < t' ==> Dead(h, t, N) || Inherits(h.led, t', t, N)
  }

  /** A later leader starts with every earlier leader's own entries that are not dead. */
  ghost predicate Complete(h: Hist) {
    forall t, t', N {:trigger CompleteAt(h, t, t', N)} :: CompleteAt(h, t, t', N)
  }

  ghost predicate RetainedAt(h: Hist, q: nat, t: nat, N: nat) {
    q < |h.base| && Own(h.led, t, N) && Acked(h.acked, q, t, N) ==>
      Dead(h, t, N) || Agree(h.base[q], h.led[t].log, N + 1)
  }

  ghost predicate Retained(h: Hist) {
    forall q, t, N {:trigger RetainedAt(h, q, t, N)} :: RetainedAt(h, q, t, N)
  }

  ghost predicate VoteSafeAt(h: Hist, g: Vote, t: nat, N: nat) {
    g in h.granted && t < g.term && Own(h.led, t, N) && Acked(h.acked, g.voter, t, N) ==>
      || Dead(h, t, N)
      || (Candidacy(g.term, g.candidate) in h.candLog
          && Agree(h.candLog[Candidacy(g.term, g.candidate)], h.led[t].log, N + 1))
  }

  /** A vote only goes to a candidate that has what its caster acknowledged. */
  ghost predicate VotesSafe(h: Hist) {
    forall g, t, N {:trigger VoteSafeAt(h, g, t, N)} :: VoteSafeAt(h, g, t, N)
  }

  ghost predicate AckOk(nodes: seq<Node>, h: Hist, q: nat, t: nat) {
    q < |nodes| == |h.acked| && t in h.acked[q] ==>
      t in h.led && h.acked[q][t] < |h.led[t].log| && t <= nodes[q].currentTerm
  }

  ghost predicate AcksOk(nodes: seq<Node>, h: Hist) {
    |h.acked| == |nodes| && forall q, t {:trigger AckOk(nodes, h, q, t)} :: AckOk(nodes, h, q, t)
  }

  /** A leader counts itself for everything in its log. */
  ghost predicate SelfAck(h: Hist, t: nat) {
    t in h.led ==> |h.led[t].log| > 0 && Acked(h.acked, h.led[t].leader, t, |h.led[t].log| - 1)
  }

  ghost predicate SelfAcks(h: Hist) {
    forall t {:trigger SelfAck(h, t)} :: SelfAck(h, t)
  }

  /** A committed entry was acknowledged by a majority in the term that created it. */
  ghost predicate CommitOk(n: nat, h: Hist, p: Pos) {
    p in h.committed ==>
      && Own(h.led, p.term, p.index)
      && h.committed[p] <= Ids(n) && |h.committed[p]| > n / 2
      && forall q :: q in h.committed[p] ==> Acked(h.acked, q, p.term, p.index)
  }

  ghost predicate CommitsOk(n: nat, h: Hist) {
    forall p {:trigger CommitOk(n, h, p)} :: CommitOk(n, h, p)
  }

  /** `log` agrees through `k` with the log in which `p` was committed. */
  ghost predicate SettledBy(h: Hist, log: seq<Entry>, k: nat, p: Pos) {
    p in h.committed && k <= p.index && p.term in h.led && Agree(log, h.led[p.term].log, k + 1)
  }

  /** What a peer believes committed is committed, and no further than it acknowledged this leader or was given
      in a snapshot. */
  ghost predicate BeliefOk(n: Node, full: seq<Entry>, h: Hist) {
    && n.lastIncludeIndex <= n.lastApplied <= n.commitIndex < |full|
    && (n.commitIndex == 0 || exists p ::
          SettledBy(h, full, n.commitIndex, p) && p.term <= n.currentTerm &&
          (p.term == n.currentTerm ==> Sure(n, h)))
  }

  /** Nothing this leader sends in order cuts the log below the commit index. */
  ghost predicate Sure(n: Node, h: Hist) {
    n.commitIndex <= n.lastIncludeIndex || Acked(h.acked, n.me, n.currentTerm, n.commitIndex)
  }

  ghost predicate MatchOk(n: Node, h: Hist) {
    n.role == Leader ==>
      && |n.matchIndex| == n.peers
      && forall j: nat :: j < n.peers && j != n.me && n.matchIndex[j] > n.lastIncludeIndex ==>
           Acked(h.acked, j, n.currentTerm, n.matchIndex[j])
  }

  ghost predicate PeerCommitOk(n: Node, full: seq<Entry>, h: Hist) {
    BeliefOk(n, full, h) && MatchOk(n, h)
  }

  ghost predicate PeerCommitsOk(nodes: seq<Node>, h: Hist) {
    |h.full| == |nodes| && forall v {:trigger PeerCommitOk(nodes[v], h.full[v], h)} ::
      0 <= v < |nodes| ==> PeerCommitOk(nodes[v], h.full[v], h)
  }

  /** The commit index a message carries is covered by the message and was committed. */
  ghost predicate NewsOk(h: Hist, args: AppendArgs) {
    && args.term in h.led && args.leaderCommit <= LastOfMsg(args)
    && (args.leaderCommit == 0 || exists p ::
          SettledBy(h, h.led[args.term].log, args.leaderCommit, p) && p.term <= args.term)
  }

  ghost predicate NewsAllOk(h: Hist, ms: set<AppendMsg>) {
    forall m {:trigger NewsOk(h, m.args)} :: m in ms ==> NewsOk(h, m.args)
  }

  /** A consent is an acknowledgement, or tells the leader no more than that its own snapshot arrived. */
  ghost predicate AnswerOk(nodes: seq<Node>, h: Hist, a: AppendAck) {
    a.reply.success ==>
      || Acked(h.acked, a.from, a.args.term, LastOfMsg(a.args))
      || (a.args.leader < |nodes| && LastOfMsg(a.args) <= nodes[a.args.leader].lastIncludeIndex)
  }

  ghost predicate AnswersOk(nodes: seq<Node>, h: Hist, acks: set<AppendAck>) {
    forall a {:trigger AnswerOk(nodes, h, a)} :: a in acks ==> AnswerOk(nodes, h, a)
  }

  /** The log of term `t` is committed through `k`. */
  ghost predicate Sealed(h: Hist, t: nat, k: nat) {
    t in h.led && (k == 0 || exists p :: SettledBy(h, h.led[t].log, k, p) && p.term <= t)
  }

  /** A snapshot is of a committed prefix, which its sender has dropped. */
  ghost predicate CopyNewsOk(nodes: seq<Node>, h: Hist, m: SnapshotMsg) {
    && Sealed(h, m.args.term, m.args.lastIncludeIndex)
    && m.args.leader < |nodes| && m.args.lastIncludeIndex <= nodes[m.args.leader].lastIncludeIndex
  }

  ghost predicate CopyNewsAllOk(nodes: seq<Node>, h: Hist, ms: set<SnapshotMsg>) {
    forall m {:trigger CopyNewsOk(nodes, h, m)} :: m in ms ==> CopyNewsOk(nodes, h, m)
  }

  /** A boundary entry of the present term that is not in the base came in a snapshot of this term's leader. */
  ghost predicate BoundaryOk(nodes: seq<Node>, h: Hist, v: nat) {
    && v < |nodes| && v < |h.full| && v < |h.base|
    && var n, k := nodes[v], nodes[v].lastIncludeIndex;
       && k < |h.full[v]| && k < |h.base[v]|
       && (|| h.base[v][k].term == h.full[v][k].term || h.full[v][k].term < n.currentTerm
           || (n.currentTerm in h.led && h.led[n.currentTerm].leader < |nodes|
               && k <= nodes[h.led[n.currentTerm].leader].lastIncludeIndex))
  }

  ghost predicate BoundariesOk(nodes: seq<Node>, h: Hist) {
    forall v {:trigger BoundaryOk(nodes, h, v)} :: 0 <= v < |nodes| ==> BoundaryOk(nodes, h, v)
  }

  ghost predicate EmittedBy(h: Hist, e: (nat, Bytes), p: Pos) {
    && p in h.committed && p.term in h.led && e.0 <= p.index < |h.led[p.term].log|
    && h.led[p.term].log[e.0].command == e.1
  }

  ghost predicate EmittedOk(h: Hist, es: set<(nat, Bytes)>) {
    forall e :: e in es ==> exists p :: EmittedBy(h, e, p)
  }

  ghost predicate Commits(s: Sys) {
    && Sized(s)
    && AcksOk(s.nodes, s.hist) && SelfAcks(s.hist)
    && Complete(s.hist) && Retained(s.hist) && VotesSafe(s.hist)
    && CommitsOk(|s.nodes|, s.hist)
    && PeerCommitsOk(s.nodes, s.hist)
    && NewsAllOk(s.hist, s.net.appends)
    && AnswersOk(s.nodes, s.hist, s.net.appendReplies)
    && CopyNewsAllOk(s.nodes, s.hist, s.net.snapshots)
    && BoundariesOk(s.nodes, s.hist)
    && EmittedOk(s.hist, s.hist.emitted)
  }

  lemma CommitsAtStart(s: Sys)
    requires Init(s)
    ensures Commits(s)
  {
  }

  // ---------- committed entries are never dead ----------

  lemma NotDead(s: Sys, p: Pos)
    requires E.Elections(s) && CommitsOk(|s.nodes|, s.hist) && p in s.hist.committed
    ensures !Dead(s.hist, p.term, p.index)
  {
    forall t'
      ensures !Skipped(s.hist, t', p.term, p.index)
    {
      assert CommitOk(|s.nodes|, s.hist, p);
      if t' in s.hist.led && p.term < t' {
        assert E.ReignOk(s.nodes, s.hist.granted, s.hist.led, t');
        var q := E.QuorumsMeet(|s.nodes|, s.hist.committed[p], s.hist.led[t'].voters);
      }
    }
  }

  /** Leader Completeness: a committed entry, with all before it, is in the log every later leader starts with. */
  lemma LeaderCompleteness(s: Sys, p: Pos, t': nat)
    requires E.Elections(s) && Commits(s)
    requires p in s.hist.committed && t' in s.hist.led && p.term < t'
    ensures Inherits(s.hist.led, t', p.term, p.index)
  {
    assert CommitOk(|s.nodes|, s.hist, p);
    NotDead(s, p);
    assert CompleteAt(s.hist, p.term, t', p.index);
  }

  /** Any two committed positions lie on one log. */
  lemma CommittedAgree(s: Sys, p: Pos, q: Pos, k: nat)
    requires E.Elections(s) && Logs(s) && Commits(s)
    requires p in s.hist.committed && q in s.hist.committed && k <= p.index && k <= q.index
    ensures p.term in s.hist.led && q.term in s.hist.led
    ensures Agree(s.hist.led[p.term].log, s.hist.led[q.term].log, k + 1)
  {
    assert CommitOk(|s.nodes|, s.hist, p) && CommitOk(|s.nodes|, s.hist, q);
    if p.term < q.term {
      LeaderCompleteness(s, p, q.term);
    } else if q.term < p.term {
      LeaderCompleteness(s, q, p.term);
    }
  }

  // ---------- what any step keeps ----------

  /** Acknowledgements only grow, and only in a peer's present term. */
  ghost predicate AcksGrow(nodes: seq<Node>, acked: seq<map<nat, nat>>, acked': seq<map<nat, nat>>) {
    && |acked| == |acked'| == |nodes|
    && (forall q: nat, t: nat, N: nat :: Acked(acked, q, t, N) ==> Acked(acked', q, t, N))
    && (forall q: nat, t: nat, N: nat :: Acked(acked', q, t, N) && t < nodes[q].currentTerm ==> Acked(acked, q, t, N))
  }

  ghost predicate Evolves(nodes: seq<Node>, h: Hist, h': Hist) {
    && Grows(h.led, h'.led)
    && AcksGrow(nodes, h.acked, h'.acked)
    && (forall p :: p in h.committed ==> p in h'.committed)
  }

  /** Once no majority can acknowledge an entry, none ever will. */
  lemma DeadStays(s: Sys, h': Hist, t: nat, N: nat)
    requires E.Elections(s) && Evolves(s.nodes, s.hist, h') && Dead(s.hist, t, N)
    ensures Dead(h', t, N)
  {
    var t' :| Skipped(s.hist, t', t, N);
    assert E.ReignOk(s.nodes, s.hist.granted, s.hist.led, t');
    forall q | q in h'.led[t'].voters
      ensures !Acked(h'.acked, q, t, N)
    {
      assert E.GrantOk(s.nodes, s.hist.candLog, Vote(q, t', s.hist.led[t'].leader));
    }
    assert Skipped(h', t', t, N);
  }

  lemma CompleteStays(s: Sys, h': Hist)
    requires E.Elections(s) && Evolves(s.nodes, s.hist, h') && Complete(s.hist) && h'.led == s.hist.led
    ensures Complete(h')
  {
    forall t, t', N
      ensures CompleteAt(h', t, t', N)
    {
      assert CompleteAt(s.hist, t, t', N);
      if Dead(s.hist, t, N) { DeadStays(s, h', t, N); }
    }
  }

  /** An old acknowledgement stays honoured while the log keeps what it covered. */
  lemma RetainedStays(s: Sys, h': Hist, q: nat, t: nat, N: nat)
    requires E.Elections(s) && Evolves(s.nodes, s.hist, h') && RetainedAt(s.hist, q, t, N)
    requires q < |s.hist.base| == |h'.base| && h'.base[q] == s.hist.base[q]
    requires Own(h'.led, t, N) && Own(s.hist.led, t, N) && Acked(s.hist.acked, q, t, N)
    ensures RetainedAt(h', q, t, N)
  {
    if Dead(s.hist, t, N) { DeadStays(s, h', t, N); }
  }

  lemma VoteSafeStays(s: Sys, h': Hist, g: Vote, t: nat, N: nat)
    requires E.Elections(s) && Evolves(s.nodes, s.hist, h') && VoteSafeAt(s.hist, g, t, N)
    requires g in s.hist.granted && (Own(h'.led, t, N) ==> Own(s.hist.led, t, N))
    requires forall k :: k in s.hist.candLog ==> k in h'.candLog && h'.candLog[k] == s.hist.candLog[k]
    ensures VoteSafeAt(h', g, t, N)
  {
    assert E.GrantOk(s.nodes, s.hist.candLog, g);
    if Dead(s.hist, t, N) { DeadStays(s, h', t, N); }
  }

  lemma VotesSafeStay(s: Sys, h': Hist)
    requires E.Elections(s) && Evolves(s.nodes, s.hist, h') && VotesSafe(s.hist)
    requires h'.led == s.hist.led && h'.granted == s.hist.granted && h'.candLog == s.hist.candLog
    ensures VotesSafe(h')
  {
    forall g, t, N
      ensures VoteSafeAt(h', g, t, N)
    {
      assert VoteSafeAt(s.hist, g, t, N);
      if g in s.hist.granted { VoteSafeStays(s, h', g, t, N); }
    }
  }

  lemma CommitsStay(nodes: seq<Node>, h: Hist, h': Hist)
    requires Evolves(nodes, h, h') && CommitsOk(|nodes|, h)
    requires forall p :: p in h'.committed ==>
      if p in h.committed then h'.committed[p] == h.committed[p] else CommitOk(|nodes|, h', p)
    ensures CommitsOk(|nodes|, h')
  {
    forall p
      ensures CommitOk(|nodes|, h', p)
    {
      assert CommitOk(|nodes|, h, p);
    }
  }

  lemma SettledStays(nodes: seq<Node>, h: Hist, h': Hist, log: seq<Entry>, k: nat, p: Pos)
    requires Evolves(nodes, h, h') && SettledBy(h, log, k, p)
    ensures SettledBy(h', log, k, p)
  {
  }

  lemma BeliefStays(nodes: seq<Node>, h: Hist, h': Hist, n: Node, full: seq<Entry>)
    requires Evolves(nodes, h, h') && PeerCommitOk(n, full, h)
    ensures PeerCommitOk(n, full, h')
  {
  }

  lemma PeersStay(nodes: seq<Node>, nodes': seq<Node>, h: Hist, h': Hist, v: nat)
    requires Evolves(nodes, h, h') && PeerCommitsOk(nodes, h)
    requires v < |nodes| == |nodes'| == |h'.full| && nodes' == nodes[v := nodes'[v]]
    requires h'.full == h.full[v := h'.full[v]]
    requires PeerCommitOk(nodes'[v], h'.full[v], h')
    ensures PeerCommitsOk(nodes', h')
  {
    forall u | 0 <= u < |nodes'|
      ensures PeerCommitOk(nodes'[u], h'.full[u], h')
    {
      if u != v {
        assert PeerCommitOk(nodes[u], h.full[u], h);
        BeliefStays(nodes, h, h', nodes[u], h.full[u]);
      }
    }
  }

  lemma NewsStays(nodes: seq<Node>, h: Hist, h': Hist, args: AppendArgs)
    requires Evolves(nodes, h, h') && NewsOk(h, args)
    ensures NewsOk(h', args)
  {
  }

  /** Boundaries and terms never fall. */
  ghost predicate Rises(nodes: seq<Node>, nodes': seq<Node>) {
    |nodes| == |nodes'| && forall u :: 0 <= u < |nodes| ==>
      nodes'[u].lastIncludeIndex >= nodes[u].lastIncludeIndex && nodes'[u].currentTerm >= nodes[u].currentTerm
  }

  lemma CopyNewsStays(nodes: seq<Node>, nodes': seq<Node>, h: Hist, h': Hist, m: SnapshotMsg)
    requires Evolves(nodes, h, h') && Rises(nodes, nodes') && CopyNewsOk(nodes, h, m)
    ensures CopyNewsOk(nodes', h', m)
  {
  }

  lemma MailStays(nodes: seq<Node>, nodes': seq<Node>, h: Hist, h': Hist, net: Net)
    requires Evolves(nodes, h, h') && Rises(nodes, nodes')
    requires NewsAllOk(h, net.appends) && AnswersOk(nodes, h, net.appendReplies)
    requires CopyNewsAllOk(nodes, h, net.snapshots)
    ensures NewsAllOk(h', net.appends) && AnswersOk(nodes', h', net.appendReplies)
    ensures CopyNewsAllOk(nodes', h', net.snapshots)
  {
    forall m | m in net.appends ensures NewsOk(h', m.args) { NewsStays(nodes, h, h', m.args); }
    forall a | a in net.appendReplies ensures AnswerOk(nodes', h', a) { assert AnswerOk(nodes, h, a); }
    forall m | m in net.snapshots ensures CopyNewsOk(nodes', h', m) {
      assert CopyNewsOk(nodes, h, m);
      CopyNewsStays(nodes, nodes', h, h', m);
    }
  }

  lemma BoundaryStays(nodes: seq<Node>, nodes': seq<Node>, h: Hist, h': Hist, u: nat)
    requires BoundaryOk(nodes, h, u) && Rises(nodes, nodes') && Grows(h.led, h'.led)
    requires TermsUpTo(h.full[u], nodes[u].currentTerm)
    requires u < |h'.full| && u < |h'.base| && h'.full[u] == h.full[u] && h'.base[u] == h.base[u]
    requires nodes'[u].lastIncludeIndex == nodes[u].lastIncludeIndex
    ensures BoundaryOk(nodes', h', u)
  {
  }

  /** The other peers' boundaries stay as well founded as they were. */
  lemma BoundariesStay(s: Sys, s': Sys, v: nat)
    requires Logs(s) && BoundariesOk(s.nodes, s.hist) && Rises(s.nodes, s'.nodes) && Grows(s.hist.led, s'.hist.led)
    requires v < |s.nodes| && s'.nodes == s.nodes[v := s'.nodes[v]]
    requires |s'.hist.full| == |s.hist.full| && s'.hist.full == s.hist.full[v := s'.hist.full[v]]
    requires |s'.hist.base| == |s.hist.base| && s'.hist.base == s.hist.base[v := s'.hist.base[v]]
    requires BoundaryOk(s'.nodes, s'.hist, v)
    ensures BoundariesOk(s'.nodes, s'.hist)
  {
    forall u | 0 <= u < |s'.nodes|
      ensures BoundaryOk(s'.nodes, s'.hist, u)
    {
      if u != v {
        assert PeerLogOk(s.nodes[u], s.hist.full[u], s.hist.base[u], s.hist);
        BoundaryStays(s.nodes, s'.nodes, s.hist, s'.hist, u);
      }
    }
  }

  /** A peer whose log stays keeps its boundary, or moves it to an entry it was sent. */
  lemma BoundaryMoves(s: Sys, s': Sys, v: nat)
    requires Logs(s) && BoundariesOk(s.nodes, s.hist) && Rises(s.nodes, s'.nodes) && Grows(s.hist.led, s'.hist.led)
    requires v < |s.nodes| && v < |s'.hist.full| && v < |s'.hist.base|
    requires s'.hist.full[v] == s.hist.full[v] && s'.hist.base[v] == s.hist.base[v]
    requires s'.nodes[v].lastIncludeIndex < |s.hist.full[v]|
    ensures BoundaryOk(s'.nodes, s'.hist, v)
  {
    assert PeerLogOk(s.nodes[v], s.hist.full[v], s.hist.base[v], s.hist);
    assert BoundaryOk(s.nodes, s.hist, v);
    if s'.nodes[v].lastIncludeIndex == s.nodes[v].lastIncludeIndex {
      BoundaryStays(s.nodes, s'.nodes, s.hist, s'.hist, v);
    }
  }

  lemma EmittedStays(nodes: seq<Node>, h: Hist, h': Hist, es: set<(nat, Bytes)>)
    requires Evolves(nodes, h, h') && EmittedOk(h, es)
    ensures EmittedOk(h', es)
  {
    forall e | e in es
      ensures exists p :: EmittedBy(h', e, p)
    {
      var p :| EmittedBy(h, e, p);
      assert EmittedBy(h', e, p);
    }
  }

  // ---------- putting a step together ----------

  /** One peer moves, and the record grows. */
  ghost predicate Moved(s: Sys, s': Sys, v: nat) {
    && Sized(s) && Sized(s') && v < |s.nodes| == |s'.nodes| && s'.nodes == s.nodes[v := s'.nodes[v]]
    && Rises(s.nodes, s'.nodes) && Evolves(s.nodes, s.hist, s'.hist)
    && s'.hist.full == s.hist.full[v := s'.hist.full[v]] && s'.hist.base == s.hist.base[v := s'.hist.base[v]]
  }

  /** What is added to the mail, and handed to a state machine, is well founded. */
  ghost predicate Truthful(s: Sys, s': Sys) {
    && (forall m :: m in s'.net.appends ==> m in s.net.appends || NewsOk(s'.hist, m.args))
    && (forall a :: a in s'.net.appendReplies ==> a in s.net.appendReplies || AnswerOk(s'.nodes, s'.hist, a))
    && (forall m :: m in s'.net.snapshots ==> m in s.net.snapshots || CopyNewsOk(s'.nodes, s'.hist, m))
    && (forall e :: e in s'.hist.emitted ==> e in s.hist.emitted || exists p :: EmittedBy(s'.hist, e, p))
  }

  lemma TruthStays(s: Sys, s': Sys)
    requires Commits(s) && Evolves(s.nodes, s.hist, s'.hist) && Rises(s.nodes, s'.nodes) && Truthful(s, s')
    ensures NewsAllOk(s'.hist, s'.net.appends) && AnswersOk(s'.nodes, s'.hist, s'.net.appendReplies)
    ensures CopyNewsAllOk(s'.nodes, s'.hist, s'.net.snapshots) && EmittedOk(s'.hist, s'.hist.emitted)
  {
    MailStays(s.nodes, s'.nodes, s.hist, s'.hist, s.net);
    EmittedStays(s.nodes, s.hist, s'.hist, s.hist.emitted);
  }

  lemma Assemble(s: Sys, s': Sys, v: nat)
    requires E.Elections(s) && Logs(s) && Commits(s) && Moved(s, s', v) && Truthful(s, s')
    requires PeerCommitOk(s'.nodes[v], s'.hist.full[v], s'.hist) && BoundaryOk(s'.nodes, s'.hist, v)
    requires AcksOk(s'.nodes, s'.hist) && SelfAcks(s'.hist) && CommitsOk(|s.nodes|, s'.hist)
    requires Complete(s'.hist) && Retained(s'.hist) && VotesSafe(s'.hist)
    ensures Commits(s')
  {
    PeersStay(s.nodes, s'.nodes, s.hist, s'.hist, v);
    TruthStays(s, s');
    BoundariesStay(s, s', v);
  }

  // ---------- steps that leave logs, votes and acknowledgements alone ----------

  lemma AcksStay(nodes: seq<Node>, nodes': seq<Node>, h: Hist, h': Hist)
    requires AcksOk(nodes, h) && Grows(h.led, h'.led) && h'.acked == h.acked && |nodes| == |nodes'|
    requires forall u :: 0 <= u < |nodes| ==> nodes'[u].currentTerm >= nodes[u].currentTerm
    ensures AcksOk(nodes', h')
  {
    forall q, t
      ensures AckOk(nodes', h', q, t)
    {
      assert AckOk(nodes, h, q, t);
    }
  }

  /** With the same logs and acknowledgements, completeness and retention stay. */
  lemma LogsSame(s: Sys, h': Hist)
    requires E.Elections(s) && Commits(s) && Evolves(s.nodes, s.hist, h')
    requires h'.led == s.hist.led && h'.base == s.hist.base && h'.acked == s.hist.acked
    ensures Complete(h') && Retained(h') && SelfAcks(h')
  {
    CompleteStays(s, h');
    forall t ensures SelfAck(h', t) { assert SelfAck(s.hist, t); }
    forall q: nat, t: nat, N: nat
      ensures RetainedAt(h', q, t, N)
    {
      assert RetainedAt(s.hist, q, t, N);
      if q < |h'.base| && Own(h'.led, t, N) && Acked(h'.acked, q, t, N) { RetainedStays(s, h', q, t, N); }
    }
  }

  /** With the same logs, acknowledgements and commits only the votes have to be looked at. */
  lemma VoteStep(s: Sys, s': Sys, v: nat)
    requires E.Elections(s) && Logs(s) && Commits(s) && Moved(s, s', v) && Truthful(s, s') && VotesSafe(s'.hist)
    requires s'.hist.full == s.hist.full && s'.hist.base == s.hist.base && s'.hist.led == s.hist.led
    requires s'.hist.acked == s.hist.acked && s'.hist.committed == s.hist.committed
    requires PeerCommitOk(s'.nodes[v], s.hist.full[v], s.hist)
    ensures Commits(s')
  {
    LogsSame(s, s'.hist);
    CommitsStay(s.nodes, s.hist, s'.hist);
    AcksStay(s.nodes, s'.nodes, s.hist, s'.hist);
    BeliefStays(s.nodes, s.hist, s'.hist, s'.nodes[v], s.hist.full[v]);
    BoundaryMoves(s, s', v);
    Assemble(s, s', v);
  }

  lemma QuietCommit(s: Sys, s': Sys, v: nat)
    requires E.Elections(s) && Logs(s) && Commits(s) && Sized(s') && v < |s.nodes| == |s'.nodes|
    requires s'.nodes == s.nodes[v := s'.nodes[v]] && Rises(s.nodes, s'.nodes)
    requires s'.hist == s.hist.(emitted := s'.hist.emitted, seen := s'.hist.seen, supporters := s'.hist.supporters)
    requires PeerCommitOk(s'.nodes[v], s.hist.full[v], s.hist) && Truthful(s, s')
    ensures Commits(s')
  {
    VotesSafeStay(s, s'.hist);
    VoteStep(s, s', v);
  }

  // ---------- what single peers go on believing ----------

  /** A lower commit index, or a later term, is as well founded. */
  lemma BelieveLess(n: Node, x: Node, full: seq<Entry>, h: Hist)
    requires BeliefOk(n, full, h) && x.me == n.me
    requires x.currentTerm >= n.currentTerm && x.commitIndex <= n.commitIndex
    requires n.lastIncludeIndex <= x.lastIncludeIndex <= x.lastApplied <= x.commitIndex
    ensures BeliefOk(x, full, h)
  {
    if x.commitIndex > 0 {
      var p :| SettledBy(h, full, n.commitIndex, p) && p.term <= n.currentTerm
        && (p.term == n.currentTerm ==> Sure(n, h));
      assert SettledBy(h, full, x.commitIndex, p);
    }
  }

  /** Truthful answers keep `matchIndex` truthful above the snapshot, whatever order they come in. */
  lemma MatchAfterReply(nodes: seq<Node>, n: Node, h: Hist, ack: AppendAck)
    requires S.WellFormed(n) && ack.from < n.peers && MatchOk(n, h) && AnswerOk(nodes, h, ack)
    requires ack.args.leader < |nodes| && nodes[ack.args.leader] == n
    ensures MatchOk(S.AppendReplied(n, ack.from, ack.args, ack.reply), h)
  {
    var x := S.AppendReplied(n, ack.from, ack.args, ack.reply);
    if x.role == Leader {
      forall j: nat | j < n.peers && j != n.me && x.matchIndex[j] > x.lastIncludeIndex
        ensures Acked(h.acked, j, x.currentTerm, x.matchIndex[j])
      {
        if j != ack.from { assert x.matchIndex[j] == n.matchIndex[j]; }
      }
    }
  }

  /** Raising `matchIndex` to the snapshot index claims nothing above it. */
  lemma MatchAfterCompact(n: Node, h: Hist, index: nat, data: Bytes)
    requires S.WellFormed(n) && index <= S.LastIndex(n) && MatchOk(n, h)
    ensures MatchOk(S.TakeSnapshot(n, index, data), h)
  {
  }

  lemma BeliefAfterCompact(n: Node, full: seq<Entry>, h: Hist, index: nat, data: Bytes)
    requires S.WellFormed(n) && index <= S.LastIndex(n) && index <= n.lastApplied && BeliefOk(n, full, h)
    ensures BeliefOk(S.TakeSnapshot(n, index, data), full, h)
  {
    BelieveLess(n, S.TakeSnapshot(n, index, data), full, h);
  }

  lemma BeliefAfterCrash(n: Node, full: seq<Entry>, h: Hist)
    requires S.WellFormed(n) && n.peers >= 2 && Holds(n, full) && BeliefOk(n, full, h)
    ensures PeerCommitOk(S.Restart(n.me, n.peers, n.disk), full, h)
  {
    BelieveLess(n, S.Restart(n.me, n.peers, n.disk), full, h);
  }

  lemma BeliefAfterApply(n: Node, full: seq<Entry>, h: Hist)
    requires S.WellFormed(n) && Holds(n, full) && PeerCommitOk(n, full, h)
    ensures PeerCommitOk(S.Apply(n).0, full, h)
  {
    BelieveLess(n, S.Apply(n).0, full, h);
  }

  lemma AppliedIsHeld(n: Node, full: seq<Entry>, e: (nat, Bytes))
    requires S.WellFormed(n) && Holds(n, full) && e in CommandsOf(S.Apply(n).1)
    ensures n.lastApplied < e.0 <= n.commitIndex && e.0 < |full| && full[e.0].command == e.1
  {
    var msgs := S.Apply(n).1;
    var k :| 0 <= k < |msgs| && msgs[k].ApplyCommand? && e == (msgs[k].index, msgs[k].command);
  }

  /** What a peer hands to its state machine is committed. */
  lemma ApplyEmitsCommitted(n: Node, full: seq<Entry>, h: Hist, e: (nat, Bytes))
    requires S.WellFormed(n) && Holds(n, full) && BeliefOk(n, full, h) && CommitsOk(n.peers, h)
    requires e in CommandsOf(S.Apply(n).1)
    ensures exists p :: EmittedBy(h, e, p)
  {
    AppliedIsHeld(n, full, e);
    var p :| SettledBy(h, full, n.commitIndex, p);
    assert CommitOk(n.peers, h, p);
    assert EmittedBy(h, e, p);
  }

  // ---------- votes ----------

  /** A log with an entry of term `t` ends in an entry of term `t` or later. */
  lemma EndsNoEarlier(log: seq<Entry>, led: map<nat, Reign>, t: nat, N: nat)
    requires LedLogsOk(led) && Backed(log, led) && Own(led, t, N) && Agree(log, led[t].log, N + 1)
    ensures log[|log| - 1].term >= t
  {
    var j := |log| - 1;
    assert LedLogOk(led, t);
    if j > 0 {
      assert BackedAt(log, led, j);
      assert LedLogOk(led, log[j].term);
      assert led[log[j].term].log[N].term == t;
    }
  }

  /** The up-to-date check of RequestVote: a candidate that passes it has every entry that `mine`, the
      log of a voter, has of an earlier reign, unless the entry is dead. */
  lemma UpToDateCovers(h: Hist, mine: seq<Entry>, theirs: seq<Entry>, t: nat, N: nat)
    requires LedLogsOk(h.led) && Backed(mine, h.led) && Backed(theirs, h.led) && Complete(h)
    requires Own(h.led, t, N) && t >= 1 && Agree(mine, h.led[t].log, N + 1)
    requires var a, b := theirs[|theirs| - 1].term, mine[|mine| - 1].term; a > b || (a == b && |theirs| >= |mine|)
    ensures Dead(h, t, N) || Agree(theirs, h.led[t].log, N + 1)
  {
    var a, b := theirs[|theirs| - 1].term, mine[|mine| - 1].term;
    EndsNoEarlier(mine, h.led, t, N);
    if a == b {
      SameTermSamePrefix(theirs, mine, h.led, |mine| - 1) by {
        SamePlace(theirs, mine, h.led);
      }
    } else {
      assert |theirs| > 1;
      assert BackedAt(theirs, h.led, |theirs| - 1);
      assert CompleteAt(h, t, a, N);
    }
  }

  /** Logs that end in the same term are prefixes of one log. */
  lemma SamePlace(longer: seq<Entry>, shorter: seq<Entry>, led: map<nat, Reign>)
    requires Backed(longer, led) && Backed(shorter, led) && |longer| >= |shorter|
    requires longer[|longer| - 1].term == shorter[|shorter| - 1].term
    requires LedLogsOk(led)
    ensures longer[|shorter| - 1].term == shorter[|shorter| - 1].term
  {
    var i, j := |longer| - 1, |shorter| - 1;
    if i > 0 {
      assert BackedAt(longer, led, i);
      if j > 0 {
        assert BackedAt(shorter, led, j);
      } else {
        assert LedLogOk(led, longer[i].term);
      }
    }
  }

  /** A granted vote is safe: the candidate has whatever its voter acknowledged and still has. */
  lemma VoteIsSafe(s: Sys, h': Hist, v: nat, request: VoteArgs, t: nat, N: nat)
    requires E.Elections(s) && Logs(s) && Commits(s) && Enabled(s, GetVoteRequest(v, request))
    requires S.UpToDate(s.nodes[v], request)
    requires h' == s.hist.(granted := s.hist.granted + {Vote(v, request.term, request.candidate)})
    requires t < request.term && Own(h'.led, t, N) && Acked(h'.acked, v, t, N)
    ensures VoteSafeAt(h', Vote(v, request.term, request.candidate), t, N)
  {
    var h := s.hist;
    assert RetainedAt(h, v, t, N);
    assert RequestOk(h.candLog, request);
    assert StandOk(h.candLog, h.led, Candidacy(request.term, request.candidate));
    assert PeerLogOk(s.nodes[v], h.full[v], h.base[v], h);
    assert E.ReignOk(s.nodes, h.granted, h.led, t);
    if !Dead(h, t, N) {
      UpToDateCovers(h, h.base[v], h.candLog[Candidacy(request.term, request.candidate)], t, N);
    }
    if Dead(h, t, N) { DeadStays(s, h', t, N); }
  }

  lemma GrantVotes(s: Sys, h': Hist, v: nat, request: VoteArgs)
    requires E.Elections(s) && Logs(s) && Commits(s) && Enabled(s, GetVoteRequest(v, request))
    requires S.UpToDate(s.nodes[v], request)
    requires h' == s.hist.(granted := s.hist.granted + {Vote(v, request.term, request.candidate)})
    ensures VotesSafe(h')
  {
    forall g: Vote, t: nat, N: nat
      ensures VoteSafeAt(h', g, t, N)
    {
      if g in s.hist.granted {
        assert VoteSafeAt(s.hist, g, t, N);
        VoteSafeStays(s, h', g, t, N);
      } else if g in h'.granted && t < g.term && Own(h'.led, t, N) && Acked(h'.acked, v, t, N) {
        VoteIsSafe(s, h', v, request, t, N);
      }
    }
  }

  lemma VoteRequestMoves(s: Sys, v: nat, request: VoteArgs)
    requires Commits(s) && Enabled(s, GetVoteRequest(v, request)) && Sized(AfterVoteRequest(s, v, request))
    ensures var s' := AfterVoteRequest(s, v, request);
      Moved(s, s', v) && Truthful(s, s') && PeerCommitOk(s'.nodes[v], s.hist.full[v], s.hist)
  {
    assert PeerCommitOk(s.nodes[v], s.hist.full[v], s.hist);
    BelieveLess(s.nodes[v], AfterVoteRequest(s, v, request).nodes[v], s.hist.full[v], s.hist);
  }

  lemma VoteRequestCommits(s: Sys, v: nat, request: VoteArgs)
    requires E.Elections(s) && Logs(s) && Commits(s) && Enabled(s, GetVoteRequest(v, request))
    ensures Commits(AfterVoteRequest(s, v, request))
  {
    var s' := AfterVoteRequest(s, v, request);
    VoteRequestMoves(s, v, request);
    if S.RequestVote(s.nodes[v], request).1.granted {
      GrantVotes(s, s'.hist, v, request);
    } else {
      VotesSafeStay(s, s'.hist);
    }
    VoteStep(s, s', v);
  }

  /** A candidate votes for itself, and has what it acknowledged. */
  lemma CampaignVotes(s: Sys, h': Hist, k: Candidacy)
    requires E.Elections(s) && Logs(s) && Commits(s) && k.id < |s.nodes| && k !in s.hist.candLog
    requires h'.candLog == s.hist.candLog[k := s.hist.base[k.id]]
    requires h'.granted == s.hist.granted + {Vote(k.id, k.term, k.id)}
    requires h'.led == s.hist.led && h'.acked == s.hist.acked && h'.committed == s.hist.committed
    ensures VotesSafe(h')
  {
    forall g: Vote, t: nat, N: nat
      ensures VoteSafeAt(h', g, t, N)
    {
      if g in s.hist.granted {
        assert VoteSafeAt(s.hist, g, t, N);
        VoteSafeStays(s, h', g, t, N);
      } else {
        assert RetainedAt(s.hist, k.id, t, N);
        if Dead(s.hist, t, N) { DeadStays(s, h', t, N); }
      }
    }
  }

  lemma CampaignCommits(s: Sys, v: nat)
    requires E.Elections(s) && Logs(s) && Commits(s) && Enabled(s, Campaign(v))
    ensures Commits(AfterCampaign(s, v))
  {
    var s' := AfterCampaign(s, v);
    var n := s.nodes[v];
    assert PeerCommitOk(n, s.hist.full[v], s.hist);
    BelieveLess(n, s'.nodes[v], s.hist.full[v], s.hist);
    CampaignVotes(s, s'.hist, Candidacy(n.currentTerm + 1, v));
    VoteStep(s, s', v);
  }

  // ---------- winning an election ----------

  /** Votes of a majority are votes of someone who acknowledged what is committed, so the candidate has it. */
  lemma CandidateHas(s: Sys, v: nat, supporters: set<nat>, p: Pos)
    requires E.Elections(s) && Logs(s) && Commits(s) && v < |s.nodes| && s.nodes[v].role == Candidate
    requires supporters <= Ids(|s.nodes|) && |supporters| > |s.nodes| / 2
    requires forall q :: q in supporters ==> Vote(q, s.nodes[v].currentTerm, v) in s.hist.granted
    requires p in s.hist.committed && p.term < s.nodes[v].currentTerm
    ensures p.term in s.hist.led && Agree(s.hist.base[v], s.hist.led[p.term].log, p.index + 1)
  {
    assert PeerLogOk(s.nodes[v], s.hist.full[v], s.hist.base[v], s.hist);
    assert CommitOk(|s.nodes|, s.hist, p);
    NotDead(s, p);
    var q := E.QuorumsMeet(|s.nodes|, s.hist.committed[p], supporters);
    assert VoteSafeAt(s.hist, Vote(q, s.nodes[v].currentTerm, v), p.term, p.index);
  }

  /** InstallSnapshot may leave a log that fits no leader's, but such a log never wins: what replaced its prefix
      was committed, and a winner has what was committed. */
  lemma WinnerIsWhole(s: Sys, v: nat, supporters: set<nat>)
    requires E.Elections(s) && Logs(s) && Commits(s) && v < |s.nodes| && s.nodes[v].role == Candidate
    requires supporters <= Ids(|s.nodes|) && |supporters| > |s.nodes| / 2
    requires forall q :: q in supporters ==> Vote(q, s.nodes[v].currentTerm, v) in s.hist.granted
    ensures s.hist.base[v] == s.hist.full[v]
  {
    var n, full, base, h := s.nodes[v], s.hist.full[v], s.hist.base[v], s.hist;
    assert PeerLogOk(n, full, base, h) && PeerCommitOk(n, full, h);
    if n.commitIndex > 0 {
      var p :| SettledBy(h, full, n.commitIndex, p) && p.term <= n.currentTerm;
      E.VacantTerm(s, v, supporters);
      CandidateHas(s, v, supporters, p);
    }
    forall i | 0 <= i < |full| ensures base[i] == full[i] { }
  }

  lemma VoteReplyElectsWhole(s: Sys, v: nat, vote: VoteMsg)
    requires E.Elections(s) && Logs(s) && Commits(s) && Enabled(s, GetVoteReply(v, vote))
    ensures ElectsWhole(s, GetVoteReply(v, vote))
  {
    var s' := AfterVoteReply(s, v, vote);
    if s.nodes[v].role != Leader && s'.nodes[v].role == Leader {
      assert E.PeerOk(s, v);
      WinnerIsWhole(s, v, s.hist.supporters[v] + {vote.from});
    }
  }

  /** Every older entry is either inherited from the winner's own log or skipped by all its voters. */
  lemma WinnerInherits(s: Sys, h': Hist, v: nat, t: nat, t0: nat, N: nat)
    requires E.Elections(s) && Logs(s) && Commits(s) && v < |s.nodes| && Evolves(s.nodes, s.hist, h')
    requires t !in s.hist.led && t in h'.led && h'.led[t].log == s.hist.full[v] && h'.led[t].start == |s.hist.full[v]|
    requires Candidacy(t, v) in s.hist.candLog && s.hist.candLog[Candidacy(t, v)] == s.hist.full[v]
    requires forall q :: q in h'.led[t].voters ==> Vote(q, t, v) in s.hist.granted
    requires forall q: nat, t1: nat, M: nat :: t1 != t && Acked(h'.acked, q, t1, M) ==> Acked(s.hist.acked, q, t1, M)
    requires t0 < t && Own(s.hist.led, t0, N)
    ensures Dead(h', t0, N) || Inherits(h'.led, t, t0, N)
  {
    if q :| q in h'.led[t].voters && Acked(h'.acked, q, t0, N) {
      assert VoteSafeAt(s.hist, Vote(q, t, v), t0, N);
      if Dead(s.hist, t0, N) { DeadStays(s, h', t0, N); }
    } else {
      assert Skipped(h', t, t0, N);
    }
  }

  lemma WinComplete(s: Sys, h': Hist, v: nat, t: nat)
    requires E.Elections(s) && Logs(s) && Commits(s) && v < |s.nodes| && Evolves(s.nodes, s.hist, h')
    requires t !in s.hist.led && t in h'.led && h'.led[t].log == s.hist.full[v] && h'.led[t].start == |s.hist.full[v]|
    requires h'.led.Keys == s.hist.led.Keys + {t} && forall t1 :: t1 in s.hist.led ==> h'.led[t1] == s.hist.led[t1]
    requires Candidacy(t, v) in s.hist.candLog && s.hist.candLog[Candidacy(t, v)] == s.hist.full[v]
    requires forall q :: q in h'.led[t].voters ==> Vote(q, t, v) in s.hist.granted
    requires forall q: nat, t1: nat, M: nat :: t1 != t && Acked(h'.acked, q, t1, M) ==> Acked(s.hist.acked, q, t1, M)
    ensures Complete(h')
  {
    forall t0: nat, t1: nat, N: nat
      ensures CompleteAt(h', t0, t1, N)
    {
      if Own(h'.led, t0, N) && t1 in h'.led && t0 < t1 {
        if t1 == t {
          WinnerInherits(s, h', v, t, t0, N);
        } else {
          assert CompleteAt(s.hist, t0, t1, N);
          if Dead(s.hist, t0, N) { DeadStays(s, h', t0, N); }
        }
      }
    }
  }

  lemma WinRest(s: Sys, h': Hist, t: nat)
    requires E.Elections(s) && Commits(s) && Evolves(s.nodes, s.hist, h')
    requires t !in s.hist.led && t in h'.led && h'.led[t].start == |h'.led[t].log|
    requires h'.led.Keys == s.hist.led.Keys + {t} && forall t1 :: t1 in s.hist.led ==> h'.led[t1] == s.hist.led[t1]
    requires forall q: nat, t1: nat, M: nat :: t1 != t && Acked(h'.acked, q, t1, M) ==> Acked(s.hist.acked, q, t1, M)
    requires h'.base == s.hist.base && h'.granted == s.hist.granted && h'.candLog == s.hist.candLog
    ensures Retained(h') && VotesSafe(h')
  {
    forall q: nat, t0: nat, N: nat
      ensures RetainedAt(h', q, t0, N)
    {
      assert RetainedAt(s.hist, q, t0, N);
      if q < |h'.base| && Own(h'.led, t0, N) && Acked(h'.acked, q, t0, N) { RetainedStays(s, h', q, t0, N); }
    }
    forall g: Vote, t0: nat, N: nat
      ensures VoteSafeAt(h', g, t0, N)
    {
      assert VoteSafeAt(s.hist, g, t0, N);
      if g in s.hist.granted { VoteSafeStays(s, h', g, t0, N); }
    }
  }

  /** A leader counts itself for its whole log, at its election and after every proposal. */
  lemma LeaderAcks(s: Sys, nodes': seq<Node>, h': Hist, v: nat)
    requires Commits(s) && v < |s.nodes| && Rises(s.nodes, nodes') && Grows(s.hist.led, h'.led)
    requires var t := s.nodes[v].currentTerm;
      && t in h'.led && h'.led[t].leader == v && |h'.led[t].log| > 0
      && h'.acked == s.hist.acked[v := Raised(s.hist.acked[v], t, |h'.led[t].log| - 1)]
      && forall t1 :: t1 in h'.led && t1 != t ==> t1 in s.hist.led && h'.led[t1] == s.hist.led[t1]
    ensures AcksOk(nodes', h') && SelfAcks(h') && AcksGrow(s.nodes, s.hist.acked, h'.acked)
    ensures forall q: nat, t1: nat, M: nat ::
      (q != v || t1 != s.nodes[v].currentTerm) && Acked(h'.acked, q, t1, M) ==> Acked(s.hist.acked, q, t1, M)
  {
    assert AckOk(s.nodes, s.hist, v, s.nodes[v].currentTerm);
    forall t0 ensures SelfAck(h', t0) { assert SelfAck(s.hist, t0); }
    forall q: nat, t0: nat ensures AckOk(nodes', h', q, t0) { assert AckOk(s.nodes, s.hist, q, t0); }
  }

  /** The record after `v` has won. */
  ghost predicate Won(s: Sys, h': Hist, v: nat) {
    && Sized(s) && v < |s.nodes| && s.nodes[v].role == Candidate
    && var h, t := s.hist, s.nodes[v].currentTerm;
       && t !in h.led && t in h'.led && |h.full[v]| > 0 && h.base[v] == h.full[v]
       && h'.led == h.led[t := h'.led[t]] && h'.led[t].leader == v && h'.led[t].log == h.full[v]
       && h'.led[t].start == |h.full[v]|
       && (forall q :: q in h'.led[t].voters ==> Vote(q, t, v) in h.granted)
       && h'.acked == h.acked[v := Raised(h.acked[v], t, LastOf(h.full[v]))]
       && h' == h.(led := h'.led, acked := h'.acked, supporters := h'.supporters)
  }

  lemma WinFounded(s: Sys, h': Hist, v: nat)
    requires E.Elections(s) && Logs(s) && Commits(s) && Won(s, h', v) && Evolves(s.nodes, s.hist, h')
    requires forall q: nat, t1: nat, M: nat ::
      t1 != s.nodes[v].currentTerm && Acked(h'.acked, q, t1, M) ==> Acked(s.hist.acked, q, t1, M)
    ensures Complete(h') && Retained(h') && VotesSafe(h') && CommitsOk(|s.nodes|, h')
  {
    assert PeerLogOk(s.nodes[v], s.hist.full[v], s.hist.base[v], s.hist);
    WinComplete(s, h', v, s.nodes[v].currentTerm);
    WinRest(s, h', s.nodes[v].currentTerm);
    CommitsStay(s.nodes, s.hist, h');
  }

  lemma WinCommits(s: Sys, s': Sys, v: nat)
    requires E.Elections(s) && Logs(s) && Commits(s) && Sized(s') && v < |s.nodes| == |s'.nodes| && Won(s, s'.hist, v)
    requires s'.nodes == s.nodes[v := s'.nodes[v]] && Rises(s.nodes, s'.nodes) && s'.net == s.net
    requires PeerCommitOk(s'.nodes[v], s.hist.full[v], s.hist) && s'.nodes[v].lastIncludeIndex < |s.hist.full[v]|
    ensures Commits(s')
  {
    LeaderAcks(s, s'.nodes, s'.hist, v);
    WinFounded(s, s'.hist, v);
    BeliefStays(s.nodes, s.hist, s'.hist, s'.nodes[v], s.hist.full[v]);
    BoundaryMoves(s, s', v);
    Assemble(s, s', v);
  }

  lemma CountedReplyWins(s: Sys, v: nat, vote: VoteMsg)
    requires E.Elections(s) && Logs(s) && Commits(s) && Enabled(s, GetVoteReply(v, vote)) && Counts(s.nodes[v], vote)
    requires AfterVoteReply(s, v, vote).nodes[v].role == Leader
    ensures Won(s, AfterVoteReply(s, v, vote).hist, v) && Sized(AfterVoteReply(s, v, vote))
  {
    E.CountedReplyKeeps(s, v, vote);
    VoteReplyElectsWhole(s, v, vote);
    assert E.PeerOk(s, v) && PeerLogOk(s.nodes[v], s.hist.full[v], s.hist.base[v], s.hist);
  }

  lemma CountedReplyCommits(s: Sys, v: nat, vote: VoteMsg)
    requires E.Elections(s) && Logs(s) && Commits(s) && Enabled(s, GetVoteReply(v, vote)) && Counts(s.nodes[v], vote)
    requires AfterVoteReply(s, v, vote).nodes[v].role == Leader
    ensures Commits(AfterVoteReply(s, v, vote))
  {
    var s' := AfterVoteReply(s, v, vote);
    assert PeerCommitOk(s.nodes[v], s.hist.full[v], s.hist);
    BelieveLess(s.nodes[v], s'.nodes[v], s.hist.full[v], s.hist);
    CountedReplyWins(s, v, vote);
    WinCommits(s, s', v);
  }

  lemma VoteReplyCommits(s: Sys, v: nat, vote: VoteMsg)
    requires E.Elections(s) && Logs(s) && Commits(s) && Enabled(s, GetVoteReply(v, vote))
    ensures Commits(AfterVoteReply(s, v, vote))
  {
    var s' := AfterVoteReply(s, v, vote);
    var n, x := s.nodes[v], s'.nodes[v];
    if x.role == Leader && n.role != Leader {
      CountedReplyCommits(s, v, vote);
    } else {
      assert PeerCommitOk(n, s.hist.full[v], s.hist) && Rises(s.nodes, s'.nodes);
      BelieveLess(n, x, s.hist.full[v], s.hist);
      QuietCommit(s, s', v);
    }
  }

  // ---------- proposing ----------

  /** An entry proposed by a leader that was already replaced is dead from the start. */
  lemma ProposeComplete(s: Sys, h': Hist, v: nat)
    requires E.Elections(s) && Logs(s) && Commits(s) && v < |s.nodes| && s.nodes[v].role == Leader
    requires Evolves(s.nodes, s.hist, h') && s.nodes[v].currentTerm in s.hist.led
    requires var t := s.nodes[v].currentTerm;
      && h'.led == s.hist.led[t := s.hist.led[t].(log := h'.led[t].log)]
      && |h'.led[t].log| == |s.hist.led[t].log| + 1
      && forall q: nat, t1: nat, M: nat :: (q != v || t1 != t) && Acked(h'.acked, q, t1, M) ==>
        Acked(s.hist.acked, q, t1, M)
    ensures Complete(h')
  {
    var t, h := s.nodes[v].currentTerm, s.hist;
    forall t0: nat, t1: nat, N: nat
      ensures CompleteAt(h', t0, t1, N)
    {
      if Own(h'.led, t0, N) && t1 in h'.led && t0 < t1 {
        if Own(h.led, t0, N) {
          assert CompleteAt(h, t0, t1, N);
          if Dead(h, t0, N) { DeadStays(s, h', t0, N); }
        } else {
          assert E.ReignOk(s.nodes, h.granted, h.led, t1);
          forall q | q in h'.led[t1].voters
            ensures !Acked(h'.acked, q, t, N)
          {
            assert E.GrantOk(s.nodes, h.candLog, Vote(q, t1, h.led[t1].leader));
            assert AckOk(s.nodes, h, q, t);
          }
          assert Skipped(h', t1, t0, N);
        }
      }
    }
  }

  lemma ProposeRetained(s: Sys, h': Hist, v: nat)
    requires E.Elections(s) && Logs(s) && Commits(s) && v < |s.nodes| && s.nodes[v].role == Leader
    requires Evolves(s.nodes, s.hist, h') && s.nodes[v].currentTerm in s.hist.led
    requires var t := s.nodes[v].currentTerm;
      && h'.led == s.hist.led[t := s.hist.led[t].(log := h'.led[t].log)]
      && |h'.led[t].log| == |s.hist.led[t].log| + 1
      && |h'.base| == |s.hist.base| && h'.base == s.hist.base[v := h'.led[t].log]
      && Agree(s.hist.base[v], h'.base[v], |s.hist.base[v]|)
      && (forall q: nat, t1: nat, M: nat :: (q != v || t1 != t) && Acked(h'.acked, q, t1, M) ==>
        Acked(s.hist.acked, q, t1, M))
    ensures Retained(h')
  {
    var t, h := s.nodes[v].currentTerm, s.hist;
    forall q: nat, t0: nat, N: nat
      ensures RetainedAt(h', q, t0, N)
    {
      assert RetainedAt(h, q, t0, N);
      if q < |h'.base| && Own(h'.led, t0, N) && Acked(h'.acked, q, t0, N) && (q != v || t0 != t) {
        assert AckOk(s.nodes, h, q, t0);
        if Dead(h, t0, N) { DeadStays(s, h', t0, N); }
      }
    }
  }

  lemma ProposeVotes(s: Sys, h': Hist, v: nat)
    requires E.Elections(s) && Commits(s) && v < |s.nodes|
    requires Evolves(s.nodes, s.hist, h') && s.nodes[v].currentTerm in s.hist.led
    requires var t := s.nodes[v].currentTerm;
      && h'.led == s.hist.led[t := s.hist.led[t].(log := h'.led[t].log)]
    requires h'.granted == s.hist.granted && h'.candLog == s.hist.candLog
    ensures VotesSafe(h')
  {
    var h := s.hist;
    forall g: Vote, t0: nat, N: nat
      ensures VoteSafeAt(h', g, t0, N)
    {
      if g in h.granted && t0 < g.term && Own(h'.led, t0, N) && Acked(h'.acked, g.voter, t0, N) {
        assert E.GrantOk(s.nodes, h.candLog, g);
        assert AckOk(s.nodes, h, g.voter, t0);
        assert VoteSafeAt(h, g, t0, N);
        VoteSafeStays(s, h', g, t0, N);
      }
    }
  }

  /** The record after the leader `v` has proposed an entry. */
  ghost predicate Grown(s: Sys, h': Hist, v: nat) {
    && Sized(s) && v < |s.nodes| && s.nodes[v].role == Leader && |h'.full| == |h'.base| == |s.nodes|
    && var h, t := s.hist, s.nodes[v].currentTerm;
       && t in h.led && h.led[t].leader == v && h.led[t].log == h.full[v] == h.base[v]
       && h'.full == h.full[v := h'.full[v]] && h'.base == h.base[v := h'.full[v]]
       && |h'.full[v]| == |h.full[v]| + 1 && Agree(h.full[v], h'.full[v], |h.full[v]|)
       && h'.led == h.led[t := h.led[t].(log := h'.full[v])]
       && h'.acked == h.acked[v := Raised(h.acked[v], t, LastOf(h'.full[v]))]
       && h' == h.(full := h'.full, base := h'.base, led := h'.led, acked := h'.acked)
  }

  lemma GrownFounded(s: Sys, h': Hist, v: nat)
    requires E.Elections(s) && Logs(s) && Commits(s) && Grown(s, h', v) && Evolves(s.nodes, s.hist, h')
    requires forall q: nat, t1: nat, M: nat ::
      (q != v || t1 != s.nodes[v].currentTerm) && Acked(h'.acked, q, t1, M) ==> Acked(s.hist.acked, q, t1, M)
    ensures Complete(h') && Retained(h') && VotesSafe(h') && CommitsOk(|s.nodes|, h')
  {
    ProposeComplete(s, h', v);
    ProposeRetained(s, h', v);
    ProposeVotes(s, h', v);
    CommitsStay(s.nodes, s.hist, h');
  }

  lemma ExtendCommits(s: Sys, s': Sys, v: nat)
    requires E.Elections(s) && Logs(s) && Commits(s) && Sized(s') && v < |s.nodes| == |s'.nodes| && Grown(s, s'.hist, v)
    requires s'.nodes == s.nodes[v := s'.nodes[v]] && s'.net == s.net
    requires s'.nodes[v] == s.nodes[v].(log := s'.nodes[v].log, disk := s'.nodes[v].disk)
    ensures Commits(s')
  {
    var n, h, h' := s.nodes[v], s.hist, s'.hist;
    assert PeerCommitOk(n, h.full[v], h);
    LeaderAcks(s, s'.nodes, h', v);
    GrownFounded(s, h', v);
    LongerBelief(n, s'.nodes[v], h.full[v], h'.full[v], h);
    BeliefStays(s.nodes, h, h', s'.nodes[v], h'.full[v]);
    Assemble(s, s', v);
  }

  lemma LongerBelief(n: Node, x: Node, full: seq<Entry>, full': seq<Entry>, h: Hist)
    requires PeerCommitOk(n, full, h) && Agree(full, full', |full|)
    requires x == n.(log := x.log, disk := x.disk)
    ensures PeerCommitOk(x, full', h)
  {
    if n.commitIndex > 0 {
      var p :| SettledBy(h, full, n.commitIndex, p) && p.term <= n.currentTerm &&
        (p.term == n.currentTerm ==> Sure(n, h));
      assert SettledBy(h, full', n.commitIndex, p);
    }
  }

  lemma ProposeCommits(s: Sys, v: nat, command: Bytes)
    requires E.Elections(s) && Logs(s) && Commits(s) && Enabled(s, Propose(v, command))
    ensures Commits(AfterPropose(s, v, command))
  {
    var s' := AfterPropose(s, v, command);
    if s.nodes[v].role == Leader {
      assert E.PeerOk(s, v) && PeerLogOk(s.nodes[v], s.hist.full[v], s.hist.base[v], s.hist);
      HoldsPropose(s.nodes[v], s.hist.full[v], command);
      ExtendCommits(s, s', v);
    } else {
      assert s'.nodes == s.nodes;
    }
  }

  // ---------- committing and sending ----------

  /** `updateCommiIndex` commits only what a majority holds, although `matchIndex` starts at and is raised
      to the snapshot index without any acknowledgement. */
  lemma CommitHasQuorum(s: Sys, v: nat, N: nat)
    requires E.Elections(s) && Logs(s) && Commits(s) && v < |s.nodes| && s.nodes[v].role == Leader
    requires S.Committable(s.nodes[v], N)
    ensures var n, t := s.nodes[v], s.nodes[v].currentTerm;
      var quorum := S.Matching(n, N) + {v};
      && Own(s.hist.led, t, N) && s.hist.led[t].log == s.hist.full[v]
      && quorum <= Ids(|s.nodes|) && |quorum| > |s.nodes| / 2
      && forall q :: q in quorum ==> Acked(s.hist.acked, q, t, N)
  {
    var n, h := s.nodes[v], s.hist;
    var t := n.currentTerm;
    assert PeerLogOk(n, h.full[v], h.base[v], h) && PeerCommitOk(n, h.full[v], h) && E.PeerOk(s, v);
    assert LedLogOk(h.led, t) && SelfAck(h, t);
    assert h.full[v][N].term == t;
    assert v !in S.Matching(n, N);
  }

  lemma CommitAdvances(s: Sys, h': Hist, v: nat, N: nat)
    requires E.Elections(s) && Logs(s) && Commits(s) && v < |s.nodes| && s.nodes[v].role == Leader
    requires S.Committable(s.nodes[v], N)
    requires h' == s.hist.(
      committed := s.hist.committed[Pos(s.nodes[v].currentTerm, N) := S.Matching(s.nodes[v], N) + {v}])
    ensures Evolves(s.nodes, s.hist, h') && CommitsOk(|s.nodes|, h')
    ensures PeerCommitOk(s.nodes[v].(commitIndex := N), s.hist.full[v], h')
  {
    var n, p := s.nodes[v], Pos(s.nodes[v].currentTerm, N);
    CommitHasQuorum(s, v, N);
    assert CommitOk(|s.nodes|, h', p);
    forall p'
      ensures CommitOk(|s.nodes|, h', p')
    {
      assert CommitOk(|s.nodes|, s.hist, p');
    }
    assert PeerCommitOk(n, s.hist.full[v], s.hist);
    assert SettledBy(h', s.hist.full[v], N, p);
    assert v == n.me;
  }

  /** What a leader believes committed is what its messages may announce. */
  lemma NewsFromBelief(n: Node, full: seq<Entry>, h: Hist, args: AppendArgs)
    requires BeliefOk(n, full, h) && n.currentTerm in h.led && h.led[n.currentTerm].log == full
    requires args.term == n.currentTerm && args.leaderCommit == n.commitIndex && LastOfMsg(args) == |full| - 1
    ensures NewsOk(h, args)
  {
    if n.commitIndex > 0 {
      var p :| SettledBy(h, full, n.commitIndex, p) && p.term <= n.currentTerm;
      assert SettledBy(h, h.led[args.term].log, args.leaderCommit, p);
    }
  }

  /** So is the snapshot of a leader of a committed prefix. */
  lemma CopyFromBelief(nodes: seq<Node>, n: Node, full: seq<Entry>, h: Hist, m: SnapshotMsg)
    requires BeliefOk(n, full, h) && n.currentTerm in h.led && h.led[n.currentTerm].log == full
    requires m.args.term == n.currentTerm && m.args.lastIncludeIndex == n.lastIncludeIndex
    requires m.args.leader < |nodes| && nodes[m.args.leader] == n
    ensures CopyNewsOk(nodes, h, m)
  {
    if n.lastIncludeIndex > 0 {
      var p :| SettledBy(h, full, n.commitIndex, p) && p.term <= n.currentTerm;
      assert SettledBy(h, h.led[m.args.term].log, m.args.lastIncludeIndex, p);
    }
  }

  lemma SendStep(s: Sys, s': Sys, v: nat)
    requires E.Elections(s) && Logs(s) && Commits(s) && Sized(s') && v < |s.nodes| == |s'.nodes|
    requires var n, x, h, h' := s.nodes[v], s'.nodes[v], s.hist, s'.hist;
      && s'.nodes == s.nodes[v := x] && x == n.(commitIndex := x.commitIndex, nextIndex := x.nextIndex)
      && Evolves(s.nodes, h, h') && CommitsOk(|s.nodes|, h') && PeerCommitOk(x, h.full[v], h')
      && h' == h.(committed := h'.committed, built := h'.built)
      && s'.net == s.net.(appends := s'.net.appends, snapshots := s'.net.snapshots)
      && (forall m :: m in s'.net.appends ==> m in s.net.appends || NewsOk(h', m.args))
      && (forall m :: m in s'.net.snapshots ==> m in s.net.snapshots || CopyNewsOk(s'.nodes, h', m))
    ensures Commits(s')
  {
    var h, h' := s.hist, s'.hist;
    LogsSame(s, h');
    VotesSafeStay(s, h');
    AcksStay(s.nodes, s'.nodes, h, h');
    assert PeerLogOk(s.nodes[v], h.full[v], h.base[v], h);
    BoundaryMoves(s, s', v);
    Assemble(s, s', v);
  }

  /** The leader's half of a send: its new commit index is founded, and recorded as committed. */
  lemma SendAdvances(s: Sys, v: nat, server: nat)
    requires E.Elections(s) && Logs(s) && Commits(s) && Enabled(s, Send(v, server)) && s.nodes[v].role == Leader
    ensures var s' := AfterSend(s, v, server);
      && Evolves(s.nodes, s.hist, s'.hist) && CommitsOk(|s.nodes|, s'.hist)
      && PeerCommitOk(s'.nodes[v], s.hist.full[v], s'.hist)
  {
    var s' := AfterSend(s, v, server);
    var n, x, h, h' := s.nodes[v], s'.nodes[v], s.hist, s'.hist;
    assert PeerCommitOk(n, h.full[v], h);
    if x.commitIndex > n.commitIndex {
      CommitAdvances(s, h'.(built := h.built), v, x.commitIndex);
      SameFounding(h'.(built := h.built), h', n.(commitIndex := x.commitIndex), x, h.full[v], |s.nodes|);
    } else {
      SameFounding(h, h', n, x, h.full[v], |s.nodes|);
    }
  }

  lemma SameFounding(h: Hist, h': Hist, n: Node, x: Node, full: seq<Entry>, peers: nat)
    requires h' == h.(built := h'.built) && x == n.(nextIndex := x.nextIndex)
    requires CommitsOk(peers, h) && PeerCommitOk(n, full, h)
    ensures CommitsOk(peers, h') && PeerCommitOk(x, full, h')
  {
    forall p ensures CommitOk(peers, h', p) { assert CommitOk(peers, h, p); }
    if n.commitIndex > 0 {
      var p :| SettledBy(h, full, n.commitIndex, p) && p.term <= n.currentTerm &&
        (p.term == n.currentTerm ==> Sure(n, h));
      assert SettledBy(h', full, n.commitIndex, p);
    }
  }

  lemma SendNews(s: Sys, v: nat, server: nat)
    requires E.Elections(s) && Logs(s) && Commits(s) && Enabled(s, Send(v, server)) && s.nodes[v].role == Leader
    requires S.PrepareSend(s.nodes[v], server).1.SendAppend?
    ensures NewsOk(AfterSend(s, v, server).hist, S.PrepareSend(s.nodes[v], server).1.append)
  {
    var n, h := s.nodes[v], s.hist;
    assert PeerLogOk(n, h.full[v], h.base[v], h);
    SendAdvances(s, v, server);
    SendCarriesSuffix(n, h.full[v], server);
    NewsFromBelief(S.PrepareSend(n, server).0, h.full[v], AfterSend(s, v, server).hist,
                   S.PrepareSend(n, server).1.append);
  }

  lemma SendCopy(s: Sys, v: nat, server: nat)
    requires E.Elections(s) && Logs(s) && Commits(s) && Enabled(s, Send(v, server)) && s.nodes[v].role == Leader
    requires S.PrepareSend(s.nodes[v], server).1.SendSnapshot?
    ensures var s' := AfterSend(s, v, server);
      CopyNewsOk(s'.nodes, s'.hist, SnapshotMsg(server, S.PrepareSend(s.nodes[v], server).1.install))
  {
    var n, h, s' := s.nodes[v], s.hist, AfterSend(s, v, server);
    assert PeerLogOk(n, h.full[v], h.base[v], h);
    SendAdvances(s, v, server);
    CopyFromBelief(s'.nodes, s'.nodes[v], h.full[v], s'.hist, SnapshotMsg(server, S.PrepareSend(n, server).1.install));
  }

  lemma SendCommits(s: Sys, v: nat, server: nat)
    requires E.Elections(s) && Logs(s) && Commits(s) && Enabled(s, Send(v, server))
    ensures Commits(AfterSend(s, v, server))
  {
    var s' := AfterSend(s, v, server);
    if s.nodes[v].role == Leader {
      SendAdvances(s, v, server);
      SentIsNews(s, v, server);
      SendStep(s, s', v);
    } else {
      assert s'.nodes == s.nodes;
    }
  }

  lemma SentIsNews(s: Sys, v: nat, server: nat)
    requires E.Elections(s) && Logs(s) && Commits(s) && Enabled(s, Send(v, server)) && s.nodes[v].role == Leader
    ensures var s' := AfterSend(s, v, server);
      && (forall m :: m in s'.net.appends ==> m in s.net.appends || NewsOk(s'.hist, m.args))
      && (forall m :: m in s'.net.snapshots ==> m in s.net.snapshots || CopyNewsOk(s'.nodes, s'.hist, m))
  {
    var out := S.PrepareSend(s.nodes[v], server).1;
    if out.SendAppend? { SendNews(s, v, server); }
    if out.SendSnapshot? { SendCopy(s, v, server); }
  }
}
