/** Three runs in full. In the first, any command is replicated, committed and applied. In the second,
    AppendEntries arrive in order and one InstallSnapshot breaks Log Matching. In the third, one AppendEntries
    arrives late and two state machines are given different commands for one index. */
module RaftScenario {
  import opened RaftTypes
  import opened RaftSystem
  import S = RaftStep
  import R = RaftSafety
  import opened RaftDrive

  const A := Entry(1, 1, [1])
  const B := Entry(1, 2, [2])
  const C := Entry(2, 1, [3])
  const D := Entry(2, 2, [4])

  // ---------- election and replication as whole exchanges ----------

  /** A request, its grant by a peer of an earlier term, and the counting of the grant. */
  lemma GainVote(P: Sys -> bool, ordered: bool, s: Sys, c: nat, v: nat, request: VoteArgs) returns (s': Sys)
    requires Closed(P, ordered) && P(s) && c < |s.nodes| && v < |s.nodes| && c != v
    requires request in s.net.voteReqs && request.candidate == c
    requires var n, m := s.nodes[c], s.nodes[v];
      && |n.log| > 0 && |m.log| > 0 && n.role == Candidate && n.currentTerm == request.term && v in n.awaiting
      && m.currentTerm < request.term && S.UpToDate(m, request)
    ensures P(s') && Keeps(s, s') && SameSeen(s, s') && |s'.nodes| == |s.nodes|
    ensures var n, m, x, y := s.nodes[c], s.nodes[v], s'.nodes[c], s'.nodes[v];
      && s'.nodes == s.nodes[v := y][c := x]
      && x == S.VoteReplied(n, v, request.term, VoteReply(request.term, true))
      && y == m.(role := Follower, currentTerm := request.term, votedFor := c, disk := y.disk)
  {
    var reply := S.RequestVote(s.nodes[v], request).1;
    var s1 := DoVote(P, ordered, s, v, request);
    s' := DoCount(P, ordered, s1, c, VoteMsg(v, request, reply));
  }

  /** A message from `l` to `f`, its handling, and the handling of the reply. */
  lemma Round(P: Sys -> bool, ordered: bool, s: Sys, l: nat, f: nat) returns (s': Sys)
    requires Closed(P, ordered) && P(s) && l < |s.nodes| && f < |s.nodes| && l != f && |s.nodes[f].log| > 0
    requires var n := s.nodes[l];
      && S.WellFormed(n) && n.me == l && f < n.peers && n.role == Leader && S.PrepareSend(n, f).1.SendAppend?
    requires ordered ==> Unseen(s, f, s.nodes[l].currentTerm)
    ensures P(s') && Keeps(s, s')
    ensures var (n, out) := S.PrepareSend(s.nodes[l], f);
      var (y, reply) := S.AppendEntries(s.nodes[f], out.append);
      s'.nodes == s.nodes[f := y][l := S.AppendReplied(n, f, out.append, reply)]
    ensures forall u: nat, t: nat {:trigger Unseen(s', u, t)} ::
      Unseen(s, u, t) && (u != f || t != s.nodes[l].currentTerm) ==> Unseen(s', u, t)
  {
    var n, args := S.PrepareSend(s.nodes[l], f).0, S.PrepareSend(s.nodes[l], f).1.append;
    assert args.term == s.nodes[l].currentTerm && args.leader == l && S.WellFormed(n) && n.peers == s.nodes[l].peers;
    var s1, m := DoSend(P, ordered, s, l, f);
    assert s1.nodes[f] == s.nodes[f];
    var reply := S.AppendEntries(s1.nodes[f], args).1;
    var s2 := DoAppend(P, ordered, s1, f, m);
    assert s2.nodes[l] == n;
    s' := DoAck(P, ordered, s2, l, AppendAck(f, args, reply));
    forall u: nat, t: nat | Unseen(s, u, t) && (u != f || t != args.term)
      ensures Unseen(s', u, t)
    {
      assert Unseen(s1, u, t) && Unseen(s2, u, t);
    }
  }

  /** A peer that never took a snapshot. */
  ghost predicate Has(n: Node, me: nat, peers: nat, term: nat, log: seq<Entry>) {
    && n.me == me && n.peers == peers && n.currentTerm == term && n.log == log && |log| > 0 && n.lastIncludeIndex == 0
  }

  ghost predicate Runs(n: Node, me: nat, peers: nat, term: nat, votes: nat, log: seq<Entry>) {
    Has(n, me, peers, term, log) && n.role == Candidate && n.votes == votes && n.commitIndex == n.lastApplied == 0
  }

  ghost predicate Leads(n: Node, me: nat, term: nat, log: seq<Entry>, next: seq<int>, matched: seq<int>) {
    && Has(n, me, |next|, term, log) && me < |next| == |matched| && n.role == Leader
    && n.commitIndex == n.lastApplied == 0
    && n.nextIndex == next && n.matchIndex == matched
  }

  lemma StartNode(n: nat, v: nat)
    requires v < n && n >= 2
    ensures var x := StartState(n).nodes[v];
      && Has(x, v, n, 0, [GENESIS]) && x.commitIndex == x.lastApplied == 0
      && Unseen(StartState(n), v, 1) && Unseen(StartState(n), v, 2)
  {
  }

  lemma CampaignNode(n: Node, me: nat, peers: nat, term: nat, log: seq<Entry>)
    requires Has(n, me, peers, term, log) && peers >= 2 && n.commitIndex == n.lastApplied == 0
    ensures var (x, args) := S.StartElection(n);
      && Runs(x, me, peers, term + 1, 1, log) && (forall v: nat :: v < peers && v != me ==> v in x.awaiting)
      && args == VoteArgs(term + 1, me, |log| - 1, log[|log| - 1].term)
  {
  }

  lemma CountNode(n: Node, v: nat, me: nat, peers: nat, term: nat, votes: nat, log: seq<Entry>)
    requires me < peers && Runs(n, me, peers, term, votes, log)
    ensures var x := S.VoteReplied(n, v, term, VoteReply(term, true));
      && x.awaiting == n.awaiting - {v}
      && if votes + 1 > peers / 2
         then Leads(x, me, term, log, seq(peers, _ => |log|), seq(peers, _ => 0))
         else Runs(x, me, peers, term, votes + 1, log)
  {
  }

  lemma ProposeNode(n: Node, me: nat, term: nat, log: seq<Entry>, next: seq<int>, matched: seq<int>, c: Bytes)
    requires Leads(n, me, term, log, next, matched) && |next| >= 2
    ensures Leads(S.Start(n, c).0, me, term, log + [Entry(term, |log|, c)], next, matched)
  {
  }

  /** A leader that has shipped nothing sends its whole log, which a peer without entries takes. */
  lemma FullRound(l: Node, f: Node, me: nat, to: nat, term: nat, tf: nat, entries: seq<Entry>, next: seq<int>,
                  matched: seq<int>)
    requires Leads(l, me, term, [GENESIS] + entries, next, matched) && to < |next| && to != me && next[to] == 1
    requires tf <= term
    requires Has(f, to, |next|, tf, [GENESIS]) && entries != [] && S.AdvanceCommit(l) == l
    ensures S.WellFormed(l) && S.PrepareSend(l, to) == (l, SendAppend(AppendArgs(term, me, 0, 0, entries, 0)))
    ensures var (y, reply) := S.AppendEntries(f, AppendArgs(term, me, 0, 0, entries, 0));
      && Has(y, to, |next|, term, [GENESIS] + entries) && y.commitIndex == f.commitIndex
      && y.lastApplied == f.lastApplied
      && Leads(S.AppendReplied(l, to, AppendArgs(term, me, 0, 0, entries, 0), reply), me, term, [GENESIS] + entries,
               next[to := |entries| + 1], matched[to := |entries|])
  {
    var args := AppendArgs(term, me, 0, 0, entries, 0);
    assert l.log[0] == GENESIS && l.log[1..] == entries;
    assert [GENESIS][..1] + entries == [GENESIS] + entries;
  }

  /** Without two others at an index nothing can be committed among five, without one among three. */
  lemma NothingMatched(l: Node, me: nat, term: nat, log: seq<Entry>, next: seq<int>, matched: seq<int>)
    requires Leads(l, me, term, log, next, matched) && |next| >= 2
    requires forall N: nat :: 1 <= N < |log| ==> 1 + |S.Matching(l, N)| <= |next| / 2
    ensures S.AdvanceCommit(l) == l
  {
    assert forall N: nat :: !S.Committable(l, N);
  }

  // ---------- a command that is applied ----------

  lemma TwoElect(P: Sys -> bool) returns (s: Sys)
    requires Closed(P, true) && P(StartState(2))
    ensures P(s) && |s.nodes| == 2 && Unseen(s, 1, 1) && Has(s.nodes[1], 1, 2, 1, [GENESIS])
    ensures Leads(s.nodes[0], 0, 1, [GENESIS], seq(2, _ => 1), seq(2, _ => 0))
  {
    var s0 := StartState(2);
    StartNode(2, 0); StartNode(2, 1);
    CampaignNode(s0.nodes[0], 0, 2, 0, [GENESIS]);
    var s1 := DoCampaign(P, true, s0, 0);
    CountNode(s1.nodes[0], 1, 0, 2, 1, 1, [GENESIS]);
    s := GainVote(P, true, s1, 0, 1, VoteArgs(1, 0, 0, 0));
  }

  lemma TwoReplicate(P: Sys -> bool, c: Bytes) returns (s: Sys)
    requires Closed(P, true) && P(StartState(2))
    ensures P(s) && |s.nodes| == 2
    ensures Leads(s.nodes[0], 0, 1, [GENESIS] + [Entry(1, 1, c)], seq(2, _ => 1)[1 := 2], seq(2, _ => 0)[1 := 1])
  {
    var next, matched := seq(2, _ => 1), seq(2, _ => 0);
    var s0 := TwoElect(P);
    ProposeNode(s0.nodes[0], 0, 1, [GENESIS], next, matched, c);
    var s1 := DoPropose(P, true, s0, 0, c);
    assert S.Matching(s1.nodes[0], 1) == {};
    NothingMatched(s1.nodes[0], 0, 1, [GENESIS] + [Entry(1, 1, c)], next, matched);
    FullRound(s1.nodes[0], s1.nodes[1], 0, 1, 1, 1, [Entry(1, 1, c)], next, matched);
    assert Unseen(s1, 1, 1);
    s := Round(P, true, s1, 0, 1);
  }

  lemma CommitOne(n: Node, c: Bytes)
    requires Leads(n, 0, 1, [GENESIS] + [Entry(1, 1, c)], seq(2, _ => 1)[1 := 2], seq(2, _ => 0)[1 := 1])
    ensures S.WellFormed(n) && S.PrepareSend(n, 1).1.SendAppend?
    ensures var x := S.PrepareSend(n, 1).0; |x.log| > 0 && x.commitIndex == 1 && (1, c) in CommandsOf(S.Apply(x).1)
  {
    assert S.Matching(n, 1) == {1};
    assert S.Committable(n, 1);
    var x := S.PrepareSend(n, 1).0;
    assert S.Apply(x).1[0] == ApplyCommand(c, 1);
  }

  /** The theorems about runs are not empty: for every command there is a run with ordered AppendEntries that
      elects a leader and replicates, commits and applies it. */
  lemma AnyCommandCanBeApplied(c: Bytes) returns (r: R.Run)
    ensures R.IsOrderedRun(r) && |Last(r).nodes| == 2 && Last(r).nodes[0].commitIndex == 1
    ensures (1, c) in Last(r).hist.emitted
  {
    ReachedIsClosed(true);
    StartIsReached(2, true);
    var P := Reached(true);
    var s0 := TwoReplicate(P, c);
    CommitOne(s0.nodes[0], c);
    var s1, m := DoSend(P, true, s0, 0, 1);
    var s := DoApply(P, true, s1, 0);
    r :| IsEnd(s, true, r);
  }

  // ---------- an InstallSnapshot that breaks Log Matching ----------

  /** One of five wins with two more votes. */
  lemma Elect(P: Sys -> bool, s: Sys, c: nat, v: nat, w: nat, term: nat, tv: nat, tw: nat) returns (s': Sys)
    requires Closed(P, true) && P(s) && |s.nodes| == 5 && c < 5 && v < 5 && w < 5 && c != v && c != w && v != w
    requires Runs(s.nodes[c], c, 5, term, 1, [GENESIS]) && v in s.nodes[c].awaiting && w in s.nodes[c].awaiting
    requires Has(s.nodes[v], v, 5, tv, [GENESIS]) && Has(s.nodes[w], w, 5, tw, [GENESIS]) && tv < term && tw < term
    requires VoteArgs(term, c, 0, 0) in s.net.voteReqs
    ensures P(s') && Keeps(s, s') && SameSeen(s, s') && |s'.nodes| == 5
    ensures s'.nodes == s.nodes[v := s'.nodes[v]][w := s'.nodes[w]][c := s'.nodes[c]]
    ensures Leads(s'.nodes[c], c, term, [GENESIS], seq(5, _ => 1), seq(5, _ => 0))
    ensures Has(s'.nodes[v], v, 5, term, [GENESIS]) && Has(s'.nodes[w], w, 5, term, [GENESIS])
  {
    var request := VoteArgs(term, c, 0, 0);
    CountNode(s.nodes[c], v, c, 5, term, 1, [GENESIS]);
    var s1 := GainVote(P, true, s, c, v, request);
    CountNode(s1.nodes[c], w, c, 5, term, 2, [GENESIS]);
    s' := GainVote(P, true, s1, c, w, request);
  }

  ghost predicate Quiet(s: Sys) {
    forall u: nat {:trigger Unseen(s, u, 1)} {:trigger Unseen(s, u, 2)} :: u < 5 ==> Unseen(s, u, 1) && Unseen(s, u, 2)
  }

  lemma QuietStays(s: Sys, s': Sys)
    requires Quiet(s) && SameSeen(s, s')
    ensures Quiet(s')
  {
    forall u: nat | u < 5 ensures Unseen(s', u, 1) && Unseen(s', u, 2) { assert Unseen(s, u, 1) && Unseen(s, u, 2); }
  }

  lemma FirstCandidate(P: Sys -> bool) returns (s: Sys)
    requires Closed(P, true) && P(StartState(5))
    ensures P(s) && |s.nodes| == 5 && Quiet(s) && VoteArgs(1, 1, 0, 0) in s.net.voteReqs
    ensures Runs(s.nodes[1], 1, 5, 1, 1, [GENESIS]) && 2 in s.nodes[1].awaiting && 3 in s.nodes[1].awaiting
    ensures forall u: nat :: u < 5 && u != 1 ==>
      Has(s.nodes[u], u, 5, 0, [GENESIS]) && s.nodes[u].commitIndex == s.nodes[u].lastApplied == 0
  {
    var s0 := StartState(5);
    forall u: nat | u < 5
      ensures Has(s0.nodes[u], u, 5, 0, [GENESIS]) && s0.nodes[u].commitIndex == s0.nodes[u].lastApplied == 0
      ensures Unseen(s0, u, 1) && Unseen(s0, u, 2)
    {
      StartNode(5, u);
    }
    CampaignNode(s0.nodes[1], 1, 5, 0, [GENESIS]);
    s := DoCampaign(P, true, s0, 1);
  }

  /** Peer 1 leads term 1 with the votes of 2 and 3. */
  lemma FirstLeader(P: Sys -> bool) returns (s: Sys)
    requires Closed(P, true) && P(StartState(5))
    ensures P(s) && |s.nodes| == 5 && Quiet(s)
    ensures Has(s.nodes[0], 0, 5, 0, [GENESIS]) && s.nodes[0].commitIndex == s.nodes[0].lastApplied == 0
    ensures Leads(s.nodes[1], 1, 1, [GENESIS], seq(5, _ => 1), seq(5, _ => 0))
    ensures Has(s.nodes[2], 2, 5, 1, [GENESIS]) && Has(s.nodes[3], 3, 5, 1, [GENESIS])
    ensures Has(s.nodes[4], 4, 5, 0, [GENESIS])
  {
    var s0 := FirstCandidate(P);
    s := Elect(P, s0, 1, 2, 3, 1, 0, 0);
    QuietStays(s0, s);
  }

  /** Peer 1 writes A and B and ships them to 2 alone. */
  lemma FirstWrites(P: Sys -> bool) returns (s: Sys)
    requires Closed(P, true) && P(StartState(5))
    ensures P(s) && |s.nodes| == 5 && (forall u: nat :: u < 5 ==> Unseen(s, u, 2))
    ensures Has(s.nodes[0], 0, 5, 0, [GENESIS]) && s.nodes[0].commitIndex == s.nodes[0].lastApplied == 0
    ensures Has(s.nodes[1], 1, 5, 1, [GENESIS, A, B]) && Has(s.nodes[2], 2, 5, 1, [GENESIS, A, B])
    ensures Has(s.nodes[3], 3, 5, 1, [GENESIS]) && Has(s.nodes[4], 4, 5, 0, [GENESIS])
  {
    var next, matched := seq(5, _ => 1), seq(5, _ => 0);
    var s0 := FirstLeader(P);
    ProposeNode(s0.nodes[1], 1, 1, [GENESIS], next, matched, [1]);
    var s1 := DoPropose(P, true, s0, 1, [1]);
    ProposeNode(s1.nodes[1], 1, 1, [GENESIS] + [A], next, matched, [2]);
    var s2 := DoPropose(P, true, s1, 1, [2]);
    assert [GENESIS] + [A] + [B] == [GENESIS] + [A, B];
    NoneMatched(s2.nodes[1], 1, [GENESIS] + [A, B], 1);
    FullRound(s2.nodes[1], s2.nodes[2], 1, 2, 1, 1, [A, B], next, matched);
    QuietStays(s0, s2);
    assert Unseen(s2, 2, 1);
    s := Round(P, true, s2, 1, 2);
    forall u: nat | u < 5 ensures Unseen(s, u, 2) { assert Unseen(s2, u, 2); }
  }

  lemma NoneMatched(l: Node, me: nat, log: seq<Entry>, term: nat)
    requires Leads(l, me, term, log, seq(5, _ => 1), seq(5, _ => 0))
    ensures S.AdvanceCommit(l) == l
  {
    forall N: nat | 1 <= N < |log| ensures 1 + |S.Matching(l, N)| <= 2 { assert S.Matching(l, N) == {}; }
    NothingMatched(l, me, term, log, seq(5, _ => 1), seq(5, _ => 0));
  }

  /** Peer 0, which saw none of it, leads term 2 with the votes of 3 and 4. */
  lemma SecondLeader(P: Sys -> bool) returns (s: Sys)
    requires Closed(P, true) && P(StartState(5))
    ensures P(s) && |s.nodes| == 5 && (forall u: nat :: u < 5 ==> Unseen(s, u, 2))
    ensures Leads(s.nodes[0], 0, 2, [GENESIS], seq(5, _ => 1), seq(5, _ => 0))
    ensures Has(s.nodes[1], 1, 5, 1, [GENESIS, A, B]) && Has(s.nodes[2], 2, 5, 1, [GENESIS, A, B])
    ensures Has(s.nodes[3], 3, 5, 2, [GENESIS]) && Has(s.nodes[4], 4, 5, 2, [GENESIS])
  {
    var s0 := FirstWrites(P);
    CampaignNode(s0.nodes[0], 0, 5, 0, [GENESIS]);
    var s1 := DoCampaign(P, true, s0, 0);
    CampaignNode(s1.nodes[0], 0, 5, 1, [GENESIS]);
    var s2 := DoCampaign(P, true, s1, 0);
    s := Elect(P, s2, 0, 3, 4, 2, 1, 0);
    forall u: nat | u < 5 ensures Unseen(s, u, 2) { assert Unseen(s0, u, 2); }
  }

  /** It writes C and ships it to 3. */
  lemma SecondShips(P: Sys -> bool) returns (s: Sys)
    requires Closed(P, true) && P(StartState(5))
    ensures P(s) && |s.nodes| == 5 && Unseen(s, 2, 2) && Unseen(s, 4, 2)
    ensures Leads(s.nodes[0], 0, 2, [GENESIS] + [C], seq(5, _ => 1)[3 := 2], seq(5, _ => 0)[3 := 1])
    ensures Has(s.nodes[1], 1, 5, 1, [GENESIS, A, B]) && Has(s.nodes[2], 2, 5, 1, [GENESIS, A, B])
    ensures Has(s.nodes[4], 4, 5, 2, [GENESIS])
  {
    var next, matched := seq(5, _ => 1), seq(5, _ => 0);
    var s0 := SecondLeader(P);
    ProposeNode(s0.nodes[0], 0, 2, [GENESIS], next, matched, [3]);
    var s1 := DoPropose(P, true, s0, 0, [3]);
    NoneMatched(s1.nodes[0], 0, [GENESIS] + [C], 2);
    FullRound(s1.nodes[0], s1.nodes[3], 0, 3, 2, 2, [C], next, matched);
    assert Unseen(s0, 3, 2) && Unseen(s0, 4, 2) && Unseen(s0, 2, 2);
    assert Unseen(s1, 3, 2) && Unseen(s1, 4, 2) && Unseen(s1, 2, 2);
    s := Round(P, true, s1, 0, 3);
    assert Unseen(s, 4, 2) && Unseen(s, 2, 2);
  }

  lemma Progress()
    ensures seq(5, _ => 1)[3 := 2][4 := 2] == [1, 1, 1, 2, 2] && seq(5, _ => 0)[3 := 1][4 := 1] == [0, 0, 0, 1, 1]
    ensures [GENESIS] + [C] == [GENESIS, C]
  {
  }

  /** And to 4. */
  lemma SecondWrites(P: Sys -> bool) returns (s: Sys)
    requires Closed(P, true) && P(StartState(5))
    ensures P(s) && |s.nodes| == 5 && Unseen(s, 2, 2)
    ensures Leads(s.nodes[0], 0, 2, [GENESIS, C], [1, 1, 1, 2, 2], [0, 0, 0, 1, 1])
    ensures Has(s.nodes[1], 1, 5, 1, [GENESIS, A, B]) && Has(s.nodes[2], 2, 5, 1, [GENESIS, A, B])
  {
    var s0 := SecondShips(P);
    OneMatched(s0.nodes[0]);
    FullRound(s0.nodes[0], s0.nodes[4], 0, 4, 2, 2, [C], seq(5, _ => 1)[3 := 2], seq(5, _ => 0)[3 := 1]);
    s := Round(P, true, s0, 0, 4);
    Progress();
    assert Unseen(s, 2, 2);
  }

  lemma OneMatched(l: Node)
    requires Leads(l, 0, 2, [GENESIS] + [C], seq(5, _ => 1)[3 := 2], seq(5, _ => 0)[3 := 1])
    ensures S.AdvanceCommit(l) == l
  {
    assert S.Matching(l, 1) == {3};
    NothingMatched(l, 0, 2, [GENESIS] + [C], seq(5, _ => 1)[3 := 2], seq(5, _ => 0)[3 := 1]);
  }

  /** C is committed, applied and dropped into a snapshot. */
  lemma SecondCompacts(P: Sys -> bool) returns (s: Sys)
    requires Closed(P, true) && P(StartState(5))
    ensures P(s) && |s.nodes| == 5 && Unseen(s, 2, 2)
    ensures HasCompacted(s.nodes[0], 2)
    ensures Has(s.nodes[1], 1, 5, 1, [GENESIS, A, B]) && Has(s.nodes[2], 2, 5, 1, [GENESIS, A, B])
  {
    var s0 := SecondWrites(P);
    CommitNode(s0.nodes[0]);
    var s1, m := DoSend(P, true, s0, 0, 2);
    var s2 := DoApply(P, true, s1, 0);
    s := DoCompact(P, true, s2, 0, 1, []);
    assert Unseen(s0, 2, 2);
  }

  ghost predicate HasCompacted(n: Node, next: int) {
    && n.me == 0 && n.peers == 5 && n.role == Leader && n.currentTerm == 2 && n.lastIncludeIndex == 1
    && n.lastIncludeTerm == 2
    && n.log == [Entry(2, 1, [])] && n.commitIndex == 1 && n.snapshot == []
    && |n.nextIndex| == |n.matchIndex| == 5 && n.nextIndex[2] == next
  }

  lemma CommitNode(n: Node)
    requires Leads(n, 0, 2, [GENESIS, C], [1, 1, 1, 2, 2], [0, 0, 0, 1, 1])
    ensures S.WellFormed(n) && S.PrepareSend(n, 2).1.SendAppend?
    ensures var x := S.Apply(S.PrepareSend(n, 2).0).0;
      S.WellFormed(x) && x.lastApplied == 1 && S.LastIndex(x) == 1 && HasCompacted(S.TakeSnapshot(x, 1, []), 2)
  {
    assert S.Matching(n, 1) == {3, 4};
    assert S.Committable(n, 1);
    var x := S.Apply(S.PrepareSend(n, 2).0).0;
    assert x.commitIndex == 1 && x.log[1] == C;
    CutAfterC(x);
  }

  lemma CutAfterC(x: Node)
    requires x.log == [GENESIS, C] && x.lastIncludeIndex == 0
    ensures S.CutAt(x, 1, 2) == [Entry(2, 1, [])]
  {
  }

  /** Peer 2 refuses what follows the snapshot, so the snapshot itself is next. */
  lemma SecondIsRefused(P: Sys -> bool) returns (s: Sys)
    requires Closed(P, true) && P(StartState(5))
    ensures P(s) && |s.nodes| == 5 && HasCompacted(s.nodes[0], 1)
    ensures Has(s.nodes[1], 1, 5, 1, [GENESIS, A, B]) && Has(s.nodes[2], 2, 5, 2, [GENESIS, A, B])
  {
    var s0 := SecondCompacts(P);
    RefuseNode(s0.nodes[0], s0.nodes[2]);
    s := Round(P, true, s0, 0, 2);
  }

  lemma RefuseNode(l: Node, f: Node)
    requires HasCompacted(l, 2) && Has(f, 2, 5, 1, [GENESIS, A, B])
    ensures S.WellFormed(l) && S.PrepareSend(l, 2) == (l, SendAppend(AppendArgs(2, 0, 1, 2, [], 1)))
    ensures var (y, reply) := S.AppendEntries(f, AppendArgs(2, 0, 1, 2, [], 1));
      && Has(y, 2, 5, 2, [GENESIS, A, B])
      && HasCompacted(S.AppendReplied(l, 2, AppendArgs(2, 0, 1, 2, [], 1), reply), 1)
  {
    S.NoneBelow(l, 1);
    assert l.log[1..] == [];
    assert S.RunStart(f.log, 1) == 1;
  }

  lemma SecondInstalls(P: Sys -> bool) returns (s: Sys)
    requires Closed(P, true) && P(StartState(5))
    ensures P(s) && |s.nodes| == 5 && Has(s.nodes[1], 1, 5, 1, [GENESIS, A, B])
    ensures s.nodes[2].lastIncludeIndex == 1 && s.nodes[2].log == [Entry(2, 1, []), B]
  {
    var s0 := SecondIsRefused(P);
    InstallNode(s0.nodes[0], s0.nodes[2], SnapshotArgs(2, 0, 1, 2, []));
    var s1, m := DoSendSnapshot(P, true, s0, 0, 2);
    s := DoInstall(P, true, s1, 2, m);
  }

  /** An ordered run of five peers in which the leader of term 2 sends a snapshot to a peer that holds an unfinished
      log of term 1. Once it is installed, that peer and the old leader have the same entry at index 2 and different
      terms at index 1. */
  lemma InstallBreaksLogMatching() returns (r: R.Run)
    ensures R.IsOrderedRun(r) && |Last(r).nodes| == 5
    ensures var x, n := Last(r).nodes[2], Last(r).nodes[1];
      && R.Retains(x, 1) && R.Retains(x, 2) && R.Retains(n, 1) && R.Retains(n, 2)
      && R.EntryAt(x, 2) == R.EntryAt(n, 2) && R.EntryAt(x, 1).term != R.EntryAt(n, 1).term
  {
    ReachedIsClosed(true);
    StartIsReached(5, true);
    var s := SecondInstalls(Reached(true));
    r :| IsEnd(s, true, r);
  }

  lemma InstallNode(l: Node, f: Node, args: SnapshotArgs)
    requires HasCompacted(l, 1) && Has(f, 2, 5, 2, [GENESIS, A, B]) && args == SnapshotArgs(2, 0, 1, 2, [])
    ensures S.WellFormed(l) && S.PrepareSend(l, 2).1 == SendSnapshot(args)
    ensures var x := S.InstallSnapshot(f, args).0; x.lastIncludeIndex == 1 && x.log == [Entry(2, 1, []), B]
  {
    S.NoneBelow(l, 1);
    assert f.log[2..] == [B];
  }

  // ---------- a late AppendEntries that makes two state machines differ ----------

  ghost predicate Young(n: Node, me: nat, term: nat, log: seq<Entry>) {
    Has(n, me, 3, term, log) && n.commitIndex == n.lastApplied == 0
  }

  lemma LateCandidate(P: Sys -> bool) returns (s: Sys)
    requires Closed(P, false) && P(StartState(3))
    ensures P(s) && |s.nodes| == 3 && VoteArgs(1, 0, 0, 0) in s.net.voteReqs
    ensures Runs(s.nodes[0], 0, 3, 1, 1, [GENESIS]) && 1 in s.nodes[0].awaiting
    ensures Young(s.nodes[1], 1, 0, [GENESIS]) && Young(s.nodes[2], 2, 0, [GENESIS])
  {
    var s0 := StartState(3);
    StartNode(3, 0); StartNode(3, 1); StartNode(3, 2);
    CampaignNode(s0.nodes[0], 0, 3, 0, [GENESIS]);
    s := DoCampaign(P, false, s0, 0);
  }

  /** Peer 0 leads term 1 with the vote of 1. */
  lemma LateElected(P: Sys -> bool) returns (s: Sys)
    requires Closed(P, false) && P(StartState(3))
    ensures P(s) && |s.nodes| == 3
    ensures Leads(s.nodes[0], 0, 1, [GENESIS], seq(3, _ => 1), seq(3, _ => 0))
    ensures Young(s.nodes[1], 1, 1, [GENESIS]) && Young(s.nodes[2], 2, 0, [GENESIS])
  {
    var s0 := LateCandidate(P);
    CountNode(s0.nodes[0], 1, 0, 3, 1, 1, [GENESIS]);
    s := GainVote(P, false, s0, 0, 1, VoteArgs(1, 0, 0, 0));
  }

  ghost predicate Old(m: AppendMsg) {
    m.to == 1 && m.args == AppendArgs(1, 0, 0, 0, [A], 0)
  }

  /** It writes A and sends it; that message is late. */
  lemma LateSent(P: Sys -> bool) returns (s: Sys, m: AppendMsg)
    requires Closed(P, false) && P(StartState(3))
    ensures P(s) && |s.nodes| == 3 && Old(m) && m in s.net.appends
    ensures Leads(s.nodes[0], 0, 1, [GENESIS] + [A], seq(3, _ => 1), seq(3, _ => 0))
    ensures Young(s.nodes[1], 1, 1, [GENESIS]) && Young(s.nodes[2], 2, 0, [GENESIS])
  {
    var next, matched := seq(3, _ => 1), seq(3, _ => 0);
    var s0 := LateElected(P);
    ProposeNode(s0.nodes[0], 0, 1, [GENESIS], next, matched, [1]);
    var s1 := DoPropose(P, false, s0, 0, [1]);
    NoneMatchedOfThree(s1.nodes[0], 0, 1, [GENESIS] + [A], next);
    FullRound(s1.nodes[0], s1.nodes[1], 0, 1, 1, 1, [A], next, matched);
    s, m := DoSend(P, false, s1, 0, 1);
  }

  lemma NoneMatchedOfThree(l: Node, me: nat, term: nat, log: seq<Entry>, next: seq<int>)
    requires Leads(l, me, term, log, next, seq(3, _ => 0))
    ensures S.AdvanceCommit(l) == l
  {
    forall N: nat | 1 <= N < |log| ensures 1 + |S.Matching(l, N)| <= 1 { assert S.Matching(l, N) == {}; }
    NothingMatched(l, me, term, log, next, seq(3, _ => 0));
  }

  /** It writes B and sends both, which 1 takes. */
  lemma LateAccepted(P: Sys -> bool) returns (s: Sys, m: AppendMsg)
    requires Closed(P, false) && P(StartState(3))
    ensures P(s) && |s.nodes| == 3 && Old(m) && m in s.net.appends
    ensures Leads(s.nodes[0], 0, 1, [GENESIS] + [A, B], seq(3, _ => 1)[1 := 3], seq(3, _ => 0)[1 := 2])
    ensures Young(s.nodes[1], 1, 1, [GENESIS] + [A, B]) && Young(s.nodes[2], 2, 0, [GENESIS])
  {
    var next, matched := seq(3, _ => 1), seq(3, _ => 0);
    var s0;
    s0, m := LateSent(P);
    ProposeNode(s0.nodes[0], 0, 1, [GENESIS] + [A], next, matched, [2]);
    var s1 := DoPropose(P, false, s0, 0, [2]);
    assert [GENESIS] + [A] + [B] == [GENESIS] + [A, B];
    NoneMatchedOfThree(s1.nodes[0], 0, 1, [GENESIS] + [A, B], next);
    FullRound(s1.nodes[0], s1.nodes[1], 0, 1, 1, 1, [A, B], next, matched);
    s := Round(P, false, s1, 0, 1);
  }

  /** What a leader of two entries does once one of the others has both: commit and apply both. */
  lemma CommitBoth(n: Node, me: nat, other: nat, to: nat, term: nat, e: Entry, f: Entry, next: seq<int>,
                   matched: seq<int>)
    requires Leads(n, me, term, [GENESIS] + [e, f], next, matched) && |next| == 3 && other < 3 && to < 3
    requires other != me && to != me
    requires matched[other] == 2 && f.term == term && 1 <= next[to] <= 3
    ensures S.WellFormed(n) && S.PrepareSend(n, to).1.SendAppend?
    ensures var x := S.PrepareSend(n, to).0;
      |x.log| > 0 && (2, f.command) in CommandsOf(S.Apply(x).1)
  {
    assert other in S.Matching(n, 2);
    assert S.Committable(n, 2) by { assert |S.Matching(n, 2)| >= 1; }
    var x := S.PrepareSend(n, to).0;
    assert x.commitIndex == 2 && x.log[2] == f;
    var msgs := S.Apply(x).1;
    assert msgs[1] == ApplyCommand(f.command, 2);
  }

  /** B is applied at peer 0; then the first message arrives at 1 and cuts B off. */
  lemma LateArrives(P: Sys -> bool) returns (s: Sys)
    requires Closed(P, false) && P(StartState(3))
    ensures P(s) && |s.nodes| == 3 && (2, [2]) in s.hist.emitted
    ensures Young(s.nodes[1], 1, 1, [GENESIS, A]) && Young(s.nodes[2], 2, 0, [GENESIS])
  {
    var s0, m := LateAccepted(P);
    CommitBoth(s0.nodes[0], 0, 1, 2, 1, A, B, seq(3, _ => 1)[1 := 3], seq(3, _ => 0)[1 := 2]);
    var s1, m1 := DoSend(P, false, s0, 0, 2);
    var s2 := DoApply(P, false, s1, 0);
    CutNode(s2.nodes[1]);
    s := DoAppend(P, false, s2, 1, m);
  }

  lemma CutNode(n: Node)
    requires Young(n, 1, 1, [GENESIS] + [A, B])
    ensures Young(S.AppendEntries(n, AppendArgs(1, 0, 0, 0, [A], 0)).0, 1, 1, [GENESIS, A])
  {
    assert n.log[..1] + [A] == [GENESIS, A];
  }

  /** Peer 1 leads term 2 with the vote of 2 and writes D at B's index. */
  lemma LateSuccessor(P: Sys -> bool) returns (s: Sys)
    requires Closed(P, false) && P(StartState(3))
    ensures P(s) && |s.nodes| == 3 && (2, [2]) in s.hist.emitted
    ensures Leads(s.nodes[1], 1, 2, [GENESIS] + [A, D], seq(3, _ => 2), seq(3, _ => 0))
    ensures Young(s.nodes[2], 2, 2, [GENESIS])
  {
    var s0 := LateArrives(P);
    CampaignNode(s0.nodes[1], 1, 3, 1, [GENESIS, A]);
    var s1 := DoCampaign(P, false, s0, 1);
    CountNode(s1.nodes[1], 2, 1, 3, 2, 1, [GENESIS, A]);
    var s2 := GainVote(P, false, s1, 1, 2, VoteArgs(2, 1, 1, 1));
    ProposeNode(s2.nodes[1], 1, 2, [GENESIS, A], seq(3, _ => 2), seq(3, _ => 0), [4]);
    assert [GENESIS, A] + [D] == [GENESIS] + [A, D];
    s := DoPropose(P, false, s2, 1, [4]);
  }

  lemma BackUpNode(l: Node, f: Node)
    requires Leads(l, 1, 2, [GENESIS] + [A, D], seq(3, _ => 2), seq(3, _ => 0)) && Young(f, 2, 2, [GENESIS])
    requires S.AdvanceCommit(l) == l
    ensures S.WellFormed(l) && S.PrepareSend(l, 2) == (l, SendAppend(AppendArgs(2, 1, 1, 1, [D], 0)))
    ensures var (y, reply) := S.AppendEntries(f, AppendArgs(2, 1, 1, 1, [D], 0));
      && Young(y, 2, 2, [GENESIS])
      && Leads(S.AppendReplied(l, 2, AppendArgs(2, 1, 1, 1, [D], 0), reply), 1, 2, [GENESIS] + [A, D],
               seq(3, _ => 2)[2 := 1], seq(3, _ => 0))
  {
    assert l.log[2..] == [D];
  }

  /** Peer 2 refuses once and then takes A and D. */
  lemma LateReplicated(P: Sys -> bool) returns (s: Sys)
    requires Closed(P, false) && P(StartState(3))
    ensures P(s) && |s.nodes| == 3 && (2, [2]) in s.hist.emitted
    ensures Leads(s.nodes[1], 1, 2, [GENESIS] + [A, D], seq(3, _ => 2)[2 := 1][2 := 3], seq(3, _ => 0)[2 := 2])
  {
    var s0 := LateSuccessor(P);
    NoneMatchedOfThree(s0.nodes[1], 1, 2, [GENESIS] + [A, D], seq(3, _ => 2));
    BackUpNode(s0.nodes[1], s0.nodes[2]);
    var s1 := Round(P, false, s0, 1, 2);
    NoneMatchedOfThree(s1.nodes[1], 1, 2, [GENESIS] + [A, D], seq(3, _ => 2)[2 := 1]);
    FullRound(s1.nodes[1], s1.nodes[2], 1, 2, 2, 2, [A, D], seq(3, _ => 2)[2 := 1], seq(3, _ => 0));
    s := Round(P, false, s1, 1, 2);
  }

  /** Without the ordering assumption State Machine Safety fails: one late message of a leader and its own term
      is enough for two state machines to be given different commands for one index. */
  lemma LateMessageSplitsStateMachines() returns (r: R.Run)
    ensures R.IsRun(r) && (2, [2]) in Last(r).hist.emitted && (2, [4]) in Last(r).hist.emitted
  {
    ReachedIsClosed(false);
    StartIsReached(3, false);
    var P := Reached(false);
    var s0 := LateReplicated(P);
    CommitBoth(s0.nodes[1], 1, 2, 0, 2, A, D, seq(3, _ => 2)[2 := 1][2 := 3], seq(3, _ => 0)[2 := 2]);
    var s1, m := DoSend(P, false, s0, 1, 0);
    var s := DoApply(P, false, s1, 1);
    r :| IsEnd(s, false, r);
  }
}
