/** Election Safety (Raft, section 5.2): at most one peer ever leads in a term. */
module RaftElection {
  import opened RaftTypes
  import opened RaftSystem
  import S = RaftStep

  /** A vote was for someone who stood, and its caster is past that term or still bound by it. */
  ghost predicate GrantOk(nodes: seq<Node>, candLog: map<Candidacy, seq<Entry>>, g: Vote) {
    && g.voter < |nodes| && g.candidate < |nodes|
    && Candidacy(g.term, g.candidate) in candLog
    && nodes[g.voter].currentTerm >= g.term
    && (nodes[g.voter].currentTerm == g.term ==> nodes[g.voter].votedFor == g.candidate)
  }

  /** A reign rests on a majority of votes. */
  ghost predicate ReignOk(nodes: seq<Node>, granted: set<Vote>, led: map<nat, Reign>, t: nat) {
    && t in led
    && t >= 1 && led[t].leader < |nodes| && nodes[led[t].leader].currentTerm >= t
    && led[t].voters <= Ids(|nodes|) && |led[t].voters| > |nodes| / 2
    && forall q :: q in led[t].voters ==> Vote(q, t, led[t].leader) in granted
  }

  ghost predicate CandidateOk(n: Node, h: Hist, supporters: set<nat>) {
    n.role == Candidate ==>
      && Candidacy(n.currentTerm, n.me) in h.candLog
      && |supporters| == n.votes && supporters !! n.awaiting && supporters <= Ids(n.peers) && n.awaiting <= Ids(n.peers)
      && (forall q :: q in supporters ==> Vote(q, n.currentTerm, n.me) in h.granted)
      && (n.currentTerm in h.led ==> h.led[n.currentTerm].leader != n.me)
      && n.currentTerm >= 1
  }

  ghost predicate LeaderOk(n: Node, led: map<nat, Reign>) {
    n.role == Leader ==> n.currentTerm in led && led[n.currentTerm].leader == n.me
  }

  ghost predicate OneVote(granted: set<Vote>) {
    forall q, t, c, c' :: Vote(q, t, c) in granted && Vote(q, t, c') in granted ==> c == c'
  }

  ghost predicate CandidaciesOk(nodes: seq<Node>, stands: set<Candidacy>) {
    forall k :: k in stands ==> k.id < |nodes| && nodes[k.id].currentTerm >= k.term
  }

  ghost predicate VoteMailOk(net: Net, stands: set<Candidacy>, granted: set<Vote>) {
    && (forall r :: r in net.voteReqs ==> Candidacy(r.term, r.candidate) in stands)
    && (forall m :: m in net.voteReplies && m.reply.granted && m.reply.term == m.args.term ==>
          Vote(m.from, m.args.term, m.args.candidate) in granted)
  }

  ghost predicate GrantsOk(nodes: seq<Node>, candLog: map<Candidacy, seq<Entry>>, granted: set<Vote>) {
    forall g {:trigger GrantOk(nodes, candLog, g)} :: g in granted ==> GrantOk(nodes, candLog, g)
  }

  ghost predicate ReignsOk(nodes: seq<Node>, granted: set<Vote>, led: map<nat, Reign>) {
    forall t {:trigger ReignOk(nodes, granted, led, t)} :: t in led ==> ReignOk(nodes, granted, led, t)
  }

  ghost predicate PeerOk(s: Sys, v: nat)
    requires Sized(s)
  {
    v < |s.nodes| ==>
      CandidateOk(s.nodes[v], s.hist, s.hist.supporters[v]) && LeaderOk(s.nodes[v], s.hist.led)
  }

  ghost predicate PeersOk(s: Sys)
    requires Sized(s)
  {
    forall v: nat {:trigger PeerOk(s, v)} :: v < |s.nodes| ==> PeerOk(s, v)
  }

  ghost predicate Elections(s: Sys) {
    && Sized(s)
    && GrantsOk(s.nodes, s.hist.candLog, s.hist.granted)
    && OneVote(s.hist.granted)
    && ReignsOk(s.nodes, s.hist.granted, s.hist.led)
    && CandidaciesOk(s.nodes, s.hist.candLog.Keys)
    && PeersOk(s)
    && VoteMailOk(s.net, s.hist.candLog.Keys, s.hist.granted)
  }

  /** Two majorities share a peer. */
  lemma QuorumsMeet(n: nat, a: set<nat>, b: set<nat>) returns (q: nat)
    requires a <= Ids(n) && b <= Ids(n) && |a| > n / 2 && |b| > n / 2
    ensures q in a && q in b
  {
    if a * b == {} {
      assert |a + b| == |a| + |b|;
      Within(a + b, Ids(n));
      assert false;
    }
    q :| q in a * b;
  }

  lemma ElectionsAtStart(s: Sys)
    requires Init(s)
    ensures Elections(s)
  {
  }

  // ---------- steps that neither start, grant nor win an election ----------

  ghost predicate SameReigns(led: map<nat, Reign>, led': map<nat, Reign>) {
    led.Keys == led'.Keys &&
    forall t :: t in led ==> led'[t].leader == led[t].leader && led'[t].voters == led[t].voters
  }

  /** The peer keeps its vote while it keeps its term, and keeps its role or becomes a follower. */
  ghost predicate Calm(n: Node, x: Node) {
    && x.me == n.me && x.peers == n.peers && S.WellFormed(x)
    && x.currentTerm >= n.currentTerm
    && (x.currentTerm == n.currentTerm ==> x.votedFor == n.votedFor)
    && (x.role == Follower ||
        (x.role == n.role && x.currentTerm == n.currentTerm && x.votes == n.votes && x.awaiting == n.awaiting))
  }

  lemma CalmStep(s: Sys, s': Sys, v: nat)
    requires Elections(s) && v < |s.nodes| && Sized(s')
    requires |s'.nodes| == |s.nodes| && s'.nodes == s.nodes[v := s'.nodes[v]] && Calm(s.nodes[v], s'.nodes[v])
    requires s'.hist.candLog == s.hist.candLog && s'.hist.granted == s.hist.granted
    requires s'.hist.supporters == s.hist.supporters && SameReigns(s.hist.led, s'.hist.led)
    requires s'.net.voteReqs == s.net.voteReqs
    requires forall m :: m in s'.net.voteReplies && m.reply.granted ==> m in s.net.voteReplies
    ensures Elections(s')
  {
    KeepGrants(s.nodes, s'.nodes, s.hist.candLog, s'.hist.candLog, s.hist.granted);
    KeepReigns(s.nodes, s'.nodes, s.hist.granted, s'.hist.granted, s.hist.led, s'.hist.led);
    forall u: nat | u < |s'.nodes|
      ensures PeerOk(s', u)
    {
      assert PeerOk(s, u);
    }
  }

  // ---------- steps of an election ----------

  /** The peer's term does not fall, and within a term its vote is final. */
  ghost predicate Later(n: Node, x: Node) {
    x.currentTerm > n.currentTerm ||
    (x.currentTerm == n.currentTerm && (x.votedFor == n.votedFor || n.votedFor == -1))
  }

  ghost predicate AllLater(nodes: seq<Node>, nodes': seq<Node>) {
    |nodes| == |nodes'| && forall u :: 0 <= u < |nodes| ==> Later(nodes[u], nodes'[u])
  }

  lemma KeepGrants(nodes: seq<Node>, nodes': seq<Node>, candLog: map<Candidacy, seq<Entry>>,
                   candLog': map<Candidacy, seq<Entry>>, granted: set<Vote>)
    requires AllLater(nodes, nodes') && candLog.Keys <= candLog'.Keys
    requires GrantsOk(nodes, candLog, granted)
    ensures GrantsOk(nodes', candLog', granted)
  {
    forall g | g in granted
      ensures GrantOk(nodes', candLog', g)
    {
      assert GrantOk(nodes, candLog, g);
      assert Later(nodes[g.voter], nodes'[g.voter]);
    }
  }

  lemma KeepReigns(nodes: seq<Node>, nodes': seq<Node>, granted: set<Vote>, granted': set<Vote>,
                   led: map<nat, Reign>, led': map<nat, Reign>)
    requires AllLater(nodes, nodes') && granted <= granted' && SameReigns(led, led')
    requires ReignsOk(nodes, granted, led)
    ensures ReignsOk(nodes', granted', led')
  {
    forall t | t in led'
      ensures ReignOk(nodes', granted', led', t)
    {
      assert ReignOk(nodes, granted, led, t);
      assert Later(nodes[led[t].leader], nodes'[led[t].leader]);
    }
  }

  /** What a step of an election has in common: one peer moves on and the record of elections grows. */
  ghost predicate Contest(s: Sys, s': Sys, v: nat) {
    && Sized(s) && Sized(s') && v < |s.nodes| == |s'.nodes|
    && s'.nodes == s.nodes[v := s'.nodes[v]] && Later(s.nodes[v], s'.nodes[v])
    && s'.hist.supporters == s.hist.supporters[v := s'.hist.supporters[v]]
    && (forall k :: k in s.hist.candLog ==> k in s'.hist.candLog)
    && s.hist.granted <= s'.hist.granted
    && (forall t :: t in s.hist.led ==> t in s'.hist.led && s'.hist.led[t] == s.hist.led[t])
  }

  lemma KeepPeers(s: Sys, s': Sys, v: nat)
    requires Sized(s) && PeersOk(s) && Contest(s, s', v)
    requires forall t :: t in s'.hist.led && t !in s.hist.led ==> s'.hist.led[t].leader == v
    requires PeerOk(s', v)
    ensures PeersOk(s')
  {
    forall u: nat | u < |s'.nodes| && u != v
      ensures PeerOk(s', u)
    {
      assert PeerOk(s, u);
    }
  }

  lemma AddVote(granted: set<Vote>, g: Vote)
    requires OneVote(granted)
    requires forall c :: Vote(g.voter, g.term, c) in granted ==> c == g.candidate
    ensures OneVote(granted + {g})
  {
  }

  lemma CampaignStep(s: Sys, s': Sys, v: nat, request: VoteArgs)
    requires Elections(s) && Contest(s, s', v)
    requires var n, x := s.nodes[v], s'.nodes[v];
      && x.role == Candidate && x.currentTerm == n.currentTerm + 1 && x.votedFor == v
      && x.votes == 1 && v !in x.awaiting && x.awaiting <= Ids(|s.nodes|)
      && s'.hist.candLog.Keys == s.hist.candLog.Keys + {Candidacy(x.currentTerm, v)}
      && s'.hist.granted == s.hist.granted + {Vote(v, x.currentTerm, v)}
      && s'.hist.supporters[v] == {v} && s'.hist.led == s.hist.led
      && s'.net == s.net.(voteReqs := s.net.voteReqs + {request})
      && request.term == x.currentTerm && request.candidate == v
    ensures Elections(s')
  {
    var t := s'.nodes[v].currentTerm;
    assert GrantsOk(s'.nodes, s'.hist.candLog, s'.hist.granted) by {
      KeepGrants(s.nodes, s'.nodes, s.hist.candLog, s'.hist.candLog, s.hist.granted);
      assert GrantOk(s'.nodes, s'.hist.candLog, Vote(v, t, v));
    }
    assert OneVote(s'.hist.granted) by {
      forall c
        ensures Vote(v, t, c) !in s.hist.granted
      {
        assert Vote(v, t, c) in s.hist.granted ==> GrantOk(s.nodes, s.hist.candLog, Vote(v, t, c));
      }
      AddVote(s.hist.granted, Vote(v, t, v));
    }
    assert PeerOk(s', v) by {
      if t in s.hist.led { assert ReignOk(s.nodes, s.hist.granted, s.hist.led, t); }
    }
    KeepReigns(s.nodes, s'.nodes, s.hist.granted, s'.hist.granted, s.hist.led, s'.hist.led);
    KeepPeers(s, s', v);
  }

  lemma GrantStep(s: Sys, s': Sys, v: nat, request: VoteArgs)
    requires Elections(s) && Contest(s, s', v) && request in s.net.voteReqs
    requires var n, x := s.nodes[v], s'.nodes[v];
      && x.currentTerm == request.term && x.votedFor == request.candidate
      && (x.role == Follower
          || (x.role == n.role && x.currentTerm == n.currentTerm && x.votes == n.votes && x.awaiting == n.awaiting))
      && (n.currentTerm == x.currentTerm ==> n.votedFor == -1 || n.votedFor == x.votedFor)
      && s'.hist == s.hist.(granted := s.hist.granted + {Vote(v, request.term, request.candidate)})
      && s'.net.voteReqs == s.net.voteReqs
      && (forall m :: m in s'.net.voteReplies ==>
            m in s.net.voteReplies || (m.from == v && m.args == request))
    ensures Elections(s')
  {
    var g0 := Vote(v, request.term, request.candidate);
    assert GrantsOk(s'.nodes, s'.hist.candLog, s'.hist.granted) by {
      KeepGrants(s.nodes, s'.nodes, s.hist.candLog, s'.hist.candLog, s.hist.granted);
      assert GrantOk(s'.nodes, s'.hist.candLog, g0);
    }
    assert OneVote(s'.hist.granted) by {
      forall c | Vote(v, request.term, c) in s.hist.granted
        ensures c == request.candidate
      {
        assert GrantOk(s.nodes, s.hist.candLog, Vote(v, request.term, c));
      }
      AddVote(s.hist.granted, g0);
    }
    assert PeerOk(s', v) by { assert PeerOk(s, v); }
    KeepReigns(s.nodes, s'.nodes, s.hist.granted, s'.hist.granted, s.hist.led, s'.hist.led);
    KeepPeers(s, s', v);
  }

  /** A candidate whose supporters reach a majority stands in a term nobody leads. */
  lemma VacantTerm(s: Sys, v: nat, supporters: set<nat>)
    requires Elections(s) && v < |s.nodes| && s.nodes[v].role == Candidate
    requires supporters <= Ids(|s.nodes|) && |supporters| > |s.nodes| / 2
    requires forall q :: q in supporters ==> Vote(q, s.nodes[v].currentTerm, v) in s.hist.granted
    ensures s.nodes[v].currentTerm !in s.hist.led
  {
    var t := s.nodes[v].currentTerm;
    if t in s.hist.led {
      assert ReignOk(s.nodes, s.hist.granted, s.hist.led, t);
      assert PeerOk(s, v);
      var q := QuorumsMeet(|s.nodes|, supporters, s.hist.led[t].voters);
      assert false;
    }
  }

  lemma CountStep(s: Sys, s': Sys, v: nat, from: nat)
    requires Elections(s) && Contest(s, s', v) && s.nodes[v].role == Candidate && from in s.nodes[v].awaiting
    requires var n, x := s.nodes[v], s'.nodes[v];
      && Vote(from, n.currentTerm, v) in s.hist.granted
      && x.currentTerm == n.currentTerm && x.votedFor == n.votedFor
      && x.votes == n.votes + 1 && x.awaiting == n.awaiting - {from}
      && s'.hist.candLog == s.hist.candLog && s'.hist.granted == s.hist.granted
      && s'.hist.supporters[v] == s.hist.supporters[v] + {from}
      && s'.net == s.net
      && (if x.role == Leader
          then x.votes > |s.nodes| / 2 && x.currentTerm in s'.hist.led
            && s'.hist.led.Keys == s.hist.led.Keys + {x.currentTerm}
               && s'.hist.led[x.currentTerm].leader == v && s'.hist.led[x.currentTerm].voters == s'.hist.supporters[v]
          else x.role == Candidate && s'.hist.led == s.hist.led)
    ensures Elections(s')
  {
    var n, x := s.nodes[v], s'.nodes[v];
    var t := x.currentTerm;
    assert PeerOk(s, v);
    assert ReignsOk(s'.nodes, s'.hist.granted, s'.hist.led) by {
      KeepReigns(s.nodes, s'.nodes, s.hist.granted, s'.hist.granted, s.hist.led, s.hist.led);
      forall k | k in s'.hist.led
        ensures ReignOk(s'.nodes, s'.hist.granted, s'.hist.led, k)
      {
        if k in s.hist.led { assert ReignOk(s'.nodes, s'.hist.granted, s.hist.led, k); }
      }
    }
    KeepGrants(s.nodes, s'.nodes, s.hist.candLog, s'.hist.candLog, s.hist.granted);
    assert PeerOk(s', v);
    KeepPeers(s, s', v);
  }

  // ---------- every step ----------

  lemma CalmHandlers(n: Node)
    requires S.WellFormed(n) && n.peers >= 2
    ensures forall args :: Calm(n, S.AppendEntries(n, args).0)
    ensures forall command :: Calm(n, S.Start(n, command).0)
    ensures Calm(n, S.Apply(n).0)
  {
  }

  lemma CalmSend(n: Node, server: nat)
    requires S.WellFormed(n) && server < n.peers
    ensures Calm(n, S.PrepareSend(n, server).0)
  {
  }

  lemma CalmAppendReply(n: Node, server: nat, args: AppendArgs, reply: AppendReply)
    requires S.WellFormed(n) && server < n.peers
    ensures Calm(n, S.AppendReplied(n, server, args, reply))
  {
  }

  lemma CalmSnapshotReply(n: Node, server: nat, term: nat, replyTerm: nat)
    requires S.WellFormed(n) && server < n.peers
    ensures Calm(n, S.SnapshotReplied(n, server, term, replyTerm))
  {
  }

  lemma CalmCompact(n: Node, index: nat, data: Bytes)
    requires S.WellFormed(n) && index <= S.LastIndex(n)
    ensures Calm(n, S.TakeSnapshot(n, index, data))
  {
  }

  /** Restarting on a disk that is in step with memory brings back the term and the vote. */
  lemma CalmCrash(n: Node)
    requires S.WellFormed(n) && S.Synced(n) && n.peers >= 2
    ensures Calm(n, S.Restart(n.me, n.peers, n.disk))
  {
  }

  lemma CampaignKeeps(s: Sys, v: nat)
    requires Elections(s) && Enabled(s, Campaign(v))
    ensures Elections(AfterCampaign(s, v))
  {
    CampaignStep(s, AfterCampaign(s, v), v, S.StartElection(s.nodes[v]).1);
  }

  lemma VoteRequestKeeps(s: Sys, v: nat, request: VoteArgs)
    requires Elections(s) && Enabled(s, GetVoteRequest(v, request))
    ensures Elections(AfterVoteRequest(s, v, request))
  {
    var s' := AfterVoteRequest(s, v, request);
    if S.RequestVote(s.nodes[v], request).1.granted {
      GrantStep(s, s', v, request);
    } else {
      CalmStep(s, s', v);
    }
  }

  /** A reply that is not counted at most takes its sender off the waiting list or ends the candidacy. */
  lemma IdleReplyKeeps(s: Sys, s': Sys, v: nat)
    requires Elections(s) && v < |s.nodes| && Sized(s')
    requires |s'.nodes| == |s.nodes| && s'.nodes == s.nodes[v := s'.nodes[v]]
    requires s'.hist == s.hist && s'.net == s.net
    requires var n, x := s.nodes[v], s'.nodes[v];
      Calm(n, x.(awaiting := n.awaiting)) && x.awaiting <= n.awaiting
    ensures Elections(s')
  {
    var n, x := s.nodes[v], s'.nodes[v];
    KeepGrants(s.nodes, s'.nodes, s.hist.candLog, s'.hist.candLog, s.hist.granted);
    KeepReigns(s.nodes, s'.nodes, s.hist.granted, s'.hist.granted, s.hist.led, s'.hist.led);
    forall u: nat | u < |s'.nodes|
      ensures PeerOk(s', u)
    {
      assert PeerOk(s, u);
    }
  }

  lemma CountedReplyKeeps(s: Sys, v: nat, vote: VoteMsg)
    requires Elections(s) && Enabled(s, GetVoteReply(v, vote)) && Counts(s.nodes[v], vote)
    ensures Elections(AfterVoteReply(s, v, vote))
    ensures AfterVoteReply(s, v, vote).nodes[v].role == Leader ==> s.nodes[v].currentTerm !in s.hist.led
  {
    var s' := AfterVoteReply(s, v, vote);
    if s'.nodes[v].role == Leader {
      assert PeerOk(s, v);
      VacantTerm(s, v, s.hist.supporters[v] + {vote.from});
    }
    CountStep(s, s', v, vote.from);
  }

  lemma VoteReplyKeeps(s: Sys, v: nat, vote: VoteMsg)
    requires Elections(s) && Enabled(s, GetVoteReply(v, vote))
    ensures Elections(AfterVoteReply(s, v, vote))
  {
    if Counts(s.nodes[v], vote) {
      CountedReplyKeeps(s, v, vote);
    } else {
      IdleReplyKeeps(s, AfterVoteReply(s, v, vote), v);
    }
  }

  lemma ProposeKeeps(s: Sys, v: nat, command: Bytes)
    requires Elections(s) && Enabled(s, Propose(v, command))
    ensures Elections(AfterPropose(s, v, command))
  {
    CalmHandlers(s.nodes[v]);
    CalmStep(s, AfterPropose(s, v, command), v);
  }

  lemma SendKeeps(s: Sys, v: nat, server: nat)
    requires Elections(s) && Enabled(s, Send(v, server))
    ensures Elections(AfterSend(s, v, server))
  {
    CalmSend(s.nodes[v], server);
    CalmStep(s, AfterSend(s, v, server), v);
  }

  lemma AppendKeeps(s: Sys, v: nat, msg: AppendMsg)
    requires Elections(s) && Enabled(s, GetAppend(v, msg))
    ensures Elections(AfterAppend(s, v, msg))
  {
    CalmHandlers(s.nodes[v]);
    CalmStep(s, AfterAppend(s, v, msg), v);
  }

  lemma CalmInstall(n: Node, args: SnapshotArgs)
    requires S.WellFormed(n)
    ensures Calm(n, S.InstallSnapshot(n, args).0)
  {
  }

  lemma SnapshotKeeps(s: Sys, v: nat, copy: SnapshotMsg)
    requires Elections(s) && Enabled(s, GetSnapshot(v, copy))
    ensures Elections(AfterSnapshot(s, v, copy))
  {
    CalmInstall(s.nodes[v], copy.args);
    CalmStep(s, AfterSnapshot(s, v, copy), v);
  }

  lemma LocalKeeps(s: Sys, v: nat, x: Node, emitted: set<(nat, Bytes)>)
    requires Elections(s) && v < |s.nodes| && Calm(s.nodes[v], x)
    ensures Elections(s.(nodes := s.nodes[v := x], hist := s.hist.(emitted := emitted)))
  {
    CalmStep(s, s.(nodes := s.nodes[v := x], hist := s.hist.(emitted := emitted)), v);
  }

  lemma ElectionsKept(s: Sys, a: Action)
    requires Elections(s) && Enabled(s, a)
    requires S.Synced(s.nodes[a.v])
    ensures Elections(Next(s, a))
  {
    var n := s.nodes[a.v];
    match a
    case Campaign(v) => CampaignKeeps(s, v);
    case GetVoteRequest(v, request) => VoteRequestKeeps(s, v, request);
    case GetVoteReply(v, vote) => VoteReplyKeeps(s, v, vote);
    case Propose(v, command) => ProposeKeeps(s, v, command);
    case Send(v, server) => SendKeeps(s, v, server);
    case GetAppend(v, msg) => AppendKeeps(s, v, msg);
    case GetSnapshot(v, copy) => SnapshotKeeps(s, v, copy);
    case GetAppendReply(v, ack) =>
      CalmAppendReply(n, ack.from, ack.args, ack.reply);
      LocalKeeps(s, v, S.AppendReplied(n, ack.from, ack.args, ack.reply), s.hist.emitted);
    case GetSnapshotReply(v, from, term, replyTerm) =>
      CalmSnapshotReply(n, from, term, replyTerm);
      LocalKeeps(s, v, S.SnapshotReplied(n, from, term, replyTerm), s.hist.emitted);
    case Compact(v, index, data) =>
      CalmCompact(n, index, data);
      LocalKeeps(s, v, S.TakeSnapshot(n, index, data), s.hist.emitted);
    case ApplyCommitted(v) =>
      CalmHandlers(n);
      LocalKeeps(s, v, S.Apply(n).0, s.hist.emitted + CommandsOf(S.Apply(n).1));
    case Crash(v) =>
      CalmCrash(n);
      LocalKeeps(s, v, S.Restart(n.me, n.peers, n.disk), s.hist.emitted);
  }
}
