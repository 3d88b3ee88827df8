/** What every step keeps of each peer alone, InstallSnapshot included and whatever the network does: the log
    starts at the snapshot boundary and is numbered without a gap, and the disk has what must survive. */
module RaftShape {
  import opened RaftTypes
  import opened RaftSystem
  import S = RaftStep

  ghost predicate NodeOk(n: Node) {
    S.LogShape(n) && S.Synced(n)
  }

  ghost predicate Shapes(s: Sys) {
    && Sized(s)
    && (forall v {:trigger NodeOk(s.nodes[v])} :: 0 <= v < |s.nodes| ==> NodeOk(s.nodes[v]))
    && (forall m :: m in s.net.appends ==> S.Numbered(m.args))
  }

  lemma ShapesAtStart(s: Sys)
    requires Init(s)
    ensures Shapes(s)
  {
  }

  // ---------- one peer ----------

  lemma VoteShape(n: Node, request: VoteArgs)
    requires S.WellFormed(n) && NodeOk(n)
    ensures S.WellFormed(S.RequestVote(n, request).0) && NodeOk(S.RequestVote(n, request).0)
  {
  }

  lemma CountShape(n: Node, from: nat, term: nat, reply: VoteReply)
    requires S.WellFormed(n) && NodeOk(n)
    ensures S.WellFormed(S.VoteReplied(n, from, term, reply)) && NodeOk(S.VoteReplied(n, from, term, reply))
  {
  }

  lemma LeaderShape(n: Node, server: nat)
    requires S.WellFormed(n) && NodeOk(n) && server < n.peers
    ensures forall command {:trigger S.Start(n, command)} ::
      S.WellFormed(S.Start(n, command).0) && NodeOk(S.Start(n, command).0)
    ensures forall args, reply {:trigger S.AppendReplied(n, server, args, reply)} ::
      S.WellFormed(S.AppendReplied(n, server, args, reply)) && NodeOk(S.AppendReplied(n, server, args, reply))
    ensures forall term, reply {:trigger S.SnapshotReplied(n, server, term, reply)} ::
      S.WellFormed(S.SnapshotReplied(n, server, term, reply)) && NodeOk(S.SnapshotReplied(n, server, term, reply))
  {
  }

  lemma SendShape(n: Node, server: nat)
    requires S.WellFormed(n) && NodeOk(n) && server < n.peers
    ensures var (x, out) := S.PrepareSend(n, server);
      S.WellFormed(x) && NodeOk(x) && (out.SendAppend? ==> S.Numbered(out.append))
  {
  }

  lemma RestartShape(n: Node)
    requires S.WellFormed(n) && NodeOk(n)
    ensures S.WellFormed(S.Restart(n.me, n.peers, n.disk)) && NodeOk(S.Restart(n.me, n.peers, n.disk))
    ensures S.WellFormed(S.Apply(n).0) && NodeOk(S.Apply(n).0)
  {
  }

  // ---------- every step ----------

  lemma StepShape(s: Sys, a: Action)
    requires Shapes(s) && Enabled(s, a)
    ensures var x := Next(s, a).nodes[a.v]; S.WellFormed(x) && NodeOk(x)
  {
    var n := s.nodes[a.v];
    assert NodeOk(n);
    match a
    case Campaign(v) => S.ElectionKeepsShape(n);
    case GetVoteRequest(v, request) => VoteShape(n, request);
    case GetVoteReply(v, vote) => CountShape(n, vote.from, vote.args.term, vote.reply);
    case Propose(v, command) => LeaderShape(n, 0);
    case Send(v, server) => SendShape(n, server);
    case GetAppend(v, msg) => S.AppendKeepsShape(n, msg.args);
    case GetAppendReply(v, ack) => LeaderShape(n, ack.from);
    case GetSnapshot(v, copy) => S.InstallKeepsShape(n, copy.args);
    case GetSnapshotReply(v, from, term, replyTerm) => LeaderShape(n, from);
    case Compact(v, index, data) => S.SnapshotKeepsShape(n, index, data);
    case ApplyCommitted(v) => RestartShape(n);
    case Crash(v) => RestartShape(n);
  }

  lemma OneMoves(s: Sys, a: Action)
    requires Enabled(s, a)
    ensures var s' := Next(s, a);
      && |s'.nodes| == |s.nodes| && s'.nodes == s.nodes[a.v := s'.nodes[a.v]]
      && s'.nodes[a.v].me == a.v && s'.nodes[a.v].peers == |s.nodes|
      && |s'.hist.full| == |s'.hist.base| == |s'.hist.supporters| == |s'.hist.acked| == |s'.hist.seen| == |s.nodes|
  {
    OthersStay(s, a);
    HistStaysSized(s, a);
  }

  lemma OthersStay(s: Sys, a: Action)
    requires Enabled(s, a)
    ensures |Next(s, a).nodes| == |s.nodes| && Next(s, a).nodes == s.nodes[a.v := Next(s, a).nodes[a.v]]
    ensures Next(s, a).nodes[a.v].me == a.v && Next(s, a).nodes[a.v].peers == |s.nodes|
  {
    match a
    case _ =>
  }

  ghost predicate HistSized(h: Hist, n: nat) {
    |h.full| == |h.base| == |h.supporters| == |h.acked| == |h.seen| == n
  }

  lemma HistStaysSized(s: Sys, a: Action)
    requires Enabled(s, a)
    ensures HistSized(Next(s, a).hist, |s.nodes|)
  {
    match a
    case Campaign(v) => assert HistSized(AfterCampaign(s, v).hist, |s.nodes|);
    case GetVoteRequest(v, request) => assert HistSized(AfterVoteRequest(s, v, request).hist, |s.nodes|);
    case GetVoteReply(v, vote) => VoteReplySized(s, v, vote);
    case Propose(v, command) => assert HistSized(AfterPropose(s, v, command).hist, |s.nodes|);
    case GetAppend(v, msg) => AppendSized(s, v, msg);
    case GetSnapshot(v, copy) => SnapshotSized(s, v, copy);
    case _ =>
  }

  lemma VoteReplySized(s: Sys, v: nat, vote: VoteMsg)
    requires Enabled(s, GetVoteReply(v, vote))
    ensures HistSized(AfterVoteReply(s, v, vote).hist, |s.nodes|)
  {
  }

  lemma AppendSized(s: Sys, v: nat, msg: AppendMsg)
    requires Enabled(s, GetAppend(v, msg))
    ensures HistSized(AfterAppend(s, v, msg).hist, |s.nodes|)
  {
  }

  lemma SnapshotSized(s: Sys, v: nat, copy: SnapshotMsg)
    requires Enabled(s, GetSnapshot(v, copy))
    ensures HistSized(AfterSnapshot(s, v, copy).hist, |s.nodes|)
  {
  }

  lemma ShapesKept(s: Sys, a: Action)
    requires Shapes(s) && Enabled(s, a)
    ensures Shapes(Next(s, a))
  {
    var s' := Next(s, a);
    OneMoves(s, a);
    StepShape(s, a);
    forall v | 0 <= v < |s'.nodes| ensures NodeOk(s'.nodes[v]) { assert v != a.v ==> NodeOk(s.nodes[v]); }
    if a.Send? {
      assert NodeOk(s.nodes[a.v]);
      SendShape(s.nodes[a.v], a.server);
    }
  }
}
