/** Reachable states built step by step. Each lemma performs one action and says what it does to the peers and
    the network, leaving the history records aside. `P` stands for being reachable. */
module RaftDrive {
  import opened RaftTypes
  import opened RaftSystem
  import S = RaftStep
  import opened R = RaftSafety

  ghost function Last(r: Run): Sys
    requires |r.states| > 0
  {
    r.states[|r.states| - 1]
  }

  /** The end of some run, of an ordered one if asked. */
  ghost predicate IsEnd(s: Sys, ordered: bool, r: Run) {
    IsRun(r) && Last(r) == s && (ordered ==> IsOrderedRun(r))
  }

  ghost function Reached(ordered: bool): Sys -> bool {
    s => Sized(s) && exists r :: IsEnd(s, ordered, r)
  }

  /** What holds after a step if it held before. */
  ghost predicate Closed(P: Sys -> bool, ordered: bool) {
    && (forall s, a {:trigger P(Next(s, a))} :: P(s) && Enabled(s, a) && (ordered ==> InOrder(s, a)) ==> P(Next(s, a)))
    && (forall s {:trigger Sized(s)} :: P(s) ==> Sized(s))
  }

  lemma Extend(r: Run, a: Action) returns (more: Run)
    requires IsRun(r) && Enabled(Last(r), a)
    ensures IsRun(more) && Last(more) == Next(Last(r), a) && Sized(Last(more))
    ensures IsOrderedRun(r) && InOrder(Last(r), a) ==> IsOrderedRun(more)
  {
    more := Run(r.states + [Next(Last(r), a)], r.actions + [a]);
    forall i: nat | i < |more.actions|
      ensures StepAt(more, i)
    {
      if i < |r.actions| { assert StepAt(r, i); }
    }
    RunSound(more, |more.states| - 1);
  }

  lemma ReachedIsClosed(ordered: bool)
    ensures Closed(Reached(ordered), ordered)
  {
    forall s, a | Reached(ordered)(s) && Enabled(s, a) && (ordered ==> InOrder(s, a))
      ensures Reached(ordered)(Next(s, a))
    {
      var r :| IsEnd(s, ordered, r);
      var more := Extend(r, a);
      assert IsEnd(Next(s, a), ordered, more);
    }
  }

  ghost function StartState(n: nat): Sys {
    Sys(seq(n, v requires v >= 0 => S.Restart(v, n, None)), Net({}, {}, {}, {}, {}),
        Hist(seq(n, _ => [GENESIS]), seq(n, _ => [GENESIS]), map[], {}, seq(n, _ => {}), map[],
             seq(n, _ => map[]), map[], {}, 0, seq(n, _ => map[])))
  }

  lemma StartIsReached(n: nat, ordered: bool)
    requires n >= 2
    ensures Reached(ordered)(StartState(n))
  {
    var r := Run([StartState(n)], []);
    RunSound(r, 0);
    assert IsEnd(StartState(n), ordered, r);
  }

  /** Nothing sent or emitted is forgotten. */
  ghost predicate Keeps(s: Sys, s': Sys) {
    && s.net.voteReqs <= s'.net.voteReqs && s.net.voteReplies <= s'.net.voteReplies
    && s.net.appends <= s'.net.appends && s.net.appendReplies <= s'.net.appendReplies
    && s.net.snapshots <= s'.net.snapshots
    && s.hist.emitted <= s'.hist.emitted
  }

  /** Peer `v` has handled no AppendEntries of term `t`. */
  ghost predicate Unseen(s: Sys, v: nat, t: nat) {
    v < |s.hist.seen| && t !in s.hist.seen[v]
  }

  ghost predicate SameSeen(s: Sys, s': Sys) {
    s'.hist.seen == s.hist.seen
  }

  lemma DoCampaign(P: Sys -> bool, ordered: bool, s: Sys, v: nat) returns (s': Sys)
    requires Closed(P, ordered) && P(s) && v < |s.nodes| && |s.nodes[v].log| > 0
    ensures P(s') && Keeps(s, s') && SameSeen(s, s')
    ensures var (x, args) := S.StartElection(s.nodes[v]);
      s'.nodes == s.nodes[v := x] && args in s'.net.voteReqs
  {
    assert Sized(s);
    s' := Next(s, Campaign(v));
    assert P(Next(s, Campaign(v)));
  }

  lemma DoVote(P: Sys -> bool, ordered: bool, s: Sys, v: nat, request: VoteArgs) returns (s': Sys)
    requires Closed(P, ordered) && P(s) && v < |s.nodes| && |s.nodes[v].log| > 0
    requires request in s.net.voteReqs && request.candidate != v
    ensures P(s') && Keeps(s, s') && SameSeen(s, s')
    ensures var (x, reply) := S.RequestVote(s.nodes[v], request);
      s'.nodes == s.nodes[v := x] && VoteMsg(v, request, reply) in s'.net.voteReplies
  {
    assert Sized(s);
    s' := Next(s, GetVoteRequest(v, request));
    assert P(Next(s, GetVoteRequest(v, request)));
  }

  lemma DoCount(P: Sys -> bool, ordered: bool, s: Sys, v: nat, vote: VoteMsg) returns (s': Sys)
    requires Closed(P, ordered) && P(s) && v < |s.nodes| && |s.nodes[v].log| > 0
    requires vote in s.net.voteReplies && vote.args.candidate == v && vote.from in s.nodes[v].awaiting
    ensures P(s') && Keeps(s, s') && SameSeen(s, s')
    ensures s'.nodes == s.nodes[v := S.VoteReplied(s.nodes[v], vote.from, vote.args.term, vote.reply)]
  {
    assert Sized(s);
    s' := Next(s, GetVoteReply(v, vote));
    assert P(Next(s, GetVoteReply(v, vote)));
  }

  lemma DoPropose(P: Sys -> bool, ordered: bool, s: Sys, v: nat, command: Bytes) returns (s': Sys)
    requires Closed(P, ordered) && P(s) && v < |s.nodes| && |s.nodes[v].log| > 0
    ensures P(s') && Keeps(s, s') && SameSeen(s, s') && s'.net == s.net
    ensures s'.nodes == s.nodes[v := S.Start(s.nodes[v], command).0]
  {
    assert Sized(s);
    s' := Next(s, Propose(v, command));
    assert P(Next(s, Propose(v, command)));
  }

  lemma DoSend(P: Sys -> bool, ordered: bool, s: Sys, v: nat, server: nat) returns (s': Sys, m: AppendMsg)
    requires Closed(P, ordered) && P(s) && v < |s.nodes| && server < |s.nodes| && server != v
    requires S.WellFormed(s.nodes[v]) && server < s.nodes[v].peers && S.PrepareSend(s.nodes[v], server).1.SendAppend?
    ensures P(s') && Keeps(s, s') && SameSeen(s, s')
    ensures s'.nodes == s.nodes[v := S.PrepareSend(s.nodes[v], server).0]
    ensures m in s'.net.appends && m.to == server && m.args == S.PrepareSend(s.nodes[v], server).1.append
  {
    assert Sized(s);
    m := AppendMsg(server, s.hist.built, S.PrepareSend(s.nodes[v], server).1.append);
    s' := Next(s, Send(v, server));
    assert P(Next(s, Send(v, server)));
  }

  /** In order if it is the first message of its term here. */
  lemma DoAppend(P: Sys -> bool, ordered: bool, s: Sys, v: nat, m: AppendMsg) returns (s': Sys)
    requires Closed(P, ordered) && P(s) && v < |s.nodes| && |s.nodes[v].log| > 0 && m in s.net.appends && m.to == v
    requires ordered ==> Unseen(s, v, m.args.term)
    ensures P(s') && Keeps(s, s')
    ensures var (x, reply) := S.AppendEntries(s.nodes[v], m.args);
      s'.nodes == s.nodes[v := x] && AppendAck(v, m.args, reply) in s'.net.appendReplies
    ensures forall u: nat, t: nat {:trigger Unseen(s', u, t)} ::
      Unseen(s, u, t) && (u != v || t != m.args.term) ==> Unseen(s', u, t)
  {
    assert Sized(s);
    s' := Next(s, GetAppend(v, m));
    assert P(Next(s, GetAppend(v, m)));
  }

  lemma DoAck(P: Sys -> bool, ordered: bool, s: Sys, v: nat, ack: AppendAck) returns (s': Sys)
    requires Closed(P, ordered) && P(s) && v < |s.nodes| && S.WellFormed(s.nodes[v]) && ack.from < s.nodes[v].peers
    requires ack in s.net.appendReplies && ack.args.leader == v && ack.from < |s.nodes| && ack.from != v
    ensures P(s') && Keeps(s, s') && SameSeen(s, s')
    ensures s'.nodes == s.nodes[v := S.AppendReplied(s.nodes[v], ack.from, ack.args, ack.reply)]
  {
    assert Sized(s);
    s' := Next(s, GetAppendReply(v, ack));
    assert P(Next(s, GetAppendReply(v, ack)));
  }

  lemma DoApply(P: Sys -> bool, ordered: bool, s: Sys, v: nat) returns (s': Sys)
    requires Closed(P, ordered) && P(s) && v < |s.nodes| && |s.nodes[v].log| > 0
    ensures P(s') && Keeps(s, s') && SameSeen(s, s')
    ensures s'.nodes == s.nodes[v := S.Apply(s.nodes[v]).0]
    ensures CommandsOf(S.Apply(s.nodes[v]).1) <= s'.hist.emitted
  {
    assert Sized(s);
    s' := Next(s, ApplyCommitted(v));
    assert P(Next(s, ApplyCommitted(v)));
  }

  lemma DoCompact(P: Sys -> bool, ordered: bool, s: Sys, v: nat, index: nat, data: Bytes) returns (s': Sys)
    requires Closed(P, ordered) && P(s) && v < |s.nodes| && S.WellFormed(s.nodes[v])
    requires index <= S.LastIndex(s.nodes[v]) && index <= s.nodes[v].lastApplied
    ensures P(s') && Keeps(s, s') && SameSeen(s, s')
    ensures s'.nodes == s.nodes[v := S.TakeSnapshot(s.nodes[v], index, data)]
  {
    assert Sized(s);
    s' := Next(s, Compact(v, index, data));
    assert P(Next(s, Compact(v, index, data)));
  }

  lemma DoSendSnapshot(P: Sys -> bool, ordered: bool, s: Sys, v: nat, server: nat) returns (s': Sys, m: SnapshotMsg)
    requires Closed(P, ordered) && P(s) && v < |s.nodes| && server < |s.nodes| && server != v
    requires S.WellFormed(s.nodes[v]) && server < s.nodes[v].peers && S.PrepareSend(s.nodes[v], server).1.SendSnapshot?
    ensures P(s') && Keeps(s, s') && SameSeen(s, s')
    ensures s'.nodes == s.nodes[v := S.PrepareSend(s.nodes[v], server).0]
    ensures m in s'.net.snapshots && m == SnapshotMsg(server, S.PrepareSend(s.nodes[v], server).1.install)
  {
    assert Sized(s);
    m := SnapshotMsg(server, S.PrepareSend(s.nodes[v], server).1.install);
    s' := Next(s, Send(v, server));
    assert P(Next(s, Send(v, server)));
  }

  lemma DoInstall(P: Sys -> bool, ordered: bool, s: Sys, v: nat, m: SnapshotMsg) returns (s': Sys)
    requires Closed(P, ordered) && P(s) && v < |s.nodes| && |s.nodes[v].log| > 0 && m in s.net.snapshots && m.to == v
    ensures P(s') && Keeps(s, s') && SameSeen(s, s')
    ensures s'.nodes == s.nodes[v := S.InstallSnapshot(s.nodes[v], m.args).0]
  {
    assert Sized(s);
    s' := Next(s, GetSnapshot(v, m));
    assert P(Next(s, GetSnapshot(v, m)));
  }
}
