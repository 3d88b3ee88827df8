/** Where the guarantees stop: what the unconditional cut of AppendEntries and the unchecked boundary of
    InstallSnapshot break, on concrete inputs, and exactly when they break it. */
module RaftLimits {
  import opened RaftTypes
  import opened RaftSystem
  import S = RaftStep
  import opened L = RaftLog
  import C = RaftAccept

  // ---------- AppendEntries ----------

  /** An accepted message leaves the follower with all it acknowledged to this leader if and only if the
      message is fresh. */
  lemma CutKeepsAcknowledgedIffFresh(led: map<nat, Reign>, full: seq<Entry>, acked: map<nat, nat>, m: AppendMsg)
    requires LedLogsOk(led) && Backed(full, led) && AppendOk(led, m)
    requires m.args.prevLogIndex < |full| && full[m.args.prevLogIndex].term == m.args.prevLogTerm
    requires var t := m.args.term; t in acked && acked[t] < |led[t].log| && Agree(full, led[t].log, acked[t] + 1)
    ensures Agree(L.Extended(full, m.args), led[m.args.term].log, acked[m.args.term] + 1)
       <==> C.FreshFor(acked, m.args)
  {
    AcceptAgrees(led, full, m);
  }

  function A(): Entry { Entry(1, 1, [1]) }
  function B(): Entry { Entry(1, 2, [2]) }

  /** The messages a leader of term 1 builds for a peer after one and after two proposals, and once the
      peer has answered the second. */
  function FirstAppend(): AppendArgs { AppendArgs(1, 0, 0, 0, [A()], 0) }
  function SecondAppend(): AppendArgs { AppendArgs(1, 0, 0, 0, [A(), B()], 0) }
  function Heartbeat(): AppendArgs { AppendArgs(1, 0, 2, 1, [], 2) }

  function Leading(log: seq<Entry>, matched: int, commit: nat): Node {
    Node(0, 2, 1, 0, Leader, log, commit, 0, [1, matched + 1], [0, matched], 0, 0, [], 2, {},
         Some(Durable(1, 0, 0, 0, log, [])))
  }

  /** All three messages come from one leader in one term. */
  lemma OneLeaderBuildsThem()
    ensures S.PrepareSend(Leading([GENESIS, A()], 0, 0), 1).1 == SendAppend(FirstAppend())
    ensures S.Start(Leading([GENESIS, A()], 0, 0), [2]).0 == Leading([GENESIS, A(), B()], 0, 0)
    ensures S.PrepareSend(Leading([GENESIS, A(), B()], 0, 0), 1).1 == SendAppend(SecondAppend())
    ensures S.AppendReplied(Leading([GENESIS, A(), B()], 0, 0), 1, SecondAppend(), AppendReply(0, true, 0, 0))
         == Leading([GENESIS, A(), B()], 2, 0)
    ensures S.PrepareSend(Leading([GENESIS, A(), B()], 2, 0), 1)
      == (Leading([GENESIS, A(), B()], 2, 2), SendAppend(Heartbeat()))
  {
    var one, two := Leading([GENESIS, A()], 0, 0), Leading([GENESIS, A(), B()], 0, 0);
    assert S.Matching(one, 1) == {} && S.Matching(two, 2) == {} && S.Matching(two, 1) == {};
    var n := Leading([GENESIS, A(), B()], 2, 0);
    assert S.Matching(n, 2) == {1};
    assert S.Committable(n, 2);
    assert one.log + [B()] == two.log && n.log[2 + 1..] == [] && one.log[0 + 1..] == [A()]
      && two.log[0 + 1..] == [A(), B()];
    S.NoneBelow(one, 0);
    S.NoneBelow(two, 0);
    assert S.Highest(one, 1) == 0;
    assert S.Highest(two, 2) == S.Highest(two, 1) == 0;
  }

  /** A follower of term 1 whose disk has what its memory has. */
  function Following(log: seq<Entry>, commit: nat): Node {
    Node(1, 2, 1, -1, Follower, log, commit, 0, [], [], 0, 0, [], 0, {}, Some(Durable(1, -1, 0, 0, log, [])))
  }

  lemma FirstContact()
    ensures S.Adopt(S.Restart(1, 2, None), 1).(role := Follower) == Following([GENESIS], 0)
  {
  }

  lemma TwoAccepted()
    ensures S.Accepts(Following([GENESIS], 0), SecondAppend())
    ensures S.Accepted(Following([GENESIS], 0), SecondAppend()) == Following([GENESIS, A(), B()], 0)
  {
    assert [GENESIS][..1] + [A(), B()] == [GENESIS, A(), B()];
  }

  lemma SecondAppendArrives()
    ensures S.AppendEntries(S.Restart(1, 2, None), SecondAppend())
      == (Following([GENESIS, A(), B()], 0), AppendReply(0, true, 0, 0))
  {
    FirstContact();
    TwoAccepted();
  }

  lemma HeartbeatArrives()
    ensures S.AppendEntries(Following([GENESIS, A(), B()], 0), Heartbeat())
      == (Following([GENESIS, A(), B()], 2), AppendReply(1, true, 0, 0))
  {
  }

  lemma FirstAppendArrives()
    ensures S.AppendEntries(Following([GENESIS, A(), B()], 2), FirstAppend())
      == (Following([GENESIS, A()], 2), AppendReply(1, true, 0, 0))
  {
    assert S.Accepts(Following([GENESIS, A(), B()], 2), FirstAppend());
    assert [GENESIS, A(), B()][..1] + [A()] == [GENESIS, A()];
  }

  /** A blank follower accepts the second message and the heartbeat; the first message, late, then makes it lose an
      entry it acknowledged and knows to be committed: its commit index is past the end of its log. */
  lemma LateMessageCutsCommitted()
    ensures S.AppendEntries(S.Restart(1, 2, None), SecondAppend())
      == (Following([GENESIS, A(), B()], 0), AppendReply(0, true, 0, 0))
    ensures S.AppendEntries(Following([GENESIS, A(), B()], 0), Heartbeat())
      == (Following([GENESIS, A(), B()], 2), AppendReply(1, true, 0, 0))
    ensures S.AppendEntries(Following([GENESIS, A(), B()], 2), FirstAppend())
      == (Following([GENESIS, A()], 2), AppendReply(1, true, 0, 0))
    ensures Following([GENESIS, A()], 2).commitIndex > S.LastIndex(Following([GENESIS, A()], 2))
  {
    SecondAppendArrives();
    HeartbeatArrives();
    FirstAppendArrives();
  }

  // ---------- InstallSnapshot ----------

  /** Log Matching of two logs: where their terms agree, so do the logs up to there. */
  ghost predicate Match(a: seq<Entry>, b: seq<Entry>) {
    forall i: nat :: i < |a| && i < |b| && a[i].term == b[i].term ==> Agree(a, b, i + 1)
  }

  /** After installing the prefix of a leader's log Log Matching holds against every log there can be, if and only
      if nothing is retained behind the prefix or the replaced boundary entry had the snapshot's term. */
  lemma InstallKeepsLogMatchingIff(full: seq<Entry>, prefix: seq<Entry>, led: map<nat, Reign>)
    requires Backed(full, led) && Backed(prefix, led)
    ensures (forall b :: Backed(b, led) ==> Match(Installed(full, prefix), b)) <==>
      |full| <= |prefix| || full[|prefix| - 1].term == prefix[|prefix| - 1].term
  {
    var after, k := Installed(full, prefix), |prefix| - 1;
    if |full| <= |prefix| || full[k].term == prefix[k].term {
      InstalledWhole(full, prefix, led);
      forall b | Backed(b, led)
        ensures Match(after, b)
      {
        BackedMatch(after, b, led);
      }
    } else {
      assert after[k] == prefix[k] && after[k + 1] == full[k + 1];
      assert !Agree(after, full, k + 2);
      assert !Match(after, full);
    }
  }

  lemma BackedMatch(a: seq<Entry>, b: seq<Entry>, led: map<nat, Reign>)
    requires Backed(a, led) && Backed(b, led)
    ensures Match(a, b)
  {
    forall i: nat | i < |a| && i < |b| && a[i].term == b[i].term
      ensures Agree(a, b, i + 1)
    {
      SameTermSamePrefix(a, b, led, i);
    }
  }
}
