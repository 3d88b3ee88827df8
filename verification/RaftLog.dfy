/** Log Matching (Raft, section 5.3) on a network that loses, delays, reorders and repeats messages.

    The invariant is that every log is backed: the prefix that ends in an entry of term t is a prefix of
    the log of the one leader of term t. Two logs with the same term at the same place are then both a
    prefix of one log. An InstallSnapshot takes this from its receiver, of whose log only `base` is backed; a
    step that elects such a peer is excluded here and shown not to happen in RaftCommit. */
module RaftLog {
  import opened RaftTypes
  import opened RaftSystem
  import S = RaftStep
  import E = RaftElection

  ghost predicate Agree(a: seq<Entry>, b: seq<Entry>, k: nat) {
    k <= |a| && k <= |b| && forall i :: 0 <= i < k ==> a[i] == b[i]
  }

  ghost predicate BackedAt(log: seq<Entry>, led: map<nat, Reign>, i: nat) {
    && i < |log| && log[i].term in led
    && led[log[i].term].start <= i
    && Agree(log, led[log[i].term].log, i + 1)
  }

  ghost predicate Backed(log: seq<Entry>, led: map<nat, Reign>) {
    && |log| > 0 && log[0] == GENESIS
    && forall i: nat {:trigger BackedAt(log, led, i)} :: 0 < i < |log| ==> BackedAt(log, led, i)
  }

  ghost predicate NumberedLog(log: seq<Entry>) {
    forall i :: 0 <= i < |log| ==> log[i].index == i
  }

  ghost predicate TermsUpTo(log: seq<Entry>, t: nat) {
    forall i :: 0 <= i < |log| ==> log[i].term <= t
  }

  /** A leader adds entries of its own term, and only those, to a log of smaller terms. */
  ghost predicate OwnTail(r: Reign, t: nat) {
    && 1 <= r.start <= |r.log|
    && forall i :: 0 <= i < |r.log| ==> if i < r.start then r.log[i].term < t else r.log[i].term == t
  }

  ghost predicate LedLogOk(led: map<nat, Reign>, t: nat) {
    t in led && OwnTail(led[t], t) && NumberedLog(led[t].log) && Backed(led[t].log, led)
  }

  ghost predicate LedLogsOk(led: map<nat, Reign>) {
    forall t {:trigger LedLogOk(led, t)} :: t in led ==> LedLogOk(led, t)
  }

  /** The compacted log as seen through what the snapshot swallowed. */
  function View(full: seq<Entry>, k: nat): (log: seq<Entry>)
    requires k < |full|
    ensures |log| == |full| - k && log[0] == Entry(full[k].term, k, [])
    ensures forall i :: 0 < i < |log| ==> log[i] == full[k + i]
  {
    [Entry(full[k].term, k, [])] + full[k + 1..]
  }

  /** The peer's compacted log and disk stand for the history log `full`. */
  ghost predicate Holds(n: Node, full: seq<Entry>) {
    && n.lastIncludeIndex < |full|
    && n.log == View(full, n.lastIncludeIndex)
    && n.lastIncludeTerm == full[n.lastIncludeIndex].term
    && full[0] == GENESIS && NumberedLog(full) && TermsUpTo(full, n.currentTerm)
    && S.Synced(n)
  }

  /** Above the boundary, and at the end, the log is what the peer was sent entry by entry. */
  ghost predicate Rests(n: Node, full: seq<Entry>, base: seq<Entry>) {
    && |base| == |full| > 0 && base[|base| - 1] == full[|full| - 1]
    && forall i :: n.lastIncludeIndex < i < |full| ==> base[i] == full[i]
  }

  ghost predicate BaseOk(n: Node, full: seq<Entry>, base: seq<Entry>, led: map<nat, Reign>) {
    Rests(n, full, base) && Backed(base, led) && NumberedLog(base) && TermsUpTo(base, n.currentTerm)
  }

  ghost predicate PeerLogOk(n: Node, full: seq<Entry>, base: seq<Entry>, h: Hist) {
    && Holds(n, full)
    && BaseOk(n, full, base, h.led)
    && (n.role == Leader ==> n.currentTerm in h.led && h.led[n.currentTerm].log == full == base)
    && (n.role == Candidate ==>
          Candidacy(n.currentTerm, n.me) in h.candLog && h.candLog[Candidacy(n.currentTerm, n.me)] == base)
  }

  ghost predicate PeerLogsOk(nodes: seq<Node>, h: Hist) {
    |h.full| == |h.base| == |nodes| &&
    forall v {:trigger PeerLogOk(nodes[v], h.full[v], h.base[v], h)} ::
      0 <= v < |nodes| ==> PeerLogOk(nodes[v], h.full[v], h.base[v], h)
  }

  /** No log was changed by a snapshot. */
  ghost predicate Whole(h: Hist) {
    h.base == h.full
  }

  ghost predicate StandOk(candLog: map<Candidacy, seq<Entry>>, led: map<nat, Reign>, k: Candidacy) {
    && k in candLog && k.term >= 1 && Backed(candLog[k], led) && NumberedLog(candLog[k])
    && TermsUpTo(candLog[k], k.term - 1)
  }

  ghost predicate StandsOk(candLog: map<Candidacy, seq<Entry>>, led: map<nat, Reign>) {
    forall k {:trigger StandOk(candLog, led, k)} :: k in candLog ==> StandOk(candLog, led, k)
  }

  ghost predicate RequestOk(candLog: map<Candidacy, seq<Entry>>, r: VoteArgs) {
    && Candidacy(r.term, r.candidate) in candLog
    && var log := candLog[Candidacy(r.term, r.candidate)];
       |log| > 0 && r.lastLogIndex == |log| - 1 && r.lastLogTerm == log[|log| - 1].term
  }

  ghost predicate RequestsOk(candLog: map<Candidacy, seq<Entry>>, rs: set<VoteArgs>) {
    forall r {:trigger RequestOk(candLog, r)} :: r in rs ==> RequestOk(candLog, r)
  }

  function LastOfMsg(args: AppendArgs): nat { args.prevLogIndex + |args.entries| }

  /** A message carries the sender's log, from the previous entry to its end at the time. */
  ghost predicate AppendOk(led: map<nat, Reign>, m: AppendMsg) {
    && m.args.term in led
    && var r := led[m.args.term];
       && r.leader == m.args.leader
       && LastOfMsg(m.args) < |r.log| && LastOfMsg(m.args) + 1 >= r.start
       && m.args.prevLogTerm == r.log[m.args.prevLogIndex].term
       && forall i :: 0 <= i < |m.args.entries| ==> m.args.entries[i] == r.log[m.args.prevLogIndex + 1 + i]
  }

  ghost predicate AppendsOk(led: map<nat, Reign>, ms: set<AppendMsg>) {
    forall m {:trigger AppendOk(led, m)} :: m in ms ==> AppendOk(led, m)
  }

  /** A snapshot ends in an entry of its sender's log. */
  ghost predicate CopyOk(led: map<nat, Reign>, m: SnapshotMsg) {
    && m.args.term in led
    && var r := led[m.args.term];
       && r.leader == m.args.leader
       && m.args.lastIncludeIndex < |r.log| && m.args.lastIncludeTerm == r.log[m.args.lastIncludeIndex].term
  }

  ghost predicate CopiesOk(led: map<nat, Reign>, ms: set<SnapshotMsg>) {
    forall m {:trigger CopyOk(led, m)} :: m in ms ==> CopyOk(led, m)
  }

  ghost predicate Logs(s: Sys) {
    && Sized(s)
    && LedLogsOk(s.hist.led)
    && PeerLogsOk(s.nodes, s.hist)
    && StandsOk(s.hist.candLog, s.hist.led)
    && RequestsOk(s.hist.candLog, s.net.voteReqs)
    && AppendsOk(s.hist.led, s.net.appends)
    && CopiesOk(s.hist.led, s.net.snapshots)
  }

  lemma LogsAtStart(s: Sys)
    requires Init(s)
    ensures Logs(s)
  {
  }

  // ---------- reigns only grow ----------

  ghost predicate Grows(led: map<nat, Reign>, led': map<nat, Reign>) {
    forall t :: t in led ==>
      && t in led' && led'[t].leader == led[t].leader && led'[t].start == led[t].start
      && led'[t].voters == led[t].voters
      && Agree(led[t].log, led'[t].log, |led[t].log|)
  }

  lemma BackedGrows(log: seq<Entry>, led: map<nat, Reign>, led': map<nat, Reign>)
    requires Backed(log, led) && Grows(led, led')
    ensures Backed(log, led')
  {
    forall i: nat | 0 < i < |log|
      ensures BackedAt(log, led', i)
    {
      assert BackedAt(log, led, i);
    }
  }

  lemma StandsGrow(candLog: map<Candidacy, seq<Entry>>, led: map<nat, Reign>, led': map<nat, Reign>)
    requires StandsOk(candLog, led) && Grows(led, led')
    ensures StandsOk(candLog, led')
  {
    forall k | k in candLog
      ensures StandOk(candLog, led', k)
    {
      assert StandOk(candLog, led, k);
      BackedGrows(candLog[k], led, led');
    }
  }

  lemma MailGrows(net: Net, led: map<nat, Reign>, led': map<nat, Reign>)
    requires AppendsOk(led, net.appends) && CopiesOk(led, net.snapshots) && Grows(led, led')
    ensures AppendsOk(led', net.appends) && CopiesOk(led', net.snapshots)
  {
    forall m | m in net.appends ensures AppendOk(led', m) { assert AppendOk(led, m); }
    forall m | m in net.snapshots ensures CopyOk(led', m) { assert CopyOk(led, m); }
  }

  /** The log of a reign stays well formed when other reigns, or its own tail, grow. */
  lemma LedLogsGrow(led: map<nat, Reign>, led': map<nat, Reign>, t0: nat)
    requires LedLogsOk(led) && Grows(led, led') && t0 in led'
    requires led'.Keys == led.Keys + {t0} && (forall t :: t in led && t != t0 ==> led'[t] == led[t])
    requires LedLogOk(led', t0)
    ensures LedLogsOk(led')
  {
    forall t | t in led'
      ensures LedLogOk(led', t)
    {
      if t != t0 {
        assert LedLogOk(led, t);
        BackedGrows(led[t].log, led, led');
      }
    }
  }

  /** Peers other than `v` keep their view when reigns grow and candidacies are added. */
  lemma PeersGrow(nodes: seq<Node>, nodes': seq<Node>, h: Hist, h': Hist, v: nat)
    requires PeerLogsOk(nodes, h) && v < |nodes| && |nodes'| == |nodes| && nodes' == nodes[v := nodes'[v]]
    requires |h'.full| == |h.full| && h'.full == h.full[v := h'.full[v]]
    requires |h'.base| == |h.base| && h'.base == h.base[v := h'.base[v]]
    requires Grows(h.led, h'.led)
    requires forall k :: k in h.candLog ==> k in h'.candLog && h'.candLog[k] == h.candLog[k]
    requires forall u :: 0 <= u < |nodes| ==> nodes[u].me == u
    requires forall u :: 0 <= u < |nodes| && u != v && nodes[u].role == Leader && nodes[u].currentTerm in h.led ==>
      h'.led[nodes[u].currentTerm].log == h.led[nodes[u].currentTerm].log
    requires PeerLogOk(nodes'[v], h'.full[v], h'.base[v], h')
    ensures PeerLogsOk(nodes', h')
  {
    forall u | 0 <= u < |nodes'|
      ensures PeerLogOk(nodes'[u], h'.full[u], h'.base[u], h')
    {
      if u != v {
        assert PeerLogOk(nodes[u], h.full[u], h.base[u], h);
        BackedGrows(h.base[u], h.led, h'.led);
      }
    }
  }

  // ---------- what Log Matching says ----------

  /** Two backed logs with the same term at the same place are equal up to there. */
  lemma SameTermSamePrefix(a: seq<Entry>, b: seq<Entry>, led: map<nat, Reign>, i: nat)
    requires Backed(a, led) && Backed(b, led)
    requires i < |a| && i < |b| && a[i].term == b[i].term
    ensures Agree(a, b, i + 1)
  {
    if i > 0 {
      assert BackedAt(a, led, i);
      assert BackedAt(b, led, i);
    }
  }

  /** Whatever agrees with a backed log is backed that far. */
  lemma PrefixBacked(a: seq<Entry>, b: seq<Entry>, led: map<nat, Reign>)
    requires Backed(b, led) && 0 < |a| && Agree(a, b, |a|)
    ensures Backed(a, led)
  {
    forall i: nat | 0 < i < |a|
      ensures BackedAt(a, led, i)
    {
      assert BackedAt(b, led, i);
    }
  }

  // ---------- steps that leave every history log alone ----------

  lemma QuietStep(s: Sys, s': Sys, v: nat)
    requires Logs(s) && v < |s.nodes| && Sized(s')
    requires |s'.nodes| == |s.nodes| && s'.nodes == s.nodes[v := s'.nodes[v]]
    requires s'.hist.full == s.hist.full && s'.hist.base == s.hist.base
    requires s'.hist.led == s.hist.led && s'.hist.candLog == s.hist.candLog
    requires s'.net.voteReqs == s.net.voteReqs
    requires AppendsOk(s.hist.led, s'.net.appends) && CopiesOk(s.hist.led, s'.net.snapshots)
    requires var n, x := s.nodes[v], s'.nodes[v];
      && Holds(x, s.hist.full[v]) && x.lastIncludeIndex >= n.lastIncludeIndex && x.currentTerm >= n.currentTerm
      && (x.role == Follower || (x.role == n.role && x.currentTerm == n.currentTerm && x.me == n.me))
    ensures Logs(s')
  {
    assert PeerLogOk(s.nodes[v], s.hist.full[v], s.hist.base[v], s.hist);
    assert PeerLogOk(s'.nodes[v], s'.hist.full[v], s'.hist.base[v], s'.hist);
    PeersGrow(s.nodes, s'.nodes, s.hist, s'.hist, v);
  }

  /** A step that keeps the log and the snapshot boundary keeps what they stand for. */
  lemma HoldsSame(n: Node, x: Node, full: seq<Entry>)
    requires Holds(n, full) && S.Synced(x) && x.currentTerm >= n.currentTerm
    requires x.log == n.log && x.lastIncludeIndex == n.lastIncludeIndex && x.lastIncludeTerm == n.lastIncludeTerm
    ensures Holds(x, full)
  {
  }

  /** Compaction changes the compacted log but not what it stands for. */
  lemma HoldsCompact(n: Node, full: seq<Entry>, index: nat, data: Bytes)
    requires S.WellFormed(n) && Holds(n, full) && index <= S.LastIndex(n)
    ensures Holds(S.TakeSnapshot(n, index, data), full)
    ensures S.TakeSnapshot(n, index, data).lastIncludeIndex >= n.lastIncludeIndex
  {
  }

  lemma HoldsCrash(n: Node, full: seq<Entry>)
    requires S.WellFormed(n) && n.peers >= 2 && Holds(n, full)
    ensures Holds(S.Restart(n.me, n.peers, n.disk), full)
    ensures S.Restart(n.me, n.peers, n.disk).lastIncludeIndex == n.lastIncludeIndex
  {
  }

  lemma HoldsSend(n: Node, full: seq<Entry>, server: nat)
    requires S.WellFormed(n) && Holds(n, full) && server < n.peers
    ensures Holds(S.PrepareSend(n, server).0, full)
  {
  }

  /** The message built for a peer is the sender's history log from the previous entry to the end. */
  lemma SendCarriesSuffix(n: Node, full: seq<Entry>, server: nat)
    requires S.WellFormed(n) && Holds(n, full) && server < n.peers && n.role == Leader
    requires S.PrepareSend(n, server).1.SendAppend?
    ensures var args := S.PrepareSend(n, server).1.append;
      && args.term == n.currentTerm && args.leader == n.me
      && LastOfMsg(args) == |full| - 1
      && args.prevLogTerm == full[args.prevLogIndex].term
      && (forall i :: 0 <= i < |args.entries| ==> args.entries[i] == full[args.prevLogIndex + 1 + i])
      && args.leaderCommit == S.PrepareSend(n, server).0.commitIndex
  {
  }

  lemma SentMessageOk(led: map<nat, Reign>, n: Node, full: seq<Entry>, server: nat, stamp: nat)
    requires S.WellFormed(n) && Holds(n, full) && server < n.peers && n.role == Leader
    requires E.LeaderOk(n, led) && led[n.currentTerm].log == full && LedLogOk(led, n.currentTerm)
    requires S.PrepareSend(n, server).1.SendAppend?
    ensures AppendOk(led, AppendMsg(server, stamp, S.PrepareSend(n, server).1.append))
  {
    SendCarriesSuffix(n, full, server);
  }

  lemma SentCopyOk(led: map<nat, Reign>, n: Node, full: seq<Entry>, server: nat)
    requires S.WellFormed(n) && Holds(n, full) && server < n.peers && n.role == Leader
    requires E.LeaderOk(n, led) && led[n.currentTerm].log == full
    requires S.PrepareSend(n, server).1.SendSnapshot?
    ensures CopyOk(led, SnapshotMsg(server, S.PrepareSend(n, server).1.install))
    ensures S.PrepareSend(n, server).1.install.lastIncludeIndex == n.lastIncludeIndex
  {
  }

  lemma SendLogs(s: Sys, v: nat, server: nat)
    requires E.Elections(s) && Logs(s) && Enabled(s, Send(v, server))
    ensures Logs(AfterSend(s, v, server))
  {
    var s' := AfterSend(s, v, server);
    var n := s.nodes[v];
    assert PeerLogOk(n, s.hist.full[v], s.hist.base[v], s.hist);
    HoldsSend(n, s.hist.full[v], server);
    E.CalmSend(n, server);
    SentMail(s, v, server);
    QuietStep(s, s', v);
  }

  lemma SentMail(s: Sys, v: nat, server: nat)
    requires E.Elections(s) && Logs(s) && Enabled(s, Send(v, server))
    ensures AppendsOk(s.hist.led, AfterSend(s, v, server).net.appends)
    ensures CopiesOk(s.hist.led, AfterSend(s, v, server).net.snapshots)
  {
    var n, full := s.nodes[v], s.hist.full[v];
    assert PeerLogOk(n, full, s.hist.base[v], s.hist) && E.PeerOk(s, v);
    if S.PrepareSend(n, server).1.SendAppend? {
      assert LedLogOk(s.hist.led, n.currentTerm);
      SentMessageOk(s.hist.led, n, full, server, s.hist.built);
    }
    if S.PrepareSend(n, server).1.SendSnapshot? { SentCopyOk(s.hist.led, n, full, server); }
  }

  lemma LocalLogs(s: Sys, v: nat, x: Node, emitted: set<(nat, Bytes)>)
    requires Logs(s) && v < |s.nodes| && E.Calm(s.nodes[v], x) && Holds(x, s.hist.full[v])
    requires x.lastIncludeIndex >= s.nodes[v].lastIncludeIndex
    ensures Logs(s.(nodes := s.nodes[v := x], hist := s.hist.(emitted := emitted)))
  {
    QuietStep(s, s.(nodes := s.nodes[v := x], hist := s.hist.(emitted := emitted)), v);
  }

  lemma VoteRequestLogs(s: Sys, v: nat, request: VoteArgs)
    requires Logs(s) && Enabled(s, GetVoteRequest(v, request))
    ensures Logs(AfterVoteRequest(s, v, request))
  {
    var s' := AfterVoteRequest(s, v, request);
    assert PeerLogOk(s.nodes[v], s.hist.full[v], s.hist.base[v], s.hist);
    HoldsSame(s.nodes[v], s'.nodes[v], s.hist.full[v]);
    QuietStep(s, s', v);
  }

  // ---------- steps of an election ----------

  lemma CampaignLogs(s: Sys, v: nat)
    requires E.Elections(s) && Logs(s) && Enabled(s, Campaign(v))
    ensures Logs(AfterCampaign(s, v))
  {
    var s' := AfterCampaign(s, v);
    var n, x, full := s.nodes[v], s'.nodes[v], s.hist.full[v];
    assert PeerLogOk(n, full, s.hist.base[v], s.hist);
    var k := Candidacy(x.currentTerm, v);
    assert k !in s.hist.candLog;
    HoldsSame(n, x, full);
    assert PeerLogOk(x, full, s.hist.base[v], s'.hist);
    PeersGrow(s.nodes, s'.nodes, s.hist, s'.hist, v);
    StandMore(s.hist.led, s.hist.candLog, k, s.hist.base[v]);
    assert RequestOk(s'.hist.candLog, S.StartElection(n).1);
    RequestsMore(s.hist.candLog, s'.hist.candLog, s.net.voteReqs, S.StartElection(n).1);
  }

  lemma StandMore(led: map<nat, Reign>, candLog: map<Candidacy, seq<Entry>>, k: Candidacy, log: seq<Entry>)
    requires StandsOk(candLog, led) && k !in candLog && StandOk(candLog[k := log], led, k)
    ensures StandsOk(candLog[k := log], led)
  {
    var stands := candLog[k := log];
    forall j | j in stands
      ensures StandOk(stands, led, j)
    {
      if j != k { assert StandOk(candLog, led, j); }
    }
  }

  lemma RequestsMore(candLog: map<Candidacy, seq<Entry>>, candLog': map<Candidacy, seq<Entry>>,
                     reqs: set<VoteArgs>, r: VoteArgs)
    requires RequestsOk(candLog, reqs) && RequestOk(candLog', r)
    requires forall k :: k in candLog ==> k in candLog' && candLog'[k] == candLog[k]
    ensures RequestsOk(candLog', reqs + {r})
  {
    forall x | x in reqs + {r}
      ensures RequestOk(candLog', x)
    {
      if x in reqs { assert RequestOk(candLog, x); }
    }
  }

  /** The new leader's log, older terms only, becomes the log of the reign. */
  lemma WinLogs(s: Sys, s': Sys, v: nat, r: Reign)
    requires Logs(s) && Sized(s') && v < |s.nodes| == |s'.nodes|
    requires s.nodes[v].role == Candidate && s'.nodes == s.nodes[v := s'.nodes[v]]
    requires var n, x := s.nodes[v], s'.nodes[v];
      && x.role == Leader && x.currentTerm == n.currentTerm && x.currentTerm !in s.hist.led
      && Holds(x, s.hist.full[v]) && x.lastIncludeIndex == n.lastIncludeIndex && s.hist.base[v] == s.hist.full[v]
      && r.log == s.hist.full[v] && r.start == |r.log|
      && s'.hist.led == s.hist.led[x.currentTerm := r]
    requires s'.hist.full == s.hist.full && s'.hist.base == s.hist.base
    requires s'.hist.candLog == s.hist.candLog && s'.net == s.net
    ensures Logs(s') && Grows(s.hist.led, s'.hist.led)
  {
    var t := s'.nodes[v].currentTerm;
    assert PeerLogOk(s.nodes[v], s.hist.full[v], s.hist.base[v], s.hist);
    assert StandOk(s.hist.candLog, s.hist.led, Candidacy(t, v));
    BackedGrows(r.log, s.hist.led, s'.hist.led);
    assert LedLogOk(s'.hist.led, t);
    LedLogsGrow(s.hist.led, s'.hist.led, t);
    assert PeerLogOk(s'.nodes[v], s'.hist.full[v], s'.hist.base[v], s'.hist);
    forall u | 0 <= u < |s.nodes| && s.nodes[u].currentTerm in s.hist.led
      ensures s'.hist.led[s.nodes[u].currentTerm].log == s.hist.led[s.nodes[u].currentTerm].log
    {
    }
    PeersGrow(s.nodes, s'.nodes, s.hist, s'.hist, v);
    StandsGrow(s.hist.candLog, s.hist.led, s'.hist.led);
    MailGrows(s.net, s.hist.led, s'.hist.led);
  }

  /** The step elects nobody whose log a snapshot changed. */
  ghost predicate ElectsWhole(s: Sys, a: Action)
    requires Enabled(s, a)
  {
    a.GetVoteReply? && s.nodes[a.v].role != Leader && Next(s, a).nodes[a.v].role == Leader ==>
      s.hist.base[a.v] == s.hist.full[a.v]
  }

  lemma VoteReplyLogs(s: Sys, v: nat, vote: VoteMsg)
    requires E.Elections(s) && Logs(s) && Enabled(s, GetVoteReply(v, vote)) && ElectsWhole(s, GetVoteReply(v, vote))
    ensures Logs(AfterVoteReply(s, v, vote))
    ensures Grows(s.hist.led, AfterVoteReply(s, v, vote).hist.led)
  {
    var s' := AfterVoteReply(s, v, vote);
    var n, x, full := s.nodes[v], s'.nodes[v], s.hist.full[v];
    assert PeerLogOk(n, full, s.hist.base[v], s.hist);
    HoldsSame(n, x, full);
    if x.role == Leader && n.role != Leader {
      E.CountedReplyKeeps(s, v, vote);
      WinLogs(s, s', v, s'.hist.led[x.currentTerm]);
    } else {
      QuietStep(s, s', v);
    }
  }

  // ---------- appending ----------

  /** A leader's new entry extends the log of its reign. */
  lemma ExtendReign(led: map<nat, Reign>, t: nat, e: Entry) returns (led': map<nat, Reign>)
    requires LedLogsOk(led) && t in led && e.term == t && e.index == |led[t].log|
    ensures led' == led[t := led[t].(log := led[t].log + [e])]
    ensures LedLogsOk(led') && Grows(led, led') && Backed(led'[t].log, led')
  {
    var log := led[t].log + [e];
    led' := led[t := led[t].(log := log)];
    assert LedLogOk(led, t);
    BackedGrows(led[t].log, led, led');
    forall i: nat | 0 < i < |log|
      ensures BackedAt(log, led', i)
    {
      if i < |led[t].log| { assert BackedAt(led[t].log, led', i); }
    }
    assert LedLogOk(led', t);
    LedLogsGrow(led, led', t);
  }

  lemma HoldsPropose(n: Node, full: seq<Entry>, command: Bytes)
    requires S.WellFormed(n) && n.peers >= 2 && Holds(n, full) && n.role == Leader
    ensures S.LastIndex(n) + 1 == |full|
    ensures Holds(S.Start(n, command).0, full + [Entry(n.currentTerm, |full|, command)])
  {
  }

  lemma ProposerLog(s: Sys, v: nat, command: Bytes)
    requires Logs(s) && Enabled(s, Propose(v, command)) && s.nodes[v].role == Leader
    ensures var s', t := AfterPropose(s, v, command), s.nodes[v].currentTerm;
      && t in s.hist.led && s'.hist.led == s.hist.led[t := s'.hist.led[t]]
      && LedLogsOk(s'.hist.led) && Grows(s.hist.led, s'.hist.led)
      && PeerLogOk(s'.nodes[v], s'.hist.full[v], s'.hist.base[v], s'.hist)
  {
    var n, full := s.nodes[v], s.hist.full[v];
    assert PeerLogOk(n, full, s.hist.base[v], s.hist);
    HoldsPropose(n, full, command);
    var led' := ExtendReign(s.hist.led, n.currentTerm, Entry(n.currentTerm, |full|, command));
    assert AfterPropose(s, v, command).hist.led == led';
  }

  lemma ProposeLogs(s: Sys, v: nat, command: Bytes)
    requires E.Elections(s) && Logs(s) && Enabled(s, Propose(v, command))
    ensures Logs(AfterPropose(s, v, command))
    ensures Grows(s.hist.led, AfterPropose(s, v, command).hist.led)
  {
    var s' := AfterPropose(s, v, command);
    if s.nodes[v].role == Leader {
      var led' := s'.hist.led;
      ProposerLog(s, v, command);
      forall u: nat | u < |s.nodes| && u != v && s.nodes[u].role == Leader
        ensures s.nodes[u].currentTerm != s.nodes[v].currentTerm
      {
        assert E.PeerOk(s, u) && E.PeerOk(s, v);
      }
      PeersGrow(s.nodes, s'.nodes, s.hist, s'.hist, v);
      StandsGrow(s.hist.candLog, s.hist.led, led');
      MailGrows(s.net, s.hist.led, led');
    } else {
      assert s'.nodes == s.nodes;
    }
  }

  /** What an accepted message makes of the history log. */
  function Extended(full: seq<Entry>, args: AppendArgs): seq<Entry> {
    if args.entries == [] then full else Take(full, args.prevLogIndex + 1) + args.entries
  }

  lemma ExtendedAgrees(full: seq<Entry>, b: seq<Entry>, args: AppendArgs)
    requires Agree(full, b, args.prevLogIndex + 1) && LastOfMsg(args) < |b|
    requires forall i :: 0 <= i < |args.entries| ==> args.entries[i] == b[args.prevLogIndex + 1 + i]
    ensures Agree(Extended(full, args), b, LastOfMsg(args) + 1)
    ensures args.entries != [] ==> |Extended(full, args)| == LastOfMsg(args) + 1
  {
  }

  /** On acceptance the follower's log and the leader's log agree through the end of the message. */
  lemma AcceptAgrees(led: map<nat, Reign>, full: seq<Entry>, m: AppendMsg)
    requires LedLogsOk(led) && Backed(full, led) && AppendOk(led, m)
    requires m.args.prevLogIndex < |full| && full[m.args.prevLogIndex].term == m.args.prevLogTerm
    ensures Agree(Extended(full, m.args), led[m.args.term].log, LastOfMsg(m.args) + 1)
    ensures m.args.entries != [] ==> |Extended(full, m.args)| == LastOfMsg(m.args) + 1
  {
    assert LedLogOk(led, m.args.term);
    SameTermSamePrefix(full, led[m.args.term].log, led, m.args.prevLogIndex);
    ExtendedAgrees(full, led[m.args.term].log, m.args);
  }

  /** The spliced log is numbered and of the leader's term at most. */
  lemma AcceptNumbered(led: map<nat, Reign>, full: seq<Entry>, m: AppendMsg, t: nat)
    requires LedLogsOk(led) && AppendOk(led, m) && NumberedLog(full) && TermsUpTo(full, t) && t <= m.args.term
    requires m.args.prevLogIndex < |full|
    ensures NumberedLog(Extended(full, m.args)) && TermsUpTo(Extended(full, m.args), m.args.term)
  {
    assert LedLogOk(led, m.args.term);
  }

  /** What an accepted message makes of the base: the sender's log up to the message's end. */
  function BaseAfter(led: map<nat, Reign>, base: seq<Entry>, args: AppendArgs): seq<Entry> {
    if args.entries == [] then base else LedPrefix(led, args.term, LastOfMsg(args))
  }

  lemma LedPrefixOk(led: map<nat, Reign>, t: nat, index: nat)
    requires LedLogsOk(led) && t in led && index < |led[t].log|
    ensures var prefix := LedPrefix(led, t, index);
      && |prefix| == index + 1 && Agree(prefix, led[t].log, index + 1)
      && Backed(prefix, led) && NumberedLog(prefix) && TermsUpTo(prefix, t)
  {
    assert LedLogOk(led, t);
    PrefixBacked(LedPrefix(led, t, index), led[t].log, led);
  }

  /** The receiver's log above its boundary is again what it was sent. */
  lemma AcceptBase(led: map<nat, Reign>, n: Node, x: Node, full: seq<Entry>, base: seq<Entry>, m: AppendMsg)
    requires LedLogsOk(led) && AppendOk(led, m) && BaseOk(n, full, base, led)
    requires n.lastIncludeIndex <= m.args.prevLogIndex < |full| && full[m.args.prevLogIndex].term == m.args.prevLogTerm
    requires x.lastIncludeIndex == n.lastIncludeIndex && n.currentTerm <= m.args.term == x.currentTerm
    ensures BaseOk(x, Extended(full, m.args), BaseAfter(led, base, m.args), led)
  {
    if m.args.entries != [] {
      LedPrefixOk(led, m.args.term, LastOfMsg(m.args));
      MeetsLeader(led, n, full, base, m);
      AcceptRests(led, n, full, m);
    }
  }

  lemma AcceptRests(led: map<nat, Reign>, n: Node, full: seq<Entry>, m: AppendMsg)
    requires AppendOk(led, m) && m.args.entries != [] && n.lastIncludeIndex <= m.args.prevLogIndex < |full|
    requires forall i :: n.lastIncludeIndex < i <= m.args.prevLogIndex ==> full[i] == led[m.args.term].log[i]
    ensures Rests(n, Extended(full, m.args), LedPrefix(led, m.args.term, LastOfMsg(m.args)))
  {
    var log := led[m.args.term].log;
    SplicedMeets(full, log, m.args.entries, n.lastIncludeIndex, m.args.prevLogIndex);
    assert LedPrefix(led, m.args.term, LastOfMsg(m.args)) == log[..m.args.prevLogIndex + 1 + |m.args.entries|];
  }

  lemma MeetsLeader(led: map<nat, Reign>, n: Node, full: seq<Entry>, base: seq<Entry>, m: AppendMsg)
    requires LedLogsOk(led) && AppendOk(led, m) && BaseOk(n, full, base, led)
    requires n.lastIncludeIndex <= m.args.prevLogIndex < |full| && full[m.args.prevLogIndex].term == m.args.prevLogTerm
    ensures forall i :: n.lastIncludeIndex < i <= m.args.prevLogIndex ==> full[i] == led[m.args.term].log[i]
  {
    assert LedLogOk(led, m.args.term);
    if m.args.prevLogIndex > n.lastIncludeIndex {
      SameTermSamePrefix(base, led[m.args.term].log, led, m.args.prevLogIndex);
    }
  }

  /** A log that agrees with another above `low` and up to `prev`, continued with the other's entries. */
  lemma SplicedMeets(full: seq<Entry>, log: seq<Entry>, entries: seq<Entry>, low: nat, prev: nat)
    requires low <= prev < |full| && prev + |entries| < |log| && entries != []
    requires forall i :: low < i <= prev ==> full[i] == log[i]
    requires forall i :: 0 <= i < |entries| ==> entries[i] == log[prev + 1 + i]
    ensures var full', prefix := full[..prev + 1] + entries, log[..prev + 1 + |entries|];
      && |prefix| == |full'| && prefix[|prefix| - 1] == full'[|full'| - 1]
      && forall i :: low < i < |full'| ==> prefix[i] == full'[i]
  {
    var full' := full[..prev + 1] + entries;
    forall i | low < i < |full'|
      ensures log[i] == full'[i]
    {
      if i > prev { assert full'[i] == entries[i - prev - 1]; }
    }
  }

  /** Splicing commutes with compaction. */
  lemma ViewExtended(full: seq<Entry>, k: nat, prev: nat, entries: seq<Entry>)
    requires k <= prev < |full|
    ensures View(full, k)[..prev + 1 - k] + entries == View(full[..prev + 1] + entries, k)
  {
  }

  lemma ViewSpliced(n: Node, full: seq<Entry>, args: AppendArgs)
    requires n.lastIncludeIndex <= args.prevLogIndex < |full| && n.log == View(full, n.lastIncludeIndex)
    ensures n.lastIncludeIndex < |Extended(full, args)|
    ensures S.Spliced(n, args) == View(Extended(full, args), n.lastIncludeIndex)
  {
    ViewExtended(full, n.lastIncludeIndex, args.prevLogIndex, args.entries);
  }

  /** Acceptance on the compacted log is acceptance on the history log. */
  lemma HoldsAppend(n: Node, full: seq<Entry>, args: AppendArgs)
    requires S.WellFormed(n) && Holds(n, full)
    requires S.AppendEntries(n, args).1.success
    ensures n.lastIncludeIndex <= args.prevLogIndex < |full| && full[args.prevLogIndex].term == args.prevLogTerm
    ensures n.currentTerm <= args.term == S.AppendEntries(n, args).0.currentTerm
    ensures var x, full' := S.AppendEntries(n, args).0, Extended(full, args);
      && x.lastIncludeIndex == n.lastIncludeIndex < |full'|
      && x.log == View(full', x.lastIncludeIndex) && x.lastIncludeTerm == full'[x.lastIncludeIndex].term
      && full'[0] == GENESIS && S.Synced(x)
  {
    var m := S.Adopt(n, args.term).(role := Follower);
    assert S.Accepts(m, args) && m.log == n.log && m.lastIncludeIndex == n.lastIncludeIndex;
    ViewSpliced(m, full, args);
  }

  lemma HoldsReject(n: Node, full: seq<Entry>, args: AppendArgs)
    requires S.WellFormed(n) && Holds(n, full)
    requires !S.AppendEntries(n, args).1.success
    ensures Holds(S.AppendEntries(n, args).0, full)
  {
  }

  lemma AcceptLogs(s: Sys, s': Sys, v: nat, msg: AppendMsg)
    requires Logs(s) && Sized(s') && v < |s.nodes| == |s'.nodes| && msg in s.net.appends
    requires s'.nodes == s.nodes[v := s'.nodes[v]]
    requires S.AppendEntries(s.nodes[v], msg.args).1.success && s'.nodes[v] == S.AppendEntries(s.nodes[v], msg.args).0
    requires s'.hist.full == s.hist.full[v := Extended(s.hist.full[v], msg.args)]
    requires s'.hist.base == s.hist.base[v := BaseAfter(s.hist.led, s.hist.base[v], msg.args)]
    requires s'.hist.led == s.hist.led && s'.hist.candLog == s.hist.candLog
    requires s'.net.voteReqs == s.net.voteReqs && s'.net.appends == s.net.appends && s'.net.snapshots == s.net.snapshots
    ensures Logs(s')
  {
    var n, full, base := s.nodes[v], s.hist.full[v], s.hist.base[v];
    assert PeerLogOk(n, full, base, s.hist);
    assert AppendOk(s.hist.led, msg);
    HoldsAppend(n, full, msg.args);
    AcceptNumbered(s.hist.led, full, msg, n.currentTerm);
    AcceptBase(s.hist.led, n, s'.nodes[v], full, base, msg);
    assert PeerLogOk(s'.nodes[v], s'.hist.full[v], s'.hist.base[v], s'.hist);
    PeersGrow(s.nodes, s'.nodes, s.hist, s'.hist, v);
  }

  lemma AcceptedLogs(s: Sys, v: nat, msg: AppendMsg)
    requires Logs(s) && Enabled(s, GetAppend(v, msg)) && S.AppendEntries(s.nodes[v], msg.args).1.success
    ensures Logs(AfterAppend(s, v, msg))
  {
    E.CalmHandlers(s.nodes[v]);
    AcceptLogs(s, AfterAppend(s, v, msg), v, msg);
  }

  lemma RefusedLogs(s: Sys, v: nat, msg: AppendMsg)
    requires Logs(s) && Enabled(s, GetAppend(v, msg)) && !S.AppendEntries(s.nodes[v], msg.args).1.success
    ensures Logs(AfterAppend(s, v, msg))
  {
    E.CalmHandlers(s.nodes[v]);
    assert PeerLogOk(s.nodes[v], s.hist.full[v], s.hist.base[v], s.hist);
    HoldsReject(s.nodes[v], s.hist.full[v], msg.args);
    QuietStep(s, AfterAppend(s, v, msg), v);
  }

  lemma AppendLogs(s: Sys, v: nat, msg: AppendMsg)
    requires Logs(s) && Enabled(s, GetAppend(v, msg))
    ensures Logs(AfterAppend(s, v, msg))
    ensures s.hist.led == AfterAppend(s, v, msg).hist.led
  {
    if S.AppendEntries(s.nodes[v], msg.args).1.success { AcceptedLogs(s, v, msg); } else { RefusedLogs(s, v, msg); }
  }

  // ---------- installing a snapshot ----------

  /** The compacted log after InstallSnapshot stands for the leader's prefix and the old suffix. */
  lemma HoldsInstall(n: Node, full: seq<Entry>, args: SnapshotArgs, prefix: seq<Entry>)
    requires S.WellFormed(n) && Holds(n, full) && args.term >= n.currentTerm
    requires args.lastIncludeIndex > n.lastIncludeIndex
    requires |prefix| == args.lastIncludeIndex + 1 && prefix[args.lastIncludeIndex].term == args.lastIncludeTerm
    requires prefix[0] == GENESIS && NumberedLog(prefix) && TermsUpTo(prefix, args.term)
    ensures Holds(S.InstallSnapshot(n, args).0, Installed(full, prefix))
  {
    var whole := Installed(full, prefix);
    forall i | 0 <= i < |whole| ensures whole[i].index == i && whole[i].term <= args.term {
      assert i >= |prefix| ==> whole[i] == full[i];
    }
  }

  /** The base is replaced only when nothing is left of it. */
  lemma InstallBase(n: Node, x: Node, full: seq<Entry>, base: seq<Entry>, prefix: seq<Entry>, led: map<nat, Reign>)
    requires BaseOk(n, full, base, led) && n.currentTerm <= x.currentTerm && n.lastIncludeIndex < x.lastIncludeIndex
    requires |prefix| == x.lastIncludeIndex + 1
    requires Backed(prefix, led) && NumberedLog(prefix) && TermsUpTo(prefix, x.currentTerm)
    ensures BaseOk(x, Installed(full, prefix), if |base| <= |prefix| then prefix else base, led)
  {
  }

  lemma InstallLogs(s: Sys, s': Sys, v: nat, copy: SnapshotMsg)
    requires Logs(s) && Sized(s') && v < |s.nodes| == |s'.nodes| && copy in s.net.snapshots
    requires Installs(s.nodes[v], copy.args)
    requires s'.nodes == s.nodes[v := s'.nodes[v]] && s'.nodes[v] == S.InstallSnapshot(s.nodes[v], copy.args).0
    requires s'.hist == Restored(s.hist, v, copy.args) && s'.net == s.net
    ensures Logs(s')
  {
    assert PeerLogOk(s.nodes[v], s.hist.full[v], s.hist.base[v], s.hist) && CopyOk(s.hist.led, copy);
    InstalledLog(s.nodes[v], s.hist.full[v], s.hist.base[v], s.hist, copy);
    assert PeerLogOk(s'.nodes[v], s'.hist.full[v], s'.hist.base[v], s'.hist);
    PeersGrow(s.nodes, s'.nodes, s.hist, s'.hist, v);
  }

  /** What the receiver of a snapshot holds, and what backs it. */
  lemma InstalledLog(n: Node, full: seq<Entry>, base: seq<Entry>, h: Hist, copy: SnapshotMsg)
    requires S.WellFormed(n) && LedLogsOk(h.led) && CopyOk(h.led, copy) && Installs(n, copy.args)
    requires Holds(n, full) && BaseOk(n, full, base, h.led)
    ensures var prefix := LedPrefix(h.led, copy.args.term, copy.args.lastIncludeIndex);
      && Holds(S.InstallSnapshot(n, copy.args).0, Installed(full, prefix))
      && BaseOk(S.InstallSnapshot(n, copy.args).0, Installed(full, prefix),
                if |base| <= |prefix| then prefix else base, h.led)
  {
    var prefix := LedPrefix(h.led, copy.args.term, copy.args.lastIncludeIndex);
    LedPrefixOk(h.led, copy.args.term, copy.args.lastIncludeIndex);
    HoldsInstall(n, full, copy.args, prefix);
    InstallBase(n, S.InstallSnapshot(n, copy.args).0, full, base, prefix, h.led);
  }

  lemma SnapshotLogs(s: Sys, v: nat, copy: SnapshotMsg)
    requires Logs(s) && Enabled(s, GetSnapshot(v, copy))
    ensures Logs(AfterSnapshot(s, v, copy))
    ensures s.hist.led == AfterSnapshot(s, v, copy).hist.led
  {
    var s' := AfterSnapshot(s, v, copy);
    E.CalmInstall(s.nodes[v], copy.args);
    if Installs(s.nodes[v], copy.args) {
      InstallLogs(s, s', v, copy);
    } else {
      assert PeerLogOk(s.nodes[v], s.hist.full[v], s.hist.base[v], s.hist);
      HoldsSame(s.nodes[v], s'.nodes[v], s.hist.full[v]);
      QuietStep(s, s', v);
    }
  }

  // ---------- every step ----------

  /** The new state of a peer after a step that involves no other peer's history. */
  ghost function LocalMove(s: Sys, a: Action): (Node, set<(nat, Bytes)>)
    requires Enabled(s, a) && IsLocal(a)
  {
    var n := s.nodes[a.v];
    match a
    case GetAppendReply(v, ack) => (S.AppendReplied(n, ack.from, ack.args, ack.reply), s.hist.emitted)
    case GetSnapshotReply(v, from, term, replyTerm) => (S.SnapshotReplied(n, from, term, replyTerm), s.hist.emitted)
    case Compact(v, index, data) => (S.TakeSnapshot(n, index, data), s.hist.emitted)
    case ApplyCommitted(v) => (S.Apply(n).0, s.hist.emitted + CommandsOf(S.Apply(n).1))
    case Crash(v) => (S.Restart(n.me, n.peers, n.disk), s.hist.emitted)
  }

  /** A move that neither votes nor changes what the log stands for. */
  ghost predicate Rearranged(n: Node, x: Node, full: seq<Entry>) {
    Holds(x, full) && E.Calm(n, x) && x.lastIncludeIndex >= n.lastIncludeIndex
  }

  lemma AppendReplyHolds(n: Node, full: seq<Entry>, from: nat, args: AppendArgs, reply: AppendReply)
    requires S.WellFormed(n) && from < n.peers && Holds(n, full)
    ensures Rearranged(n, S.AppendReplied(n, from, args, reply), full)
  {
    E.CalmAppendReply(n, from, args, reply);
    HoldsSame(n, S.AppendReplied(n, from, args, reply), full);
  }

  lemma SnapshotReplyHolds(n: Node, full: seq<Entry>, from: nat, term: nat, replyTerm: nat)
    requires S.WellFormed(n) && from < n.peers && Holds(n, full)
    ensures Rearranged(n, S.SnapshotReplied(n, from, term, replyTerm), full)
  {
    E.CalmSnapshotReply(n, from, term, replyTerm);
    HoldsSame(n, S.SnapshotReplied(n, from, term, replyTerm), full);
  }

  lemma CompactHolds(n: Node, full: seq<Entry>, index: nat, data: Bytes)
    requires S.WellFormed(n) && index <= S.LastIndex(n) && Holds(n, full)
    ensures Rearranged(n, S.TakeSnapshot(n, index, data), full)
  {
    E.CalmCompact(n, index, data);
    HoldsCompact(n, full, index, data);
  }

  lemma ApplyHolds(n: Node, full: seq<Entry>)
    requires S.WellFormed(n) && n.peers >= 2 && Holds(n, full)
    ensures Rearranged(n, S.Apply(n).0, full)
  {
    E.CalmHandlers(n);
    HoldsSame(n, S.Apply(n).0, full);
  }

  lemma CrashHolds(n: Node, full: seq<Entry>)
    requires S.WellFormed(n) && n.peers >= 2 && Holds(n, full)
    ensures Rearranged(n, S.Restart(n.me, n.peers, n.disk), full)
  {
    E.CalmCrash(n);
    HoldsCrash(n, full);
  }

  lemma LocalMoveHolds(s: Sys, a: Action, full: seq<Entry>)
    requires Enabled(s, a) && IsLocal(a)
    requires Holds(s.nodes[a.v], full)
    ensures Rearranged(s.nodes[a.v], LocalMove(s, a).0, full)
  {
    var n := s.nodes[a.v];
    match a
    case GetAppendReply(v, ack) => AppendReplyHolds(n, full, ack.from, ack.args, ack.reply);
    case GetSnapshotReply(v, from, term, replyTerm) => SnapshotReplyHolds(n, full, from, term, replyTerm);
    case Compact(v, index, data) => CompactHolds(n, full, index, data);
    case ApplyCommitted(v) => ApplyHolds(n, full);
    case Crash(v) => CrashHolds(n, full);
  }

  lemma LocalStepLogs(s: Sys, a: Action)
    requires Logs(s) && Enabled(s, a) && IsLocal(a)
    ensures Logs(Next(s, a)) && Next(s, a).hist.led == s.hist.led
  {
    assert PeerLogOk(s.nodes[a.v], s.hist.full[a.v], s.hist.base[a.v], s.hist);
    LocalMoveHolds(s, a, s.hist.full[a.v]);
    LocalLogs(s, a.v, LocalMove(s, a).0, LocalMove(s, a).1);
  }

  lemma LogsKept(s: Sys, a: Action)
    requires E.Elections(s) && Logs(s) && Enabled(s, a) && ElectsWhole(s, a)
    ensures Logs(Next(s, a)) && Grows(s.hist.led, Next(s, a).hist.led)
  {
    match a
    case Campaign(v) => CampaignLogs(s, v);
    case GetVoteRequest(v, request) => VoteRequestLogs(s, v, request);
    case GetVoteReply(v, vote) => VoteReplyLogs(s, v, vote);
    case Propose(v, command) => ProposeLogs(s, v, command);
    case Send(v, server) => SendLogs(s, v, server);
    case GetAppend(v, msg) => AppendLogs(s, v, msg);
    case GetSnapshot(v, copy) => SnapshotLogs(s, v, copy);
    case _ => LocalStepLogs(s, a);
  }

  lemma ExtendedIsPrefix(led: map<nat, Reign>, full: seq<Entry>, m: AppendMsg)
    requires LedLogsOk(led) && Backed(full, led) && AppendOk(led, m) && m.args.entries != []
    requires m.args.prevLogIndex < |full| && full[m.args.prevLogIndex].term == m.args.prevLogTerm
    ensures Extended(full, m.args) == LedPrefix(led, m.args.term, LastOfMsg(m.args))
  {
    AcceptAgrees(led, full, m);
  }

  lemma AcceptWhole(s: Sys, v: nat, msg: AppendMsg)
    requires Logs(s) && Whole(s.hist) && Enabled(s, GetAppend(v, msg))
    requires S.AppendEntries(s.nodes[v], msg.args).1.success
    ensures Extended(s.hist.full[v], msg.args) == BaseAfter(s.hist.led, s.hist.full[v], msg.args)
  {
    var full := s.hist.full[v];
    assert PeerLogOk(s.nodes[v], full, s.hist.base[v], s.hist);
    assert AppendOk(s.hist.led, msg);
    HoldsAppend(s.nodes[v], full, msg.args);
    if msg.args.entries != [] { ExtendedIsPrefix(s.hist.led, full, msg); }
  }

  lemma AppendWhole(s: Sys, v: nat, msg: AppendMsg)
    requires Logs(s) && Whole(s.hist) && Enabled(s, GetAppend(v, msg))
    ensures Whole(AfterAppend(s, v, msg).hist)
  {
    if S.AppendEntries(s.nodes[v], msg.args).1.success { AcceptWhole(s, v, msg); }
  }

  /** The peer's log ends at the snapshot or before, or has the snapshot's term where it ends. */
  predicate Fits(n: Node, args: SnapshotArgs) {
    n.lastIncludeIndex + |n.log| - 1 <= args.lastIncludeIndex
    || (n.lastIncludeIndex <= args.lastIncludeIndex
        && n.log[args.lastIncludeIndex - n.lastIncludeIndex].term == args.lastIncludeTerm)
  }

  /** No snapshot is installed that does not fit. */
  ghost predicate Fitting(s: Sys, a: Action) {
    a.GetSnapshot? && a.v < |s.nodes| && Installs(s.nodes[a.v], a.copy.args) ==> Fits(s.nodes[a.v], a.copy.args)
  }

  lemma InstalledWhole(full: seq<Entry>, prefix: seq<Entry>, led: map<nat, Reign>)
    requires Backed(full, led) && Backed(prefix, led)
    requires |full| <= |prefix| || full[|prefix| - 1].term == prefix[|prefix| - 1].term
    ensures Installed(full, prefix) == if |full| <= |prefix| then prefix else full
  {
    if |full| > |prefix| { SameTermSamePrefix(full, prefix, led, |prefix| - 1); }
  }

  lemma InstallWhole(s: Sys, v: nat, copy: SnapshotMsg)
    requires Logs(s) && Whole(s.hist) && Enabled(s, GetSnapshot(v, copy)) && Fitting(s, GetSnapshot(v, copy))
    ensures Whole(AfterSnapshot(s, v, copy).hist)
  {
    var n, full, args := s.nodes[v], s.hist.full[v], copy.args;
    if Installs(n, args) {
      assert PeerLogOk(n, full, s.hist.base[v], s.hist) && CopyOk(s.hist.led, copy);
      LedPrefixOk(s.hist.led, args.term, args.lastIncludeIndex);
      InstalledWhole(full, LedPrefix(s.hist.led, args.term, args.lastIncludeIndex), s.hist.led);
    }
  }

  /** With fitting snapshots every log stays backed as a whole. */
  lemma WholeKept(s: Sys, a: Action)
    requires Logs(s) && Whole(s.hist) && Enabled(s, a) && Fitting(s, a)
    ensures Whole(Next(s, a).hist)
  {
    if a.GetAppend? { AppendWhole(s, a.v, a.msg); }
    if a.GetSnapshot? { InstallWhole(s, a.v, a.copy); }
  }
}
