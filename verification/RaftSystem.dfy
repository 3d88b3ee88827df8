/** A cluster of Raft peers and its network as a step system. Every lock-protected section of a peer is
    one step. A message that was sent stays available for ever, so it may be lost, delayed, reordered or
    delivered twice. A leader may handle a reply to an InstallSnapshot at any time, from any peer, for any
    term and with any term in it.

    `Hist` records what happened and never decides what can happen: each peer's log as if nothing had
    been dropped into a snapshot, every candidacy, every vote, the log of every reign, what each peer
    acknowledged in each term, what was committed, and every command handed to a state machine.

    An InstallSnapshot leaves the receiver's suffix behind a prefix it may not belong to. `base` is each
    peer's log without such changes: a log some leader had. The two differ at most up to the boundary. */
module RaftSystem {
  import opened RaftTypes
  import S = RaftStep

  datatype VoteMsg = VoteMsg(from: nat, args: VoteArgs, reply: VoteReply)
  datatype AppendMsg = AppendMsg(to: nat, stamp: nat, args: AppendArgs)
  datatype AppendAck = AppendAck(from: nat, args: AppendArgs, reply: AppendReply)
  datatype SnapshotMsg = SnapshotMsg(to: nat, args: SnapshotArgs)

  datatype Net = Net(
    voteReqs: set<VoteArgs>, voteReplies: set<VoteMsg>,
    appends: set<AppendMsg>, appendReplies: set<AppendAck>, snapshots: set<SnapshotMsg>)

  datatype Vote = Vote(voter: nat, term: nat, candidate: nat)
  datatype Candidacy = Candidacy(term: nat, id: nat)
  /** A won election: who won, with whose votes, the log length at that moment, and the log since. */
  datatype Reign = Reign(leader: nat, voters: set<nat>, start: nat, log: seq<Entry>)
  datatype Pos = Pos(term: nat, index: nat)

  datatype Hist = Hist(
    full: seq<seq<Entry>>,
    base: seq<seq<Entry>>,
    candLog: map<Candidacy, seq<Entry>>,
    granted: set<Vote>,
    supporters: seq<set<nat>>,
    led: map<nat, Reign>,
    acked: seq<map<nat, nat>>,
    committed: map<Pos, set<nat>>,
    emitted: set<(nat, Bytes)>,
    built: nat,
    seen: seq<map<nat, nat>>)

  datatype Sys = Sys(nodes: seq<Node>, net: Net, hist: Hist)

  ghost predicate Sized(s: Sys) {
    && |s.nodes| >= 2
    && |s.hist.full| == |s.hist.base| == |s.hist.supporters| == |s.hist.acked| == |s.hist.seen| == |s.nodes|
    && (forall v :: 0 <= v < |s.nodes| ==> s.nodes[v].me == v && s.nodes[v].peers == |s.nodes|)
    && (forall v :: 0 <= v < |s.nodes| ==> S.WellFormed(s.nodes[v]))
  }

  ghost predicate Init(s: Sys) {
    && |s.nodes| >= 2
    && s.nodes == seq(|s.nodes|, v requires v >= 0 => S.Restart(v, |s.nodes|, None))
    && s.net == Net({}, {}, {}, {}, {})
    && s.hist == Hist(seq(|s.nodes|, _ => [GENESIS]), seq(|s.nodes|, _ => [GENESIS]), map[], {},
                      seq(|s.nodes|, _ => {}),
                      map[], seq(|s.nodes|, _ => map[]), map[], {}, 0, seq(|s.nodes|, _ => map[]))
  }

  datatype Action =
    | Campaign(v: nat)
    | GetVoteRequest(v: nat, request: VoteArgs)
    | GetVoteReply(v: nat, vote: VoteMsg)
    | Propose(v: nat, command: Bytes)
    | Send(v: nat, server: nat)
    | GetAppend(v: nat, msg: AppendMsg)
    | GetAppendReply(v: nat, ack: AppendAck)
    | GetSnapshot(v: nat, copy: SnapshotMsg)
    | GetSnapshotReply(v: nat, from: nat, term: nat, replyTerm: nat)
    | Compact(v: nat, index: nat, data: Bytes)
    | ApplyCommitted(v: nat)
    | Crash(v: nat)

  /** When a step can happen: the node exists, and the message it handles was sent. */
  ghost predicate Enabled(s: Sys, a: Action) {
    && Sized(s)
    && a.v < |s.nodes|
    && match a
       case GetVoteRequest(v, request) => request in s.net.voteReqs && request.candidate != v
       case GetVoteReply(v, vote) =>
         vote in s.net.voteReplies && vote.args.candidate == v && vote.from in s.nodes[v].awaiting
       case Send(v, server) => server < |s.nodes| && server != v
       case GetAppend(v, msg) => msg in s.net.appends && msg.to == v
       case GetAppendReply(v, ack) =>
         ack in s.net.appendReplies && ack.args.leader == v && ack.from < |s.nodes| && ack.from != v
       case GetSnapshot(v, copy) => copy in s.net.snapshots && copy.to == v
       case GetSnapshotReply(v, from, term, replyTerm) => from < |s.nodes| && from != v
       case Compact(v, index, data) =>
         index <= S.LastIndex(s.nodes[v]) && index <= s.nodes[v].lastApplied
       case _ => true
  }

  /** Steps that change one peer and what it hands to its state machine, and nothing else. */
  predicate IsLocal(a: Action) {
    a.GetAppendReply? || a.GetSnapshotReply? || a.Compact? || a.ApplyCommitted? || a.Crash?
  }

  function Take<T>(s: seq<T>, k: nat): seq<T> { if k <= |s| then s[..k] else s }

  function Raised(m: map<nat, nat>, k: nat, value: nat): map<nat, nat> {
    if k in m && m[k] >= value then m else m[k := value]
  }

  function LastOf(log: seq<Entry>): nat { if |log| == 0 then 0 else |log| - 1 }

  ghost function AfterCampaign(s: Sys, v: nat): Sys
    requires Enabled(s, Campaign(v))
  {
    var (x, args) := S.StartElection(s.nodes[v]);
    var h := s.hist;
    Sys(s.nodes[v := x], s.net.(voteReqs := s.net.voteReqs + {args}),
        h.(candLog := h.candLog[Candidacy(x.currentTerm, v) := h.base[v]],
           granted := h.granted + {Vote(v, x.currentTerm, v)},
           supporters := h.supporters[v := {v}]))
  }

  ghost function AfterVoteRequest(s: Sys, v: nat, request: VoteArgs): Sys
    requires Enabled(s, GetVoteRequest(v, request))
  {
    var (x, r) := S.RequestVote(s.nodes[v], request);
    var h := s.hist;
    Sys(s.nodes[v := x], s.net.(voteReplies := s.net.voteReplies + {VoteMsg(v, request, r)}),
        if r.granted then h.(granted := h.granted + {Vote(v, request.term, request.candidate)}) else h)
  }

  /** The reply adds its sender to the supporters of the running election. */
  predicate Counts(n: Node, vote: VoteMsg) {
    n.role == Candidate && n.currentTerm == vote.args.term && vote.reply.granted && vote.reply.term == vote.args.term
  }

  function Supported(h: Hist, v: nat, n: Node, vote: VoteMsg): Hist
    requires v < |h.supporters|
  {
    if Counts(n, vote) then h.(supporters := h.supporters[v := h.supporters[v] + {vote.from}]) else h
  }

  /** The record with the reign that begins if `n`, afterwards `x`, has just won. */
  function Crowned(h: Hist, v: nat, n: Node, x: Node): Hist
    requires v < |h.supporters| && v < |h.full| && v < |h.acked|
  {
    if x.role == Leader && n.role != Leader then
      h.(led := h.led[x.currentTerm := Reign(v, h.supporters[v], |h.full[v]|, h.full[v])],
         acked := h.acked[v := Raised(h.acked[v], x.currentTerm, LastOf(h.full[v]))])
    else h
  }

  ghost function AfterVoteReply(s: Sys, v: nat, vote: VoteMsg): Sys
    requires Enabled(s, GetVoteReply(v, vote))
  {
    var n := s.nodes[v];
    var x := S.VoteReplied(n, vote.from, vote.args.term, vote.reply);
    s.(nodes := s.nodes[v := x], hist := Crowned(Supported(s.hist, v, n, vote), v, n, x))
  }

  ghost function AfterPropose(s: Sys, v: nat, command: Bytes): Sys
    requires Enabled(s, Propose(v, command))
  {
    var n := s.nodes[v];
    var h := s.hist;
    var full := h.full[v] + [Entry(n.currentTerm, S.LastIndex(n) + 1, command)];
    s.(nodes := s.nodes[v := S.Start(n, command).0],
       hist := if n.role != Leader || n.currentTerm !in h.led then h
               else h.(full := h.full[v := full], base := h.base[v := full],
                       led := h.led[n.currentTerm := h.led[n.currentTerm].(log := full)],
                       acked := h.acked[v := Raised(h.acked[v], n.currentTerm, LastOf(full))]))
  }

  /** The network with what a round of a leader sent to `server`. */
  function Posted(net: Net, server: nat, stamp: nat, out: Outgoing): Net {
    match out
    case Nothing => net
    case SendAppend(args) => net.(appends := net.appends + {AppendMsg(server, stamp, args)})
    case SendSnapshot(args) => net.(snapshots := net.snapshots + {SnapshotMsg(server, args)})
  }

  /** The record with what the round of `n`, afterwards `x`, committed and built. */
  ghost function Booked(h: Hist, n: Node, x: Node, out: Outgoing): Hist
    requires n.role == Leader ==> |n.matchIndex| == n.peers
  {
    h.(committed := if x.commitIndex > n.commitIndex && n.role == Leader
                    then h.committed[Pos(n.currentTerm, x.commitIndex) := S.Matching(n, x.commitIndex) + {n.me}]
                    else h.committed,
       built := if out.SendAppend? then h.built + 1 else h.built)
  }

  ghost function AfterSend(s: Sys, v: nat, server: nat): Sys
    requires Enabled(s, Send(v, server))
  {
    var n := s.nodes[v];
    var (x, out) := S.PrepareSend(n, server);
    Sys(s.nodes[v := x], Posted(s.net, server, s.hist.built, out), Booked(s.hist, n, x, out))
  }

  /** The prefix of the log of term `t` that ends at `index`. */
  function LedPrefix(led: map<nat, Reign>, t: nat, index: nat): seq<Entry> {
    if t in led then Take(led[t].log, index + 1) else []
  }

  /** An accepted heartbeat that confirms an entry of its own leader's term says that the peer has the log up to
      there, unless the peer knows that entry from a snapshot alone. */
  predicate Confirms(base: seq<Entry>, args: AppendArgs) {
    || args.entries != [] || args.prevLogTerm < args.term
    || (args.prevLogIndex < |base| && base[args.prevLogIndex].term == args.prevLogTerm)
  }

  /** The record after `v` accepted a message. */
  function Appended(h: Hist, v: nat, args: AppendArgs): Hist
    requires v < |h.full| && v < |h.base| && v < |h.acked|
  {
    var last := args.prevLogIndex + |args.entries|;
    h.(full := h.full[v := if args.entries == [] then h.full[v]
                           else Take(h.full[v], args.prevLogIndex + 1) + args.entries],
       base := h.base[v := if args.entries == [] then h.base[v] else LedPrefix(h.led, args.term, last)],
       acked := if Confirms(h.base[v], args) then h.acked[v := Raised(h.acked[v], args.term, last)] else h.acked)
  }

  ghost function AfterAppend(s: Sys, v: nat, msg: AppendMsg): Sys
    requires Enabled(s, GetAppend(v, msg))
  {
    var (x, r) := S.AppendEntries(s.nodes[v], msg.args);
    var h := s.hist.(seen := s.hist.seen[v := Raised(s.hist.seen[v], msg.args.term, msg.stamp)]);
    Sys(s.nodes[v := x], s.net.(appendReplies := s.net.appendReplies + {AppendAck(v, msg.args, r)}),
        if r.success then Appended(h, v, msg.args) else h)
  }

  ghost function AfterAppendReply(s: Sys, v: nat, ack: AppendAck): Sys
    requires Enabled(s, GetAppendReply(v, ack))
  {
    s.(nodes := s.nodes[v := S.AppendReplied(s.nodes[v], ack.from, ack.args, ack.reply)])
  }

  /** What an installed snapshot makes of a log: the leader's prefix, then whatever was there. */
  function Installed(full: seq<Entry>, prefix: seq<Entry>): seq<Entry> {
    prefix + (if |prefix| <= |full| then full[|prefix|..] else [])
  }

  /** The record after `v` installed a snapshot. */
  function Restored(h: Hist, v: nat, args: SnapshotArgs): Hist
    requires v < |h.full| && v < |h.base|
  {
    var prefix := LedPrefix(h.led, args.term, args.lastIncludeIndex);
    h.(full := h.full[v := Installed(h.full[v], prefix)],
       base := h.base[v := if |h.base[v]| <= |prefix| then prefix else h.base[v]])
  }

  /** Not an old term's, nor one the peer already has. */
  predicate Installs(n: Node, args: SnapshotArgs) {
    args.term >= n.currentTerm && args.lastIncludeIndex > n.lastIncludeIndex
  }

  ghost function AfterSnapshot(s: Sys, v: nat, copy: SnapshotMsg): Sys
    requires Enabled(s, GetSnapshot(v, copy))
  {
    Sys(s.nodes[v := S.InstallSnapshot(s.nodes[v], copy.args).0], s.net,
        if Installs(s.nodes[v], copy.args) then Restored(s.hist, v, copy.args) else s.hist)
  }

  function CommandsOf(msgs: seq<ApplyMsg>): set<(nat, Bytes)> {
    set k | 0 <= k < |msgs| && msgs[k].ApplyCommand? :: (msgs[k].index, msgs[k].command)
  }

  ghost function AfterApply(s: Sys, v: nat): Sys
    requires Enabled(s, ApplyCommitted(v))
  {
    var (x, msgs) := S.Apply(s.nodes[v]);
    s.(nodes := s.nodes[v := x], hist := s.hist.(emitted := s.hist.emitted + CommandsOf(msgs)))
  }

  ghost function Next(s: Sys, a: Action): Sys
    requires Enabled(s, a)
  {
    match a
    case Campaign(v) => AfterCampaign(s, v)
    case GetVoteRequest(v, request) => AfterVoteRequest(s, v, request)
    case GetVoteReply(v, vote) => AfterVoteReply(s, v, vote)
    case Propose(v, command) => AfterPropose(s, v, command)
    case Send(v, server) => AfterSend(s, v, server)
    case GetAppend(v, msg) => AfterAppend(s, v, msg)
    case GetAppendReply(v, ack) => AfterAppendReply(s, v, ack)
    case GetSnapshot(v, copy) => AfterSnapshot(s, v, copy)
    case GetSnapshotReply(v, from, term, replyTerm) =>
      s.(nodes := s.nodes[v := S.SnapshotReplied(s.nodes[v], from, term, replyTerm)])
    case Compact(v, index, data) => s.(nodes := s.nodes[v := S.TakeSnapshot(s.nodes[v], index, data)])
    case ApplyCommitted(v) => AfterApply(s, v)
    case Crash(v) => s.(nodes := s.nodes[v := S.Restart(v, |s.nodes|, s.nodes[v].disk)])
  }
}
