/** The log of the cluster and the servers that apply it, put together. Every server reads its own clock and visits
    a revoked lease's keys in its own order. */
module Replicas {
  import opened RaftTypes
  import opened Keys
  import opened MvccSpec
  import opened ApplySpec
  import opened ReplicaState
  import T = MvccTxn
  import O = ApplyOnce
  import Y = RaftSystem
  import R = RaftSafety

  // ---------- one command on two servers ----------

  /** What has to agree for a command: each lease it looks up is expired on both servers by their own clocks or on
      neither, and a revoke visits the keys in the same order. For a transaction only the puts of the branch before
      the first unknown lease are looked up. */
  predicate Agrees(a: State, b: State, x: Item, y: Item) {
    match x.cmd.kind
    case KindKV =>
      x.cmd.kv.None? || !x.cmd.kv.value.op.CmdPut? || x.cmd.kv.value.leaseID == 0
      || (IsLate(a, x.cmd.kv.value.leaseID, x.now) <==> IsLate(b, x.cmd.kv.value.leaseID, y.now))
    case KindTxn =>
      x.cmd.txn.None?
        || (SomeLate(a, T.Branch(a, x.cmd.txn.value.txn), x.now) <==>
            SomeLate(b, T.Branch(b, x.cmd.txn.value.txn), y.now))
    case KindLeaseRevoke => x.cmd.revoke.None? || x.cmd.revoke.value.id !in a.leases || x.order == y.order
    case KindLeaseKeepAlive =>
      x.cmd.keepAlive.None?
        || (IsLate(a, x.cmd.keepAlive.value.id, x.now) <==> IsLate(b, x.cmd.keepAlive.value.id, y.now))
    case _ => true
  }

  ghost predicate SameOutcome(a: State, b: State, x: Item, y: Item) {
    Alike(Perform(a, x).0, Perform(b, y).0) && Perform(a, x).1 == Perform(b, y).1
  }

  lemma SameIds(a: State, b: State, id: int)
    requires Alike(a, b)
    ensures id in a.leases <==> id in b.leases
    ensures id in a.leases ==> a.leases[id].ttl == b.leases[id].ttl
  {
    assert id in a.leases <==> id in Timeless(a).leases;
    assert id in b.leases <==> id in Timeless(b).leases;
    assert id in a.leases ==> Timeless(a).leases[id] == Timeless(b).leases[id];
  }

  lemma PutAgreesIff(a: State, b: State, x: Item, y: Item)
    requires Alike(a, b) && x.cmd == y.cmd && x.cmd.kind == KindKV
    ensures SameOutcome(a, b, x, y) <==> Agrees(a, b, x, y)
  {
    if x.cmd.kv.Some? {
      var c := x.cmd.kv.value;
      SameIds(a, b, c.leaseID);
      if c.op.CmdDelete? {
        TimelessDelete(a, c.key);
        TimelessDelete(b, c.key);
      } else if c.op.CmdPut? && Put(a, c.key, c.value, c.leaseID, x.now).1.Ok?
        && Put(b, c.key, c.value, c.leaseID, y.now).1.Ok? {
        var w := Write(c.key, c.value, false);
        TimelessAppend(a, w);
        TimelessAppend(b, w);
        TimelessBound(Append(a, w), c.key, c.leaseID);
        TimelessBound(Append(b, w), c.key, c.leaseID);
      }
    }
  }

  lemma TxnAgreesIff(a: State, b: State, x: Item, y: Item)
    requires Alike(a, b) && x.cmd == y.cmd && x.cmd.kind == KindTxn
    ensures SameOutcome(a, b, x, y) <==> Agrees(a, b, x, y)
  {
    if x.cmd.txn.Some? {
      var t := x.cmd.txn.value.txn;
      TimelessBranch(a, t);
      TimelessBranch(b, t);
      var ops := T.Branch(a, t);
      FirstBadIs(a, ops, x.now);
      FirstBadIs(b, ops, y.now);
      SameUnknown(a, b, ops);
      if T.FirstBad(a, ops, x.now) == None && T.FirstBad(b, ops, y.now) == None {
        TimelessExec(a, ops);
        TimelessExec(b, ops);
      }
    }
  }

  lemma SameUnknown(a: State, b: State, ops: seq<T.Operation>)
    requires Alike(a, b)
    ensures forall i :: 0 <= i < |ops| ==> UnknownPut(a, ops[i]) == UnknownPut(b, ops[i])
  {
    forall i | 0 <= i < |ops| && ops[i].OpPut?
      ensures UnknownPut(a, ops[i]) == UnknownPut(b, ops[i])
    {
      SameIds(a, b, ops[i].leaseID);
    }
  }

  lemma LeaseAgreesIff(a: State, b: State, x: Item, y: Item)
    requires Alike(a, b) && x.cmd == y.cmd && (x.cmd.kind == KindLeaseGrant || x.cmd.kind == KindLeaseKeepAlive)
    ensures SameOutcome(a, b, x, y) <==> Agrees(a, b, x, y)
  {
    if x.cmd.kind == KindLeaseGrant && x.cmd.grant.Some? {
      TimelessGrant(a, x.cmd.grant.value.ttl, x.now);
      TimelessGrant(b, x.cmd.grant.value.ttl, y.now);
    }
    if x.cmd.kind == KindLeaseKeepAlive && x.cmd.keepAlive.Some? {
      SameIds(a, b, x.cmd.keepAlive.value.id);
      TimelessKeepAlive(a, x.cmd.keepAlive.value.id, x.now);
      TimelessKeepAlive(b, x.cmd.keepAlive.value.id, y.now);
    }
  }

  lemma RevokeAgreesIff(a: State, b: State, x: Item, y: Item)
    requires Alike(a, b) && x.cmd == y.cmd && x.cmd.kind == KindLeaseRevoke
    ensures SameOutcome(a, b, x, y) <==> Agrees(a, b, x, y)
  {
    if x.cmd.revoke.Some? {
      var id := x.cmd.revoke.value.id;
      SameIds(a, b, id);
      TimelessRevoke(a, id, x.order);
      TimelessRevoke(b, id, y.order);
      if id in a.leases {
        assert id in Timeless(a).leases;
        OrderMattersIff(Timeless(a), id, x.order, y.order);
      }
    }
  }

  /** Two servers alike answer a command alike and stay alike, if and only if their clocks and orders agree on it. */
  lemma AgreesIff(a: State, b: State, x: Item, y: Item)
    requires Alike(a, b) && x.cmd == y.cmd
    ensures SameOutcome(a, b, x, y) <==> Agrees(a, b, x, y)
  {
    match x.cmd.kind
    case KindKV => PutAgreesIff(a, b, x, y);
    case KindTxn => TxnAgreesIff(a, b, x, y);
    case KindLeaseRevoke => RevokeAgreesIff(a, b, x, y);
    case KindOther =>
    case _ => LeaseAgreesIff(a, b, x, y);
  }

  // ---------- conditions that are enough ----------

  predicate PutsUnder(ops: seq<T.Operation>, id: int) {
    exists i :: 0 <= i < |ops| && ops[i].OpPut? && ops[i].leaseID == id
  }

  /** The leases a command looks up. */
  ghost predicate LooksUp(st: State, x: Item, id: int) {
    match x.cmd.kind
    case KindKV => x.cmd.kv.Some? && x.cmd.kv.value.op.CmdPut? && x.cmd.kv.value.leaseID == id && id != 0
    case KindTxn =>
      x.cmd.txn.Some? && id != 0 && PutsUnder(T.Branch(st, x.cmd.txn.value.txn), id)
    case KindLeaseKeepAlive => x.cmd.keepAlive.Some? && x.cmd.keepAlive.value.id == id
    case _ => false
  }

  /** It is enough that each lease looked up is on the same side of its own server's expiry on both servers, and
      that a revoked lease has at most one key. */
  lemma SameSidesAgree(a: State, b: State, x: Item, y: Item)
    requires Alike(a, b) && x.cmd == y.cmd && Allowed(a, x) && Allowed(b, y)
    requires forall id :: LooksUp(a, x, id) ==> (IsLate(a, id, x.now) <==> IsLate(b, id, y.now))
    requires x.cmd.kind == KindLeaseRevoke && x.cmd.revoke.Some? && x.cmd.revoke.value.id in a.leases ==>
      |a.leases[x.cmd.revoke.value.id].keys| <= 1
    ensures Agrees(a, b, x, y)
  {
    match x.cmd.kind
    case KindKV =>
      if x.cmd.kv.Some? && x.cmd.kv.value.op.CmdPut? && x.cmd.kv.value.leaseID != 0 {
        assert LooksUp(a, x, x.cmd.kv.value.leaseID);
      }
    case KindTxn => if x.cmd.txn.Some? { SameSidesOfPuts(a, b, x, y); }
    case KindLeaseRevoke =>
      if x.cmd.revoke.Some? && x.cmd.revoke.value.id in a.leases {
        var id := x.cmd.revoke.value.id;
        SameIds(a, b, id);
        assert Timeless(a).leases[id].keys == Timeless(b).leases[id].keys;
        OneKeyOneOrder(a.leases[id].keys, x.order, y.order);
      }
    case KindLeaseKeepAlive => if x.cmd.keepAlive.Some? { assert LooksUp(a, x, x.cmd.keepAlive.value.id); }
    case _ =>
  }

  lemma SameSidesOfPuts(a: State, b: State, x: Item, y: Item)
    requires Alike(a, b) && x.cmd == y.cmd && x.cmd.kind == KindTxn && x.cmd.txn.Some?
    requires forall id :: LooksUp(a, x, id) ==> (IsLate(a, id, x.now) <==> IsLate(b, id, y.now))
    ensures Agrees(a, b, x, y)
  {
    var t := x.cmd.txn.value.txn;
    TimelessBranch(a, t);
    TimelessBranch(b, t);
    var ops := T.Branch(a, t);
    SameUnknown(a, b, ops);
    forall i | 0 <= i < |ops|
      ensures LatePut(a, ops[i], x.now) == LatePut(b, ops[i], y.now)
    {
      if ops[i].OpPut? && ops[i].leaseID != 0 { assert LooksUp(a, x, ops[i].leaseID); }
    }
  }

  // ---------- whole logs ----------

  ghost predicate AlikeServers(s: Server, t: Server) {
    Alike(s.store, t.store) && s.lastSeq == t.lastSeq && s.lastReply == t.lastReply
  }

  ghost predicate SameCommands(xs: seq<Item>, ys: seq<Item>) {
    |xs| == |ys| && forall k :: 0 <= k < |xs| ==> xs[k].cmd == ys[k].cmd
  }

  predicate Executes(s: Server, x: Item) {
    Seq(x.cmd) > LastSeq(s, ClientID(x.cmd))
  }

  lemma RawReply(st: State, x: Item)
    ensures Perform(st, x).1.kind == KindKV && Perform(st, x).1.clientID == 0 && Perform(st, x).1.seqNo == 0
  {
  }

  lemma StepAgreesIff(s: Server, t: Server, x: Item, y: Item)
    requires AlikeServers(s, t) && x.cmd == y.cmd
    ensures AlikeServers(Step(s, x).0, Step(t, y).0) <==> (Executes(s, x) ==> Agrees(s.store, t.store, x, y))
    ensures AlikeServers(Step(s, x).0, Step(t, y).0) ==> Step(s, x).1 == Step(t, y).1
  {
    if Executes(s, x) {
      AgreesIff(s.store, t.store, x, y);
      RawReply(s.store, x);
      RawReply(t.store, y);
      var c := ClientID(x.cmd);
      assert Step(s, x).0.lastReply[c] == Stamped(Perform(s.store, x).1, x.cmd);
      assert Step(t, y).0.lastReply[c] == Stamped(Perform(t.store, y).1, y.cmd);
    }
  }

  /** Agreement at every entry that is executed. */
  ghost predicate AgreeAlong(s: Server, t: Server, xs: seq<Item>, ys: seq<Item>)
    requires |xs| == |ys|
  {
    forall k :: 0 <= k < |xs| && O.IsNew(s, xs, k) ==>
      Agrees(Run(s, xs[..k]).store, Run(t, ys[..k]).store, xs[k], ys[k])
  }

  ghost predicate AlikeAt(s: Server, t: Server, xs: seq<Item>, ys: seq<Item>, n: nat)
    requires n <= |xs| == |ys|
  {
    AlikeServers(Run(s, xs[..n]), Run(t, ys[..n]))
  }

  ghost predicate AlwaysAlike(s: Server, t: Server, xs: seq<Item>, ys: seq<Item>)
    requires |xs| == |ys|
  {
    forall n: nat :: n <= |xs| ==> AlikeAt(s, t, xs, ys, n)
  }

  lemma NextAlikeIff(s: Server, t: Server, xs: seq<Item>, ys: seq<Item>, n: nat)
    requires SameCommands(xs, ys) && n < |xs| && AlikeAt(s, t, xs, ys, n)
    ensures AlikeAt(s, t, xs, ys, n + 1) <==>
      (O.IsNew(s, xs, n) ==> Agrees(Run(s, xs[..n]).store, Run(t, ys[..n]).store, xs[n], ys[n]))
  {
    O.ExecutedIffNew(s, xs, n);
    assert xs[..n + 1][..n] == xs[..n] && ys[..n + 1][..n] == ys[..n];
    StepAgreesIff(Run(s, xs[..n]), Run(t, ys[..n]), xs[n], ys[n]);
  }

  lemma {:induction false} AlikeUpTo(s: Server, t: Server, xs: seq<Item>, ys: seq<Item>, n: nat)
    requires AlikeServers(s, t) && SameCommands(xs, ys) && AgreeAlong(s, t, xs, ys) && n <= |xs|
    ensures AlikeAt(s, t, xs, ys, n)
  {
    if n > 0 {
      AlikeUpTo(s, t, xs, ys, n - 1);
      NextAlikeIff(s, t, xs, ys, n - 1);
    }
  }

  /** Two servers that apply the same commands, each with its own clock and orders, are alike at every point, tables
      and replies included, if and only if they agree at every entry that is executed. */
  lemma AlikeIff(s: Server, t: Server, xs: seq<Item>, ys: seq<Item>)
    requires AlikeServers(s, t) && SameCommands(xs, ys)
    ensures AlwaysAlike(s, t, xs, ys) <==> AgreeAlong(s, t, xs, ys)
  {
    if AgreeAlong(s, t, xs, ys) {
      forall n: nat | n <= |xs| ensures AlikeAt(s, t, xs, ys, n) { AlikeUpTo(s, t, xs, ys, n); }
    }
    if AlwaysAlike(s, t, xs, ys) {
      forall k | 0 <= k < |xs| && O.IsNew(s, xs, k)
        ensures Agrees(Run(s, xs[..k]).store, Run(t, ys[..k]).store, xs[k], ys[k])
      {
        assert AlikeAt(s, t, xs, ys, k) && AlikeAt(s, t, xs, ys, k + 1);
        NextAlikeIff(s, t, xs, ys, k);
      }
    }
  }

  // ---------- servers of one cluster ----------

  /** Commands 1, 2, 3, … as handed to some state machine. */
  ghost predicate Delivered(s: Y.Sys, cmds: seq<Bytes>) {
    forall k :: 0 <= k < |cmds| ==> (k + 1, cmds[k]) in s.hist.emitted
  }

  lemma DeliveriesArePrefixes(r: R.Run, i: nat, a: seq<Bytes>, b: seq<Bytes>)
    requires R.IsOrderedRun(r) && i < |r.states| && Delivered(r.states[i], a) && Delivered(r.states[i], b) && |a| <= |b|
    ensures a == b[..|a|]
  {
    R.OrderedRunsAreFresh(r);
    forall k | 0 <= k < |a|
      ensures a[k] == b[k]
    {
      R.StateMachineSafety(r, i, k + 1, a[k], b[k]);
    }
  }

  /** What one server reads while it applies a command. */
  datatype Surroundings = Surroundings(now: int, order: seq<Key>)

  function Items(cmds: seq<Bytes>, decode: Bytes -> Command, around: seq<Surroundings>): (items: seq<Item>)
    requires |around| == |cmds|
    ensures |items| == |cmds|
    ensures forall k :: 0 <= k < |cmds| ==> items[k] == Item(decode(cmds[k]), around[k].now, around[k].order)
  {
    seq(|cmds|, k requires 0 <= k < |cmds| => Item(decode(cmds[k]), around[k].now, around[k].order))
  }

  /** In every run with ordered AppendEntries, of any two servers the one behind has been, point by point, what the one
      ahead was, up to expiry times, if and only if their own clocks and orders agree at every entry executed. */
  lemma ReplicasAgreeIff(r: R.Run, i: nat, a: seq<Bytes>, b: seq<Bytes>, decode: Bytes -> Command,
                         aroundA: seq<Surroundings>, aroundB: seq<Surroundings>)
    requires R.IsOrderedRun(r) && i < |r.states| && Delivered(r.states[i], a) && Delivered(r.states[i], b) && |a| <= |b|
    requires |aroundA| == |a| && |aroundB| == |b|
    ensures var xs, ys := Items(a, decode, aroundA), Items(b, decode, aroundB)[..|a|];
      AlwaysAlike(START, START, xs, ys) <==> AgreeAlong(START, START, xs, ys)
  {
    DeliveriesArePrefixes(r, i, a, b);
    AlikeIff(START, START, Items(a, decode, aroundA), Items(b, decode, aroundB)[..|a|]);
  }
}
