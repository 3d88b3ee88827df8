/** The apply loop of internal/server/kvserver/apply.go: one log of commands, each client's commands
    numbered by that client, a table of the last number executed. */
module ApplySpec {
  import opened RaftTypes
  import opened Keys
  import opened MvccSpec
  import T = MvccTxn
  import S = MvccSnapshot

  datatype Kind = KindKV | KindTxn | KindLeaseGrant | KindLeaseRevoke | KindLeaseKeepAlive | KindOther
  datatype KVType = CmdPut | CmdDelete | CmdOther
  datatype KVCommand = KVCommand(op: KVType, key: Key, value: Bytes, leaseID: int, clientID: int, seqNo: int)
  datatype TxnCommand = TxnCommand(txn: T.Txn, clientID: int, seqNo: int)
  datatype GrantCommand = GrantCommand(ttl: int, clientID: int, seqNo: int)
  datatype LeaseCommand = LeaseCommand(id: int, clientID: int, seqNo: int)

  /** Only the payload of the command's own kind is read; it may be missing. */
  datatype Command = Command(kind: Kind, kv: Option<KVCommand>, txn: Option<TxnCommand>,
                             grant: Option<GrantCommand>, revoke: Option<LeaseCommand>, keepAlive: Option<LeaseCommand>)

  /** A log entry with what the store reads from its surroundings while it runs: the clock, and the order
      in which a revoked lease's keys are visited. */
  datatype Item = Item(cmd: Command, now: int, order: seq<Key>)

  datatype Failure = StoreError(error: Error) | NilPayload | UnsupportedType | UnknownKind
  datatype Reply = Reply(kind: Kind, clientID: int, seqNo: int, err: Option<Failure>, rev: Option<nat>,
                         succeeded: bool, results: seq<KeyValue>, leaseID: int, leaseTTL: int)

  const ZERO := Reply(KindKV, 0, 0, None, None, false, [], 0, 0)

  datatype Server = Server(store: State, lastSeq: map<int, int>, lastReply: map<int, Reply>)

  const START := Server(EMPTY, map[], map[])

  function ClientID(c: Command): int {
    match c.kind
    case KindKV => if c.kv.Some? then c.kv.value.clientID else 0
    case KindTxn => if c.txn.Some? then c.txn.value.clientID else 0
    case KindLeaseGrant => if c.grant.Some? then c.grant.value.clientID else 0
    case KindLeaseRevoke => if c.revoke.Some? then c.revoke.value.clientID else 0
    case KindLeaseKeepAlive => if c.keepAlive.Some? then c.keepAlive.value.clientID else 0
    case KindOther => 0
  }

  function Seq(c: Command): int {
    match c.kind
    case KindKV => if c.kv.Some? then c.kv.value.seqNo else 0
    case KindTxn => if c.txn.Some? then c.txn.value.seqNo else 0
    case KindLeaseGrant => if c.grant.Some? then c.grant.value.seqNo else 0
    case KindLeaseRevoke => if c.revoke.Some? then c.revoke.value.seqNo else 0
    case KindLeaseKeepAlive => if c.keepAlive.Some? then c.keepAlive.value.seqNo else 0
    case KindOther => 0
  }

  // ---------- one command ----------

  function Failed(f: Failure): Reply {
    ZERO.(err := Some(f))
  }

  function ApplyKV(st: State, c: Option<KVCommand>, now: int): (State, Reply) {
    if c.None? then (st, Failed(NilPayload))
    else match c.value.op
      case CmdPut =>
        var (st', r) := Put(st, c.value.key, c.value.value, c.value.leaseID, now);
        (st', if r.Ok? then ZERO.(rev := Some(r.value)) else Failed(StoreError(r.error)))
      case CmdDelete => (Delete(st, c.value.key).0, ZERO.(rev := Some(Delete(st, c.value.key).1)))
      case CmdOther => (st, Failed(UnsupportedType))
  }

  function ApplyTxn(st: State, c: Option<TxnCommand>, now: int): (State, Reply) {
    if c.None? then (st, Failed(NilPayload))
    else
      var (st', r) := T.Transact(st, c.value.txn, now);
      (st', if r.Err? then Failed(StoreError(r.error))
            else ZERO.(succeeded := r.value.succeeded, results := r.value.results))
  }

  function ApplyGrant(st: State, c: Option<GrantCommand>, now: int): (State, Reply) {
    if c.None? then (st, Failed(NilPayload))
    else
      var (st', id) := Grant(st, c.value.ttl, now);
      (st', ZERO.(leaseID := id, leaseTTL := c.value.ttl))
  }

  function ApplyRevoke(st: State, c: Option<LeaseCommand>, order: seq<Key>): (State, Reply) {
    if c.None? then (st, Failed(NilPayload))
    else
      var (st', r) := Revoke(st, c.value.id, order);
      (st', if r.Ok? then ZERO else Failed(StoreError(r.error)))
  }

  function ApplyKeepAlive(st: State, c: Option<LeaseCommand>, now: int): (State, Reply) {
    if c.None? then (st, Failed(NilPayload))
    else
      var (st', r) := KeepAlive(st, c.value.id, now);
      (st', if r.Ok? then ZERO.(leaseID := c.value.id, leaseTTL := r.value) else Failed(StoreError(r.error)))
  }

  function Perform(st: State, x: Item): (State, Reply) {
    match x.cmd.kind
    case KindKV => ApplyKV(st, x.cmd.kv, x.now)
    case KindTxn => ApplyTxn(st, x.cmd.txn, x.now)
    case KindLeaseGrant => ApplyGrant(st, x.cmd.grant, x.now)
    case KindLeaseRevoke => ApplyRevoke(st, x.cmd.revoke, x.order)
    case KindLeaseKeepAlive => ApplyKeepAlive(st, x.cmd.keepAlive, x.now)
    case KindOther => (st, Failed(UnknownKind))
  }

  // ---------- the loop ----------

  function LastSeq(s: Server, c: int): int {
    if c in s.lastSeq then s.lastSeq[c] else 0
  }

  function Cached(s: Server, c: int): Reply {
    if c in s.lastReply then s.lastReply[c] else ZERO
  }

  function Stamped(r: Reply, c: Command): Reply {
    r.(kind := c.kind, clientID := ClientID(c), seqNo := Seq(c))
  }

  /** The body of the loop, and the reply it has for whoever waits at this index. */
  function Step(s: Server, x: Item): (Server, Option<Reply>) {
    var client, n := ClientID(x.cmd), Seq(x.cmd);
    if n < LastSeq(s, client) then (s, None)
    else if n == LastSeq(s, client) then (s, Some(Cached(s, client)))
    else
      var (st', r) := Perform(s.store, x);
      (Server(st', s.lastSeq[client := n], s.lastReply[client := Stamped(r, x.cmd)]), Some(Stamped(r, x.cmd)))
  }

  function Run(s: Server, log: seq<Item>): Server {
    if log == [] then s else Step(Run(s, log[..|log| - 1]), log[|log| - 1]).0
  }

  /** What a revoke needs of its surroundings: an order of the lease's keys. */
  ghost predicate Allowed(st: State, x: Item) {
    (x.cmd.kind.KindLeaseRevoke? && x.cmd.revoke.Some? && x.cmd.revoke.value.id in st.leases)
    ==> OrderOf(x.order, st.leases[x.cmd.revoke.value.id].keys)
  }

  ghost predicate Possible(s: Server, log: seq<Item>) {
    log == [] || (Possible(s, log[..|log| - 1]) && Allowed(Run(s, log[..|log| - 1]).store, log[|log| - 1]))
  }

  // ---------- snapshots ----------

  datatype ServerSnapshot = ServerSnapshot(kv: S.Snapshot, lastSeq: map<int, int>, lastReply: map<int, Reply>)

  ghost function MakeSnapshot(s: Server, v: S.Visit): ServerSnapshot
    requires S.VisitOf(v, s.store)
  {
    ServerSnapshot(S.Take(s.store, v), s.lastSeq, s.lastReply)
  }

  /** The tables are replaced even when the store rejects its part. */
  ghost function RestoreSnapshot(s: Server, snap: ServerSnapshot): Server {
    Server(S.Restore(s.store, snap.kv), snap.lastSeq, snap.lastReply)
  }
}
