/** The whole system: n shard leaders with their inboxes, the replicas' progress
    and the supervisor, and every step any of them can take.
    Each step is one handler of the program running to completion. */
module Sharding {
  import opened Collections
  import opened Ledger
  import opened Leaders

  /** n shards of r replicas each; replica 0 is the leader. */
  datatype Config = Config(n: nat, r: nat)

  datatype SupMsg = InjectMsg(txs: seq<Tx>) | PartitionMsg(modified: PartitionMap)

  /** A shard: its leader, what is on the way to it, and how many partition
      requests each of its replicas has applied.
      relays[j] is the channel from shard j, oldest first; the other channels
      between shards hold at most one message per sender. */
  datatype Node = Node(
    l: Leader,
    relays: seq<seq<Relay>>,
    readies: map<ShardId, nat>,
    parcelsIn: map<ShardId, Parcel>,
    fromSup: seq<SupMsg>,
    applied: seq<nat>)

  datatype Ack = Ack(shard: nat, node: nat, epoch: nat)

  /** The supervisor. completed counts finished migrations; injected and done
      record what was sent in and what has finally been executed. */
  datatype Supervisor = Supervisor(
    placement: PartitionMap,
    current: Option<PartitionMap>,
    completed: nat,
    acks: set<(nat, nat)>,
    acksIn: set<Ack>,
    injected: seq<Tx>,
    done: seq<Tx>,
    infosIn: seq<seq<Tx>>,
    confirmed: set<nat>)

  datatype System = System(nodes: seq<Node>, sup: Supervisor)

  datatype Step =
    | Inject(s: ShardId, txs: seq<Tx>)
    | DeliverFromSup(s: ShardId)
    | StartBlock(s: ShardId, size: nat)
    | FinishBlock(s: ShardId)
    | DeliverRelay(s: ShardId, from: ShardId)
    | DeliverInfo(k: nat)
    | StartMigration(modified: PartitionMap)
    | EnterBarrier(s: ShardId)
    | DeliverReady(s: ShardId, from: ShardId)
    | PassBarrier(s: ShardId)
    | DeliverParcel(s: ShardId, from: ShardId)
    | StartPartition(s: ShardId, received: seq<Tx>, states: Trie)
    | FinishPartition(s: ShardId)
    | ReplicaApply(s: ShardId, node: nat)
    | DeliverAck(ack: Ack)
    | FinishMigration

  ghost function Init(c: Config): System {
    System(
      seq(c.n, i requires 0 <= i < c.n =>
        Node(NewLeader(i), seq(c.n, j => []), map[], map[], [], seq(c.r, k => 0))),
      Supervisor(map[], None, 0, {}, {}, [], [], [], {}))
  }

  // ------------------------------------------------ when a step can be taken

  ghost predicate FreshBatch(injected: seq<Tx>, txs: seq<Tx>) {
    && (forall t | t in txs :: !t.relayed)
    && (forall t, u | t in txs && u in injected :: t.id != u.id)
    && (forall i, j | 0 <= i < j < |txs| :: txs[i].id != txs[j].id)
  }

  ghost predicate Enabled(c: Config, st: System, step: Step)
    requires c.n > 0 && |st.nodes| == c.n
  {
    match step
    case Inject(s, txs) =>
      && s < c.n && st.sup.current.None? && FreshBatch(st.sup.injected, txs)
      && forall t | t in txs :: Owner(st.sup.placement, c.n, t.sender) == s
    case DeliverFromSup(s) =>
      s < c.n && st.nodes[s].fromSup != []
    case StartBlock(s, size) =>
      s < c.n && st.nodes[s].l.stage.Idle? && !st.nodes[s].l.partitionOn && size <= |st.nodes[s].l.pool|
    case FinishBlock(s) =>
      s < c.n && st.nodes[s].l.stage.BlockPending?
    case DeliverRelay(s, from) =>
      s < c.n && from < |st.nodes[s].relays| && st.nodes[s].relays[from] != []
    case DeliverInfo(k) =>
      k < |st.sup.infosIn|
    case StartMigration(m) =>
      c.n >= 2 && st.sup.current.None? && InRange(m, c.n)
    case EnterBarrier(s) =>
      s < c.n && st.nodes[s].l.stage.Idle? && st.nodes[s].l.partitionOn
    case DeliverReady(s, from) =>
      s < c.n && from in st.nodes[s].readies
    case PassBarrier(s) =>
      && s < c.n && st.nodes[s].l.stage.Waiting? && st.nodes[s].l.modifiedMap != []
      && GetPartitionReady(st.nodes[s].l, c.n)
    case DeliverParcel(s, from) =>
      s < c.n && from in st.nodes[s].parcelsIn
    case StartPartition(s, received, states) =>
      && s < c.n && st.nodes[s].l.stage.Collecting? && st.nodes[s].l.collectOver
      && st.nodes[s].l.round < |st.nodes[s].l.modifiedMap|
      && multiset(received) == multiset(ParcelTxs(st.nodes[s].l.parcels, c.n))
      && IsMerge(states, st.nodes[s].l.parcels)
    case FinishPartition(s) =>
      s < c.n && st.nodes[s].l.stage.PartitionPending? && |st.nodes[s].applied| > 0
    case ReplicaApply(s, node) =>
      && s < c.n && 0 < node < |st.nodes[s].applied|
      && st.nodes[s].applied[node] < st.nodes[s].l.round + (if st.nodes[s].l.stage.PartitionPending? then 1 else 0)
    case DeliverAck(ack) =>
      ack in st.sup.acksIn
    case FinishMigration =>
      st.sup.current.Some? && |st.sup.acks| == c.n * c.r
  }

  // ------------------------------------------------ what a step does

  function SetLeader(st: System, s: ShardId, l: Leader): System
    requires s < |st.nodes|
  {
    st.(nodes := st.nodes[s := st.nodes[s].(l := l)])
  }

  function AddRelay(nd: Node, from: ShardId, r: Relay): Node {
    if from < |nd.relays| then nd.(relays := nd.relays[from := nd.relays[from] + [r]]) else nd
  }

  function DoInject(st: System, s: ShardId, txs: seq<Tx>): System
    requires s < |st.nodes|
  {
    var nd := st.nodes[s];
    System(st.nodes[s := nd.(fromSup := nd.fromSup + [InjectMsg(txs)])],
           st.sup.(injected := st.sup.injected + txs))
  }

  function DoDeliverFromSup(st: System, s: ShardId): System
    requires s < |st.nodes| && st.nodes[s].fromSup != []
  {
    var nd := st.nodes[s];
    var l := match nd.fromSup[0]
             case InjectMsg(txs) => HandleInject(nd.l, txs)
             case PartitionMsg(m) => HandlePartitionMsg(nd.l, m);
    st.(nodes := st.nodes[s := nd.(l := l, fromSup := nd.fromSup[1..])])
  }

  function DoFinishBlock(c: Config, st: System, s: ShardId): System
    requires s < c.n == |st.nodes| && st.nodes[s].l.stage.BlockPending?
  {
    var l := st.nodes[s].l;
    System(seq(c.n, k requires 0 <= k < c.n =>
             if k == s then st.nodes[k].(l := CommitBlock(l, c.n))
             else AddRelay(st.nodes[k], s, RelayFor(l, c.n, k))),
           st.sup.(done := st.sup.done + Finals(l, c.n),
                   infosIn := st.sup.infosIn + [Finals(l, c.n)]))
  }

  function DoDeliverRelay(st: System, s: ShardId, from: ShardId): System
    requires s < |st.nodes| && from < |st.nodes[s].relays| && st.nodes[s].relays[from] != []
  {
    var nd := st.nodes[s];
    st.(nodes := st.nodes[s := nd.(l := HandleRelay(nd.l, from, nd.relays[from][0]),
                                   relays := nd.relays[from := nd.relays[from][1..]])])
  }

  function DoDeliverInfo(st: System, k: nat): System
    requires k < |st.sup.infosIn|
  {
    st.(sup := st.sup.(infosIn := st.sup.infosIn[..k] + st.sup.infosIn[k + 1..],
                       confirmed := st.sup.confirmed + set t | t in st.sup.infosIn[k] :: t.id))
  }

  function DoStartMigration(c: Config, st: System, m: PartitionMap): System
    requires c.n == |st.nodes|
  {
    System(seq(c.n, k requires 0 <= k < c.n =>
             st.nodes[k].(fromSup := st.nodes[k].fromSup + [PartitionMsg(m)])),
           st.sup.(current := Some(m), acks := {}))
  }

  function DoEnterBarrier(c: Config, st: System, s: ShardId): System
    requires s < c.n == |st.nodes|
  {
    var l := st.nodes[s].l;
    st.(nodes := seq(c.n, k requires 0 <= k < c.n =>
          if k == s then st.nodes[k].(l := SendReady(l))
          else st.nodes[k].(readies := st.nodes[k].readies[s := l.sequenceID])))
  }

  function DoDeliverReady(st: System, s: ShardId, from: ShardId): System
    requires s < |st.nodes| && from in st.nodes[s].readies
  {
    var nd := st.nodes[s];
    st.(nodes := st.nodes[s := nd.(l := HandleReady(nd.l, from, nd.readies[from]),
                                   readies := nd.readies - {from})])
  }

  function DoPassBarrier(c: Config, st: System, s: ShardId): System
    requires s < c.n == |st.nodes| && st.nodes[s].l.modifiedMap != []
  {
    var l := st.nodes[s].l;
    st.(nodes := seq(c.n, k requires 0 <= k < c.n =>
          if k == s then st.nodes[k].(l := SendAccounts(l, c.n))
          else st.nodes[k].(parcelsIn := st.nodes[k].parcelsIn[s := ParcelFor(l, c.n, k)])))
  }

  function DoDeliverParcel(c: Config, st: System, s: ShardId, from: ShardId): System
    requires s < |st.nodes| && from in st.nodes[s].parcelsIn
  {
    var nd := st.nodes[s];
    st.(nodes := st.nodes[s := nd.(l := HandleParcel(nd.l, c.n, from, nd.parcelsIn[from]),
                                   parcelsIn := nd.parcelsIn - {from})])
  }

  function DoFinishPartition(c: Config, st: System, s: ShardId): System
    requires s < |st.nodes| && c.n > 0 && st.nodes[s].l.stage.PartitionPending? && |st.nodes[s].applied| > 0
  {
    var nd := st.nodes[s];
    var l := TransferAccounts(nd.l, c.n);
    System(st.nodes[s := nd.(l := l, applied := nd.applied[0 := l.round])],
           st.sup.(acksIn := st.sup.acksIn + {Ack(s, 0, l.round)}))
  }

  function DoReplicaApply(st: System, s: ShardId, node: nat): System
    requires s < |st.nodes| && node < |st.nodes[s].applied|
  {
    var nd := st.nodes[s];
    var e := nd.applied[node] + 1;
    System(st.nodes[s := nd.(applied := nd.applied[node := e])],
           st.sup.(acksIn := st.sup.acksIn + {Ack(s, node, e)}))
  }

  function DoFinishMigration(st: System): System
    requires st.sup.current.Some?
  {
    st.(sup := st.sup.(placement := st.sup.placement + st.sup.current.value,
                       current := None,
                       completed := st.sup.completed + 1))
  }

  function Apply(c: Config, st: System, step: Step): System
    requires c.n > 0 && |st.nodes| == c.n && Enabled(c, st, step)
  {
    match step
    case Inject(s, txs) => DoInject(st, s, txs)
    case DeliverFromSup(s) => DoDeliverFromSup(st, s)
    case StartBlock(s, size) => SetLeader(st, s, ProposeBlock(st.nodes[s].l, size))
    case FinishBlock(s) => DoFinishBlock(c, st, s)
    case DeliverRelay(s, from) => DoDeliverRelay(st, s, from)
    case DeliverInfo(k) => DoDeliverInfo(st, k)
    case StartMigration(m) => DoStartMigration(c, st, m)
    case EnterBarrier(s) => DoEnterBarrier(c, st, s)
    case DeliverReady(s, from) => DoDeliverReady(st, s, from)
    case PassBarrier(s) => DoPassBarrier(c, st, s)
    case DeliverParcel(s, from) => DoDeliverParcel(c, st, s, from)
    case StartPartition(s, received, states) => SetLeader(st, s, ProposePartition(st.nodes[s].l, received, states))
    case FinishPartition(s) => DoFinishPartition(c, st, s)
    case ReplicaApply(s, node) => DoReplicaApply(st, s, node)
    case DeliverAck(ack) =>
      st.(sup := st.sup.(acksIn := st.sup.acksIn - {ack}, acks := st.sup.acks + {(ack.shard, ack.node)}))
    case FinishMigration => DoFinishMigration(st)
  }

  // ------------------------------------------------ runs

  /** Leader s has handled a relay from shard j, or j has never committed a block: every
      sequence number it has taken went to a partition request. getPartitionReady compares
      only the shards heard from, so it can be relied on only here. */
  predicate HeardFrom(a: Node, b: Node, j: ShardId) {
    j in a.l.seqIDMap || b.l.sequenceID == b.l.round + 1
  }

  ghost predicate Heard(c: Config, st: System, s: ShardId) {
    && |st.nodes| == c.n && s < c.n
    && forall j | 0 <= j < c.n && j != s :: HeardFrom(st.nodes[s], st.nodes[j], j)
  }

  ghost predicate Takes(c: Config, st: System, step: Step, st': System)
    requires c.n > 0
  {
    |st.nodes| == c.n && Enabled(c, st, step) && st' == Apply(c, st, step)
  }

  ghost predicate Next(c: Config, st: System, st': System)
    requires c.n > 0
  {
    exists step :: Takes(c, st, step, st') && (step.PassBarrier? ==> Heard(c, st, step.s))
  }

  /** State k of the sequence follows from the one before. */
  ghost predicate NextAt(c: Config, run: seq<System>, k: nat)
    requires c.n > 0 && 0 < k < |run|
  {
    Next(c, run[k - 1], run[k])
  }

  /** A run: a sequence of states from the initial one, in which no leader passes a
      barrier before it has heard from every shard that has committed a block. */
  ghost predicate Run(c: Config, run: seq<System>)
  {
    && c.n > 0 && c.r > 0 && run != [] && run[0] == Init(c)
    && forall k | 0 < k < |run| :: NextAt(c, run, k)
  }
}
