/** The inductive invariant of the sharded system: what one shard and the
    supervisor agree on (NodeInv), and what two shards agree on (PairInv), while
    some shards already use the new account map and others still the old one. */
module Invariant {
  import opened Collections
  import opened Ledger
  import opened Leaders
  import opened Sharding

  // ------------------------------------------------ where a shard is in the migration

  predicate Migrating(sup: Supervisor) { sup.current.Some? }

  function NextMap(sup: Supervisor): PartitionMap {
    if sup.current.Some? then sup.placement + sup.current.value else sup.placement
  }

  /** Uses the new map already. */
  predicate HasApplied(sup: Supervisor, nd: Node) {
    Migrating(sup) && nd.l.round == sup.completed + 1
  }

  /** Has announced that it stops committing blocks, and not applied the new map. */
  predicate InBarrier(nd: Node) {
    nd.l.stage.Waiting? || nd.l.stage.Collecting? || nd.l.stage.PartitionPending?
  }

  /** Has shipped its accounts. */
  predicate IsPast(sup: Supervisor, nd: Node) {
    HasApplied(sup, nd) || nd.l.stage.Collecting? || nd.l.stage.PartitionPending?
  }

  /** The map a shard executes by, and the one its pool is sorted by. */
  function MapOf(sup: Supervisor, nd: Node): PartitionMap {
    if HasApplied(sup, nd) then NextMap(sup) else sup.placement
  }
  function PoolMap(sup: Supervisor, nd: Node): PartitionMap {
    if IsPast(sup, nd) then NextMap(sup) else sup.placement
  }

  function Body(nd: Node): seq<Tx> {
    if nd.l.stage.BlockPending? then nd.l.stage.body else []
  }

  // ------------------------------------------------ one shard

  ghost predicate SupQueueOk(c: Config, sup: Supervisor, nd: Node, i: ShardId)
    requires c.n > 0
  {
    var q := nd.fromSup;
    var waiting := Migrating(sup) && nd.l.round == sup.completed && !nd.l.partitionOn;
    && (waiting ==> |q| > 0 && q[|q| - 1] == PartitionMsg(sup.current.value))
    && (Migrating(sup) && !waiting ==> q == [])
    && (forall k | 0 <= k < |q| :: q[k].PartitionMsg? ==> waiting && k == |q| - 1)
    && (forall k | 0 <= k < |q| && q[k].InjectMsg? ::
          Routed(sup.placement, c.n, i, q[k].txs) && forall t | t in q[k].txs :: !t.relayed)
  }

  ghost predicate RoundOk(sup: Supervisor, nd: Node) {
    && (nd.l.round == sup.completed || HasApplied(sup, nd))
    && nd.l.pm == MapOf(sup, nd)
    && (InBarrier(nd) ==> nd.l.partitionOn)
    && (nd.l.partitionOn ==>
          && Migrating(sup) && nd.l.round == sup.completed
          && |nd.l.modifiedMap| == sup.completed + 1
          && nd.l.modifiedMap[sup.completed] == sup.current.value)
    && (!nd.l.partitionOn ==> |nd.l.modifiedMap| == nd.l.round)
  }

  /** Nothing of a migration is left at a shard that is not in one. */
  ghost predicate Quiet(nd: Node) {
    && nd.l.partitionReady == {} && nd.readies == map[]
    && nd.l.parcels == map[] && nd.parcelsIn == map[] && !nd.l.collectOver
  }

  ghost predicate KeysOk(c: Config, nd: Node, i: ShardId)
    requires i < c.n
  {
    && |nd.relays| == c.n && nd.relays[i] == []
    && (forall j | j in nd.l.partitionReady :: j < c.n)
    && (forall j | j in nd.readies :: j < c.n && j != i)
    && (forall j | j in nd.l.parcels :: j < c.n && j != i)
    && (forall j | j in nd.parcelsIn :: j < c.n && j != i)
    && (i in nd.l.partitionReady <==> InBarrier(nd))
    && (nd.l.collectOver ==> |nd.l.parcels| + 1 == c.n)
    && (nd.l.stage.Collecting? || nd.l.stage.PartitionPending? ==>
          forall j | 0 <= j < c.n :: j in nd.l.partitionReady)
  }

  ghost predicate PendingOk(c: Config, sup: Supervisor, nd: Node, i: ShardId)
    requires c.n > 0
  {
    nd.l.stage.PartitionPending? && Migrating(sup) ==>
      && nd.l.stage.modified == sup.current.value
      && nd.l.stage.atid == sup.completed + 1
      && |nd.l.parcels| + 1 == c.n
      && forall a | a in nd.l.stage.states ::
           a in sup.current.value && sup.current.value[a] == i && Owner(sup.placement, c.n, a) != i
  }

  ghost predicate ReplicasOk(c: Config, sup: Supervisor, nd: Node) {
    && |nd.applied| == c.r && c.r > 0 && nd.applied[0] == nd.l.round
    && forall k | 0 <= k < c.r :: nd.applied[k] == sup.completed
                               || ((HasApplied(sup, nd) || nd.l.stage.PartitionPending?)
                                   && nd.applied[k] == sup.completed + 1)
  }

  ghost predicate NodeInv(c: Config, sup: Supervisor, nd: Node, i: ShardId)
    requires c.n > 0 && i < c.n
  {
    && nd.l.id == i
    && nd.l.sequenceID >= 1
    && RoundOk(sup, nd)
    && KeysOk(c, nd, i)
    && (HasApplied(sup, nd) || !Migrating(sup) ==> Quiet(nd))
    && PendingOk(c, sup, nd, i)
    && ReplicasOk(c, sup, nd)
    && SupQueueOk(c, sup, nd, i)
    && Routed(PoolMap(sup, nd), c.n, i, nd.l.pool)
    && Routed(MapOf(sup, nd), c.n, i, Body(nd))
  }

  // ------------------------------------------------ two shards: a receives from b

  ghost predicate SeqOk(a: Node, b: Node, j: ShardId)
    requires j < |a.relays|
  {
    var q := a.relays[j];
    && (forall k | 0 <= k < |q| :: q[k].senderSeq < b.l.sequenceID)
    && (forall k, m | 0 <= k < m < |q| :: q[k].senderSeq < q[m].senderSeq)
    && (j in a.l.seqIDMap ==>
          && a.l.seqIDMap[j] < b.l.sequenceID
          && forall k | 0 <= k < |q| :: a.l.seqIDMap[j] < q[k].senderSeq)
  }

  ghost predicate RelaysRouted(c: Config, pm: PartitionMap, q: seq<Relay>, i: ShardId)
    requires c.n > 0
  {
    forall k, t | 0 <= k < |q| && t in q[k].txs :: t.relayed && Owner(pm, c.n, t.recipient) == i
  }

  ghost predicate ReadyOk(sup: Supervisor, a: Node, b: Node, j: ShardId) {
    && (j in a.l.partitionReady ==>
          Migrating(sup)
          && (HasApplied(sup, b) || (InBarrier(b) && j in a.l.readySeq && a.l.readySeq[j] == b.l.sequenceID)))
    && (j in a.readies ==>
          Migrating(sup) && InBarrier(b) && a.readies[j] == b.l.sequenceID && j !in a.l.partitionReady)
  }

  ghost predicate BarrierOk(sup: Supervisor, a: Node, b: Node, j: ShardId)
    requires j < |a.relays|
  {
    && (IsPast(sup, a) ==> HasApplied(sup, b) || (InBarrier(b) && a.relays[j] == []))
    && (HasApplied(sup, a) ==> IsPast(sup, b))
  }

  /** A parcel from b to shard i carries b's state of exactly the accounts that move there. */
  ghost predicate ParcelOk(c: Config, sup: Supervisor, b: Node, i: ShardId, j: ShardId, p: Parcel)
    requires c.n > 0 && Migrating(sup)
  {
    var m := sup.current.value;
    && (forall a | a in p.states :: Moves(c, sup, a, j, i) && p.states[a] == Balance(b.l.trie, a))
    && (forall a | Moves(c, sup, a, j, i) :: a in p.states)
    && (forall t | t in p.txs :: Key(t) in m && m[Key(t)] == i)
  }

  predicate Moves(c: Config, sup: Supervisor, a: Addr, j: ShardId, i: ShardId)
    requires c.n > 0 && Migrating(sup)
  {
    a in sup.current.value && sup.current.value[a] == i && i != j && Owner(sup.placement, c.n, a) == j
  }

  ghost predicate TransferOk(c: Config, sup: Supervisor, a: Node, b: Node, i: ShardId, j: ShardId)
    requires c.n > 0
  {
    && (j in a.parcelsIn ==>
          Migrating(sup) && !HasApplied(sup, a) && IsPast(sup, b) && j !in a.l.parcels
          && ParcelOk(c, sup, b, i, j, a.parcelsIn[j]))
    && (j in a.l.parcels ==>
          Migrating(sup) && !HasApplied(sup, a) && IsPast(sup, b) && ParcelOk(c, sup, b, i, j, a.l.parcels[j]))
    && (IsPast(sup, b) && !HasApplied(sup, a) ==> j in a.parcelsIn || j in a.l.parcels)
    && (Migrating(sup) && a.l.stage.PartitionPending? ==>
          forall x | Moves(c, sup, x, j, i) ::
            x in a.l.stage.states && a.l.stage.states[x] == Balance(b.l.trie, x))
  }

  ghost predicate PairInv(c: Config, sup: Supervisor, a: Node, b: Node, i: ShardId, j: ShardId)
    requires c.n > 0 && j < c.n
  {
    && j < |a.relays|
    && SeqOk(a, b, j)
    && RelaysRouted(c, MapOf(sup, b), a.relays[j], i)
    && ReadyOk(sup, a, b, j)
    && BarrierOk(sup, a, b, j)
    && TransferOk(c, sup, a, b, i, j)
    && (j !in a.l.seqIDMap ==> |a.relays[j]| + b.l.round + 1 == b.l.sequenceID)
  }

  // ------------------------------------------------ the supervisor

  ghost predicate AckOk(c: Config, st: System, s: nat, node: nat) {
    && Migrating(st.sup) && s < c.n == |st.nodes| && node < c.r == |st.nodes[s].applied|
    && st.nodes[s].applied[node] == st.sup.completed + 1
  }

  ghost predicate SupInv(c: Config, st: System) {
    && InRange(st.sup.placement, c.n)
    && (Migrating(st.sup) ==> c.n >= 2 && InRange(st.sup.current.value, c.n))
    && (Migrating(st.sup) ==> forall p | p in st.sup.acks :: AckOk(c, st, p.0, p.1))
    && (forall k | k in st.sup.acksIn ::
          AckOk(c, st, k.shard, k.node) && k.epoch == st.sup.completed + 1 && (k.shard, k.node) !in st.sup.acks)
  }

  ghost predicate Inv(c: Config, st: System) {
    && c.n > 0 && |st.nodes| == c.n
    && SupInv(c, st)
    && (forall i | 0 <= i < c.n :: NodeInv(c, st.sup, st.nodes[i], i))
    && (forall i, j | 0 <= i < c.n && 0 <= j < c.n && i != j ::
          PairInv(c, st.sup, st.nodes[i], st.nodes[j], i, j))
  }
}
