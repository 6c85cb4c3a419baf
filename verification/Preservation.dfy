/** Every step keeps the invariant. */
module Preservation {
  import opened Collections
  import opened Ledger
  import opened Leaders
  import opened Sharding
  import opened Invariant

  // ------------------------------------------------ frames

  predicate SameView(sup: Supervisor, sup': Supervisor) {
    sup'.placement == sup.placement && sup'.current == sup.current && sup'.completed == sup.completed
  }

  lemma NodeFrame(c: Config, sup: Supervisor, sup': Supervisor, nd: Node, i: ShardId)
    requires c.n > 0 && i < c.n && SameView(sup, sup') && NodeInv(c, sup, nd, i)
    ensures NodeInv(c, sup', nd, i)
  {}

  lemma PairFrame(c: Config, sup: Supervisor, sup': Supervisor, a: Node, b: Node, i: ShardId, j: ShardId)
    requires c.n > 0 && j < c.n && SameView(sup, sup') && PairInv(c, sup, a, b, i, j)
    ensures PairInv(c, sup', a, b, i, j)
  {
    assert NextMap(sup) == NextMap(sup');
    assert MapOf(sup, b) == MapOf(sup', b);
    if Migrating(sup) {
      assert forall x :: Moves(c, sup, x, j, i) <==> Moves(c, sup', x, j, i);
    }
  }

  /** Enough to establish after a step that changes one shard. */
  lemma OneShard(c: Config, st: System, st': System, s: ShardId)
    requires Inv(c, st) && s < c.n && |st'.nodes| == c.n && SameView(st.sup, st'.sup) && SupInv(c, st')
    requires forall k | 0 <= k < c.n && k != s :: st'.nodes[k] == st.nodes[k]
    requires NodeInv(c, st.sup, st'.nodes[s], s)
    requires forall k | 0 <= k < c.n && k != s :: PairInv(c, st.sup, st'.nodes[s], st.nodes[k], s, k)
    requires forall k | 0 <= k < c.n && k != s :: PairInv(c, st.sup, st.nodes[k], st'.nodes[s], k, s)
    ensures Inv(c, st')
  {
    forall i | 0 <= i < c.n ensures NodeInv(c, st'.sup, st'.nodes[i], i) {
      NodeFrame(c, st.sup, st'.sup, st'.nodes[i], i);
    }
    forall i, j | 0 <= i < c.n && 0 <= j < c.n && i != j
      ensures PairInv(c, st'.sup, st'.nodes[i], st'.nodes[j], i, j)
    {
      PairFrame(c, st.sup, st'.sup, st'.nodes[i], st'.nodes[j], i, j);
    }
  }

  /** Acks stay sound as long as replicas keep what they have applied. */
  lemma SupFrame(c: Config, st: System, st': System)
    requires SupInv(c, st) && |st'.nodes| == |st.nodes| && SameView(st.sup, st'.sup)
    requires st'.sup.acks == st.sup.acks && st'.sup.acksIn == st.sup.acksIn
    requires forall k | 0 <= k < |st.nodes| :: st'.nodes[k].applied == st.nodes[k].applied
    ensures SupInv(c, st')
  {
    forall s: nat, r: nat | AckOk(c, st, s, r) ensures AckOk(c, st', s, r) {}
  }

  predicate SameAt<V(==)>(m: map<ShardId, V>, m': map<ShardId, V>, j: ShardId) {
    (j in m <==> j in m') && (j in m ==> m[j] == m'[j])
  }

  predicate SameStage(sup: Supervisor, nd: Node, nd': Node) {
    && nd'.l.round == nd.l.round
    && (InBarrier(nd') <==> InBarrier(nd)) && (IsPast(sup, nd') <==> IsPast(sup, nd))
  }

  /** What PairInv reads of the sender is unchanged. */
  lemma SenderFrame(c: Config, sup: Supervisor, a: Node, b: Node, b': Node, i: ShardId, j: ShardId)
    requires c.n > 0 && j < c.n && PairInv(c, sup, a, b, i, j)
    requires SameStage(sup, b, b') && b'.l.sequenceID == b.l.sequenceID && b'.l.trie == b.l.trie
    ensures PairInv(c, sup, a, b', i, j)
  {}

  /** What PairInv reads of the receiver is unchanged. */
  lemma ReceiverFrame(c: Config, sup: Supervisor, a: Node, a': Node, b: Node, i: ShardId, j: ShardId)
    requires c.n > 0 && j < c.n && PairInv(c, sup, a, b, i, j)
    requires a'.l.round == a.l.round && (IsPast(sup, a') <==> IsPast(sup, a))
    requires a'.l.stage.PartitionPending? ==> a'.l.stage == a.l.stage
    requires j < |a'.relays| && a'.relays[j] == a.relays[j]
    requires SameAt(a.l.seqIDMap, a'.l.seqIDMap, j) && SameAt(a.l.readySeq, a'.l.readySeq, j)
    requires j in a.l.partitionReady <==> j in a'.l.partitionReady
    requires SameAt(a.readies, a'.readies, j) && SameAt(a.l.parcels, a'.l.parcels, j)
    requires SameAt(a.parcelsIn, a'.parcelsIn, j)
    ensures PairInv(c, sup, a', b, i, j)
  {}

  /** A step that changes one shard and no sender-side fact of it. */
  lemma OneReceiver(c: Config, st: System, st': System, s: ShardId)
    requires Inv(c, st) && s < c.n && |st'.nodes| == c.n && SameView(st.sup, st'.sup) && SupInv(c, st')
    requires forall k | 0 <= k < c.n && k != s :: st'.nodes[k] == st.nodes[k]
    requires NodeInv(c, st.sup, st'.nodes[s], s)
    requires forall k | 0 <= k < c.n && k != s :: PairInv(c, st.sup, st'.nodes[s], st.nodes[k], s, k)
    requires SameStage(st.sup, st.nodes[s], st'.nodes[s])
    requires st'.nodes[s].l.sequenceID == st.nodes[s].l.sequenceID && st'.nodes[s].l.trie == st.nodes[s].l.trie
    ensures Inv(c, st')
  {
    forall k | 0 <= k < c.n && k != s ensures PairInv(c, st.sup, st.nodes[k], st'.nodes[s], k, s) {
      SenderFrame(c, st.sup, st.nodes[k], st.nodes[s], st'.nodes[s], k, s);
    }
    OneShard(c, st, st', s);
  }

  // ------------------------------------------------ routing facts

  lemma RoutedConcat(pm: PartitionMap, n: nat, s: ShardId, xs: seq<Tx>, ys: seq<Tx>)
    requires n > 0 && Routed(pm, n, s, xs) && Routed(pm, n, s, ys)
    ensures Routed(pm, n, s, xs + ys)
  {}

  // ------------------------------------------------ supervisor to leader

  lemma InjectKeeps(c: Config, st: System, s: ShardId, txs: seq<Tx>)
    requires Inv(c, st) && Enabled(c, st, Inject(s, txs))
    ensures Inv(c, Apply(c, st, Inject(s, txs)))
  {
    var st' := DoInject(st, s, txs);
    SupFrame(c, st, st');
    assert NodeInv(c, st.sup, st.nodes[s], s);
    InjectNode(c, st.sup, st.nodes[s], s, txs);
    forall k | 0 <= k < c.n && k != s ensures PairInv(c, st.sup, st'.nodes[s], st.nodes[k], s, k) {
      QueuePair(c, st.sup, st.nodes[s], st.nodes[k], s, k, st'.nodes[s].fromSup);
    }
    OneReceiver(c, st, st', s);
  }

  lemma InjectNode(c: Config, sup: Supervisor, nd: Node, s: ShardId, txs: seq<Tx>)
    requires c.n > 0 && s < c.n && NodeInv(c, sup, nd, s) && !Migrating(sup)
    requires forall t | t in txs :: !t.relayed && Owner(sup.placement, c.n, t.sender) == s
    ensures NodeInv(c, sup, nd.(fromSup := nd.fromSup + [InjectMsg(txs)]), s)
  {
    var nd' := nd.(fromSup := nd.fromSup + [InjectMsg(txs)]);
    assert KeysOk(c, nd', s) && RoundOk(sup, nd') && PendingOk(c, sup, nd', s);
    assert SupQueueOk(c, sup, nd', s);
  }

  /** The supervisor's queue plays no part between two shards. */
  lemma QueuePair(c: Config, sup: Supervisor, a: Node, b: Node, i: ShardId, j: ShardId, q: seq<SupMsg>)
    requires c.n > 0 && j < c.n && PairInv(c, sup, a, b, i, j)
    ensures PairInv(c, sup, a.(fromSup := q), b, i, j)
  {
    ReceiverFrame(c, sup, a, a.(fromSup := q), b, i, j);
  }

  lemma DeliverFromSupNode(c: Config, sup: Supervisor, nd: Node, nd': Node, s: ShardId)
    requires c.n > 0 && s < c.n && NodeInv(c, sup, nd, s) && nd.fromSup != []
    requires match nd.fromSup[0]
             case InjectMsg(txs) => nd' == nd.(l := HandleInject(nd.l, txs), fromSup := nd.fromSup[1..])
             case PartitionMsg(m) => nd' == nd.(l := HandlePartitionMsg(nd.l, m), fromSup := nd.fromSup[1..])
    ensures NodeInv(c, sup, nd', s) && SameStage(sup, nd, nd')
  {
    if nd.fromSup[0].InjectMsg? {
      RoutedConcat(PoolMap(sup, nd), c.n, s, nd.l.pool, nd.fromSup[0].txs);
    }
    assert RoundOk(sup, nd');
    var q, q' := nd.fromSup, nd'.fromSup;
    assert forall k | 0 <= k < |q'| :: q'[k] == q[k + 1];
    assert SupQueueOk(c, sup, nd', s);
  }

  lemma DeliverFromSupPair(c: Config, sup: Supervisor, a: Node, a': Node, b: Node, i: ShardId, j: ShardId)
    requires c.n > 0 && j < c.n && PairInv(c, sup, a, b, i, j) && a.fromSup != []
    requires match a.fromSup[0]
             case InjectMsg(txs) => a' == a.(l := HandleInject(a.l, txs), fromSup := a.fromSup[1..])
             case PartitionMsg(m) => a' == a.(l := HandlePartitionMsg(a.l, m), fromSup := a.fromSup[1..])
    ensures PairInv(c, sup, a', b, i, j)
  {
    ReceiverFrame(c, sup, a, a', b, i, j);
  }

  lemma DeliverFromSupKeeps(c: Config, st: System, s: ShardId)
    requires Inv(c, st) && Enabled(c, st, DeliverFromSup(s))
    ensures Inv(c, Apply(c, st, DeliverFromSup(s)))
  {
    var st' := DoDeliverFromSup(st, s);
    SupFrame(c, st, st');
    assert NodeInv(c, st.sup, st.nodes[s], s);
    DeliverFromSupNode(c, st.sup, st.nodes[s], st'.nodes[s], s);
    forall k | 0 <= k < c.n && k != s ensures PairInv(c, st.sup, st'.nodes[s], st.nodes[k], s, k) {
      DeliverFromSupPair(c, st.sup, st.nodes[s], st'.nodes[s], st.nodes[k], s, k);
    }
    OneReceiver(c, st, st', s);
  }

  // ------------------------------------------------ blocks

  lemma StartBlockKeeps(c: Config, st: System, s: ShardId, size: nat)
    requires Inv(c, st) && Enabled(c, st, StartBlock(s, size))
    ensures Inv(c, Apply(c, st, StartBlock(s, size)))
  {
    var nd := st.nodes[s];
    var nd' := nd.(l := ProposeBlock(nd.l, size));
    var st' := st.(nodes := st.nodes[s := nd']);
    SupFrame(c, st, st');
    assert NodeInv(c, st.sup, nd, s);
    StartBlockNode(c, st.sup, nd, s, size);
    forall k | 0 <= k < c.n && k != s ensures PairInv(c, st.sup, nd', st.nodes[k], s, k) {
      StartBlockPair(c, st.sup, nd, st.nodes[k], s, k, size);
    }
    OneReceiver(c, st, st', s);
  }

  lemma StartBlockNode(c: Config, sup: Supervisor, nd: Node, s: ShardId, size: nat)
    requires c.n > 0 && s < c.n && NodeInv(c, sup, nd, s) && nd.l.stage.Idle? && !nd.l.partitionOn
             && size <= |nd.l.pool|
    ensures var nd' := nd.(l := ProposeBlock(nd.l, size)); NodeInv(c, sup, nd', s) && SameStage(sup, nd, nd')
  {
    var nd' := nd.(l := ProposeBlock(nd.l, size));
    assert PoolMap(sup, nd) == MapOf(sup, nd);
    assert KeysOk(c, nd', s) && RoundOk(sup, nd') && PendingOk(c, sup, nd', s) && SupQueueOk(c, sup, nd', s);
  }

  lemma StartBlockPair(c: Config, sup: Supervisor, a: Node, b: Node, i: ShardId, j: ShardId, size: nat)
    requires c.n > 0 && j < c.n && PairInv(c, sup, a, b, i, j) && a.l.stage.Idle? && size <= |a.l.pool|
    ensures PairInv(c, sup, a.(l := ProposeBlock(a.l, size)), b, i, j)
  {
    ReceiverFrame(c, sup, a, a.(l := ProposeBlock(a.l, size)), b, i, j);
  }

  lemma DeliverRelayNode(c: Config, sup: Supervisor, a: Node, a': Node, b: Node, i: ShardId, j: ShardId)
    requires c.n > 0 && i < c.n && j < c.n && i != j
    requires NodeInv(c, sup, a, i) && PairInv(c, sup, a, b, i, j) && PairInv(c, sup, b, a, j, i)
    requires a.relays[j] != []
    requires a' == a.(l := HandleRelay(a.l, j, a.relays[j][0]), relays := a.relays[j := a.relays[j][1..]])
    ensures NodeInv(c, sup, a', i)
  {
    assert BarrierOk(sup, a, b, j) && BarrierOk(sup, b, a, i);
    assert PoolMap(sup, a) == MapOf(sup, b);
    var txs := a.relays[j][0].txs;
    assert RelaysRouted(c, MapOf(sup, b), a.relays[j], i);
    assert Routed(PoolMap(sup, a), c.n, i, txs);
    RoutedConcat(PoolMap(sup, a), c.n, i, a.l.pool, txs);
    assert Routed(PoolMap(sup, a'), c.n, i, a'.l.pool);
    assert KeysOk(c, a', i) && SupQueueOk(c, sup, a', i) && PendingOk(c, sup, a', i);
  }

  lemma DeliverRelayPair(c: Config, sup: Supervisor, a: Node, a': Node, b: Node, i: ShardId, j: ShardId)
    requires c.n > 0 && j < c.n && PairInv(c, sup, a, b, i, j) && a.relays[j] != []
    requires a' == a.(l := HandleRelay(a.l, j, a.relays[j][0]), relays := a.relays[j := a.relays[j][1..]])
    ensures PairInv(c, sup, a', b, i, j)
  {
    var q, q' := a.relays[j], a'.relays[j];
    assert forall k | 0 <= k < |q'| :: q'[k] == q[k + 1];
    assert SeqOk(a', b, j);
    assert RelaysRouted(c, MapOf(sup, b), q', i);
    assert ReadyOk(sup, a', b, j) && BarrierOk(sup, a', b, j) && TransferOk(c, sup, a', b, i, j);
  }

  lemma DeliverRelayOther(c: Config, sup: Supervisor, a: Node, b: Node, i: ShardId, j: ShardId, from: ShardId)
    requires c.n > 0 && j < c.n && PairInv(c, sup, a, b, i, j) && j != from
    requires from < |a.relays| && a.relays[from] != []
    ensures PairInv(c, sup, a.(l := HandleRelay(a.l, from, a.relays[from][0]),
                               relays := a.relays[from := a.relays[from][1..]]), b, i, j)
  {
    ReceiverFrame(c, sup, a, a.(l := HandleRelay(a.l, from, a.relays[from][0]),
                                relays := a.relays[from := a.relays[from][1..]]), b, i, j);
  }

  lemma DeliverRelayHere(c: Config, st: System, s: ShardId, from: ShardId)
    requires Inv(c, st) && s < c.n && from < c.n && from != s && from < |st.nodes[s].relays|
             && st.nodes[s].relays[from] != []
    ensures var a := st.nodes[s];
            var a' := a.(l := HandleRelay(a.l, from, a.relays[from][0]),
                         relays := a.relays[from := a.relays[from][1..]]);
            && NodeInv(c, st.sup, a', s) && PairInv(c, st.sup, a', st.nodes[from], s, from)
            && SameStage(st.sup, a, a')
  {
    var a, b := st.nodes[s], st.nodes[from];
    var a' := a.(l := HandleRelay(a.l, from, a.relays[from][0]), relays := a.relays[from := a.relays[from][1..]]);
    assert NodeInv(c, st.sup, a, s);
    assert PairInv(c, st.sup, a, b, s, from) && PairInv(c, st.sup, b, a, from, s);
    DeliverRelayNode(c, st.sup, a, a', b, s, from);
    DeliverRelayPair(c, st.sup, a, a', b, s, from);
  }

  lemma DeliverRelayKeeps(c: Config, st: System, s: ShardId, from: ShardId)
    requires Inv(c, st) && Enabled(c, st, DeliverRelay(s, from))
    ensures Inv(c, Apply(c, st, DeliverRelay(s, from)))
  {
    var st' := DoDeliverRelay(st, s, from);
    SupFrame(c, st, st');
    RelayFromOther(c, st, s, from);
    DeliverRelayHere(c, st, s, from);
    forall k | 0 <= k < c.n && k != s ensures PairInv(c, st.sup, st'.nodes[s], st.nodes[k], s, k) {
      DeliverRelayAt(c, st, s, from, k);
    }
    OneReceiver(c, st, st', s);
  }

  /** No shard relays to itself. */
  lemma RelayFromOther(c: Config, st: System, s: ShardId, from: ShardId)
    requires Inv(c, st) && s < c.n && from < |st.nodes[s].relays| && st.nodes[s].relays[from] != []
    ensures from < c.n && from != s
  {
    assert NodeInv(c, st.sup, st.nodes[s], s) && KeysOk(c, st.nodes[s], s);
  }

  lemma DeliverRelayAt(c: Config, st: System, s: ShardId, from: ShardId, k: ShardId)
    requires Inv(c, st) && s < c.n && from < c.n && k < c.n && from != s && k != s
    requires from < |st.nodes[s].relays| && st.nodes[s].relays[from] != []
    ensures PairInv(c, st.sup, DoDeliverRelay(st, s, from).nodes[s], st.nodes[k], s, k)
  {
    assert PairInv(c, st.sup, st.nodes[s], st.nodes[k], s, k);
    if k == from {
      DeliverRelayHere(c, st, s, from);
    } else {
      DeliverRelayOther(c, st.sup, st.nodes[s], st.nodes[k], s, k, from);
    }
  }

  // ------------------------------------------------ barrier

  lemma DeliverReadyPair(c: Config, sup: Supervisor, a: Node, a': Node, b: Node, i: ShardId, j: ShardId)
    requires c.n > 0 && i < c.n && j < c.n && i != j
    requires NodeInv(c, sup, a, i) && PairInv(c, sup, a, b, i, j) && j in a.readies
    requires a' == a.(l := HandleReady(a.l, j, a.readies[j]), readies := a.readies - {j})
    ensures PairInv(c, sup, a', b, i, j) && NodeInv(c, sup, a', i) && SameStage(sup, a, a')
  {}

  lemma DeliverReadyOther(c: Config, sup: Supervisor, a: Node, b: Node, i: ShardId, j: ShardId, from: ShardId)
    requires c.n > 0 && j < c.n && PairInv(c, sup, a, b, i, j) && j != from && from in a.readies
    ensures var a' := a.(l := HandleReady(a.l, from, a.readies[from]), readies := a.readies - {from});
            PairInv(c, sup, a', b, i, j)
  {
    var a' := a.(l := HandleReady(a.l, from, a.readies[from]), readies := a.readies - {from});
    ReceiverFrame(c, sup, a, a', b, i, j);
  }

  lemma DeliverReadyKeeps(c: Config, st: System, s: ShardId, from: ShardId)
    requires Inv(c, st) && Enabled(c, st, DeliverReady(s, from))
    ensures Inv(c, Apply(c, st, DeliverReady(s, from)))
  {
    var st' := DoDeliverReady(st, s, from);
    SupFrame(c, st, st');
    assert NodeInv(c, st.sup, st.nodes[s], s);
    assert PairInv(c, st.sup, st.nodes[s], st.nodes[from], s, from);
    DeliverReadyPair(c, st.sup, st.nodes[s], st'.nodes[s], st.nodes[from], s, from);
    forall k | 0 <= k < c.n && k != s ensures PairInv(c, st.sup, st'.nodes[s], st.nodes[k], s, k) {
      if k != from { DeliverReadyOther(c, st.sup, st.nodes[s], st.nodes[k], s, k, from); }
    }
    OneReceiver(c, st, st', s);
  }

  lemma DeliverParcelNode(c: Config, sup: Supervisor, a: Node, a': Node, b: Node, i: ShardId, j: ShardId)
    requires c.n > 0 && i < c.n && j < c.n && i != j
    requires NodeInv(c, sup, a, i) && PairInv(c, sup, a, b, i, j) && j in a.parcelsIn
    requires a' == a.(l := HandleParcel(a.l, c.n, j, a.parcelsIn[j]), parcelsIn := a.parcelsIn - {j})
    ensures NodeInv(c, sup, a', i)
  {
    assert j !in a.l.parcels && Migrating(sup) && !HasApplied(sup, a);
    ParcelsBounded(c, a, i);
    assert |a.l.parcels| + 1 != c.n;
    DeliverParcelKeys(c, sup, a, a', i, j);
    ParcelKeepsNode(c, sup, a, a', i);
  }

  /** What a parcel does not touch. */
  lemma ParcelKeepsNode(c: Config, sup: Supervisor, a: Node, a': Node, i: ShardId)
    requires c.n > 0 && i < c.n && NodeInv(c, sup, a, i) && Migrating(sup) && !HasApplied(sup, a)
    requires a' == a.(l := a'.l, parcelsIn := a'.parcelsIn)
    requires a'.l == a.l.(parcels := a'.l.parcels, collectOver := a'.l.collectOver)
    requires KeysOk(c, a', i) && PendingOk(c, sup, a', i)
    ensures NodeInv(c, sup, a', i)
  {
    assert RoundOk(sup, a') && ReplicasOk(c, sup, a') && SupQueueOk(c, sup, a', i);
    assert !HasApplied(sup, a');
  }

  lemma DeliverParcelKeys(c: Config, sup: Supervisor, a: Node, a': Node, i: ShardId, j: ShardId)
    requires c.n > 0 && i < c.n && j < c.n && i != j && j in a.parcelsIn && j !in a.l.parcels
             && |a.l.parcels| + 1 != c.n
    requires KeysOk(c, a, i) && PendingOk(c, sup, a, i)
    requires a' == a.(l := HandleParcel(a.l, c.n, j, a.parcelsIn[j]), parcelsIn := a.parcelsIn - {j})
    requires Migrating(sup)
    ensures KeysOk(c, a', i) && PendingOk(c, sup, a', i)
  {
  }

  lemma DeliverParcelPair(c: Config, sup: Supervisor, a: Node, a': Node, b: Node, i: ShardId, j: ShardId)
    requires c.n > 0 && j < c.n && PairInv(c, sup, a, b, i, j) && j in a.parcelsIn
    requires a' == a.(l := HandleParcel(a.l, c.n, j, a.parcelsIn[j]), parcelsIn := a.parcelsIn - {j})
    ensures PairInv(c, sup, a', b, i, j)
  {
    assert SeqOk(a', b, j) && ReadyOk(sup, a', b, j) && BarrierOk(sup, a', b, j);
    assert TransferOk(c, sup, a', b, i, j);
  }

  lemma DeliverParcelOther(c: Config, sup: Supervisor, a: Node, b: Node, i: ShardId, j: ShardId, from: ShardId)
    requires c.n > 0 && j < c.n && PairInv(c, sup, a, b, i, j) && j != from && from in a.parcelsIn
    ensures PairInv(c, sup, a.(l := HandleParcel(a.l, c.n, from, a.parcelsIn[from]),
                               parcelsIn := a.parcelsIn - {from}), b, i, j)
  {
    ReceiverFrame(c, sup, a, a.(l := HandleParcel(a.l, c.n, from, a.parcelsIn[from]),
                                parcelsIn := a.parcelsIn - {from}), b, i, j);
  }

  lemma DeliverParcelKeeps(c: Config, st: System, s: ShardId, from: ShardId)
    requires Inv(c, st) && Enabled(c, st, DeliverParcel(s, from))
    ensures Inv(c, Apply(c, st, DeliverParcel(s, from)))
  {
    var st' := DoDeliverParcel(c, st, s, from);
    SupFrame(c, st, st');
    DeliverParcelHere(c, st, s, from);
    forall k | 0 <= k < c.n && k != s ensures PairInv(c, st.sup, st'.nodes[s], st.nodes[k], s, k) {
      DeliverParcelAt(c, st, s, from, k);
    }
    OneReceiver(c, st, st', s);
  }

  lemma DeliverParcelHere(c: Config, st: System, s: ShardId, from: ShardId)
    requires Inv(c, st) && s < c.n && from in st.nodes[s].parcelsIn
    ensures from < c.n && from != s
    ensures var a' := DoDeliverParcel(c, st, s, from).nodes[s];
            NodeInv(c, st.sup, a', s) && SameStage(st.sup, st.nodes[s], a')
  {
    assert NodeInv(c, st.sup, st.nodes[s], s);
    assert PairInv(c, st.sup, st.nodes[s], st.nodes[from], s, from);
    DeliverParcelNode(c, st.sup, st.nodes[s], DoDeliverParcel(c, st, s, from).nodes[s], st.nodes[from], s, from);
  }

  lemma DeliverParcelAt(c: Config, st: System, s: ShardId, from: ShardId, k: ShardId)
    requires Inv(c, st) && s < c.n && from < c.n && k < c.n && k != s && from in st.nodes[s].parcelsIn
    ensures PairInv(c, st.sup, DoDeliverParcel(c, st, s, from).nodes[s], st.nodes[k], s, k)
  {
    assert PairInv(c, st.sup, st.nodes[s], st.nodes[k], s, k);
    if k == from {
      DeliverParcelPair(c, st.sup, st.nodes[s], DoDeliverParcel(c, st, s, from).nodes[s], st.nodes[from], s, from);
    } else {
      DeliverParcelOther(c, st.sup, st.nodes[s], st.nodes[k], s, k, from);
    }
  }

  // ------------------------------------------------ counting shards

  function Shards(n: nat): (r: set<ShardId>)
    ensures forall j :: j in r <==> 0 <= j < n
    ensures |r| == n
  {
    if n == 0 then {} else Shards(n - 1) + {n - 1}
  }

  /** At most one parcel per other shard. */
  lemma ParcelsBounded(c: Config, nd: Node, i: ShardId)
    requires i < c.n && forall j | j in nd.l.parcels :: j < c.n && j != i
    ensures |nd.l.parcels| + 1 <= c.n
    ensures |nd.l.parcels| + 1 == c.n ==> forall j | 0 <= j < c.n && j != i :: j in nd.l.parcels
  {
    var rest := Shards(c.n) - {i};
    assert |rest| + 1 == c.n;
    assert nd.l.parcels.Keys <= rest;
    SubsetSize(nd.l.parcels.Keys, rest);
  }
}
