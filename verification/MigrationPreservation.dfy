/** Every step keeps the invariant: the steps that reach several shards at once,
    and the migration itself. */
module MigrationPreservation {
  import opened Collections
  import opened Ledger
  import opened Leaders
  import opened Sharding
  import opened Invariant
  import opened Preservation

  // ------------------------------------------------ committing a block

  lemma FinishBlockPair(c: Config, sup: Supervisor, a: Node, b: Node, i: ShardId, j: ShardId)
    requires c.n > 0 && i < c.n && j < c.n && i != j
    requires NodeInv(c, sup, b, j) && PairInv(c, sup, a, b, i, j) && b.l.stage.BlockPending?
    ensures PairInv(c, sup, AddRelay(a, j, RelayFor(b.l, c.n, i)), b.(l := CommitBlock(b.l, c.n)), i, j)
  {
    var r := RelayFor(b.l, c.n, i);
    var a', b' := AddRelay(a, j, r), b.(l := CommitBlock(b.l, c.n));
    assert SeqOk(a', b', j);
    RelayForRouted(c, b, i);
    assert RelaysRouted(c, MapOf(sup, b'), a'.relays[j], i);
    assert ReadyOk(sup, a', b', j) && BarrierOk(sup, a', b', j);
    forall x | Migrating(sup) && Moves(c, sup, x, j, i) && HasApplied(sup, b)
      ensures Balance(b'.l.trie, x) == Balance(b.l.trie, x)
    {
      ExecFrame(b.l.trie, b.l.pm, c.n, j, b.l.stage.body, x);
    }
    FinishBlockTransfer(c, sup, a, a', b, b', i, j);
  }

  lemma RelayForRouted(c: Config, b: Node, i: ShardId)
    requires c.n > 0 && b.l.stage.BlockPending? && i != b.l.id && i < c.n
    ensures forall t | t in RelayFor(b.l, c.n, i).txs :: t.relayed && Owner(b.l.pm, c.n, t.recipient) == i
  {
    var r := RelayFor(b.l, c.n, i);
    forall t | t in r.txs ensures t.relayed && Owner(b.l.pm, c.n, t.recipient) == i {
      var part := Part(FateClass(b.l.pm, c.n, b.l.id), b.l.stage.body, i);
      var k :| 0 <= k < |r.txs| && r.txs[k] == t;
      assert part[k] in part;
    }
  }

  lemma FinishBlockTransfer(c: Config, sup: Supervisor, a: Node, a': Node, b: Node, b': Node, i: ShardId, j: ShardId)
    requires c.n > 0 && TransferOk(c, sup, a, b, i, j) && !InBarrier(b) && !InBarrier(b') && b'.l.round == b.l.round
    requires a'.l == a.l && a'.parcelsIn == a.parcelsIn
    requires j < |a.relays| && BarrierOk(sup, a, b, j)
    requires forall x | Migrating(sup) && Moves(c, sup, x, j, i) && HasApplied(sup, b) ::
               Balance(b'.l.trie, x) == Balance(b.l.trie, x)
    ensures TransferOk(c, sup, a', b', i, j)
  {}

  lemma AddRelayNode(c: Config, sup: Supervisor, nd: Node, i: ShardId, j: ShardId, r: Relay)
    requires c.n > 0 && i < c.n && j < c.n && i != j && NodeInv(c, sup, nd, i)
    ensures NodeInv(c, sup, AddRelay(nd, j, r), i)
  {
    var nd' := AddRelay(nd, j, r);
    assert KeysOk(c, nd', i) && SupQueueOk(c, sup, nd', i) && PendingOk(c, sup, nd', i);
  }

  lemma CommitBlockNode(c: Config, sup: Supervisor, nd: Node, i: ShardId)
    requires c.n > 0 && i < c.n && NodeInv(c, sup, nd, i) && nd.l.stage.BlockPending?
    ensures NodeInv(c, sup, nd.(l := CommitBlock(nd.l, c.n)), i)
  {
    var nd' := nd.(l := CommitBlock(nd.l, c.n));
    assert RoundOk(sup, nd') && ReplicasOk(c, sup, nd');
    assert KeysOk(c, nd', i) && SupQueueOk(c, sup, nd', i) && PendingOk(c, sup, nd', i);
    assert Body(nd') == [];
  }

  lemma FinishBlockNodes(c: Config, st: System, s: ShardId, i: ShardId)
    requires Inv(c, st) && Enabled(c, st, FinishBlock(s)) && i < c.n
    ensures NodeInv(c, st.sup, Apply(c, st, FinishBlock(s)).nodes[i], i)
  {
    assert NodeInv(c, st.sup, st.nodes[i], i);
    if i == s {
      CommitBlockNode(c, st.sup, st.nodes[s], s);
    } else {
      AddRelayNode(c, st.sup, st.nodes[i], i, s, RelayFor(st.nodes[s].l, c.n, i));
    }
  }

  lemma FinishBlockPairs(c: Config, st: System, s: ShardId, i: ShardId, j: ShardId)
    requires Inv(c, st) && Enabled(c, st, FinishBlock(s)) && i < c.n && j < c.n && i != j
    ensures var st' := Apply(c, st, FinishBlock(s)); PairInv(c, st.sup, st'.nodes[i], st'.nodes[j], i, j)
  {
    var st' := Apply(c, st, FinishBlock(s));
    assert PairInv(c, st.sup, st.nodes[i], st.nodes[j], i, j);
    if j == s {
      assert NodeInv(c, st.sup, st.nodes[s], s);
      FinishBlockPair(c, st.sup, st.nodes[i], st.nodes[s], i, s);
    } else {
      FinishBlockOther(c, st, s, i, j);
    }
  }

  lemma FinishBlockOther(c: Config, st: System, s: ShardId, i: ShardId, j: ShardId)
    requires Inv(c, st) && Enabled(c, st, FinishBlock(s)) && i < c.n && j < c.n && i != j && j != s
    ensures var st' := Apply(c, st, FinishBlock(s)); PairInv(c, st.sup, st'.nodes[i], st'.nodes[j], i, j)
  {
    assert PairInv(c, st.sup, st.nodes[i], st.nodes[j], i, j);
    var b := st.nodes[j];
    var b' := AddRelay(b, s, RelayFor(st.nodes[s].l, c.n, j));
    if i == s {
      assert NodeInv(c, st.sup, st.nodes[s], s);
      CommitReceiver(c, st.sup, st.nodes[s], b, s, j);
      OthersUnchanged(c, st.sup, st.nodes[s].(l := CommitBlock(st.nodes[s].l, c.n)), b, b', s, j);
    } else {
      var r := RelayFor(st.nodes[s].l, c.n, i);
      RelayAddedReceiver(c, st.sup, st.nodes[i], b, i, j, s, r);
      OthersUnchanged(c, st.sup, AddRelay(st.nodes[i], s, r), b, b', i, j);
    }
  }

  lemma CommitReceiver(c: Config, sup: Supervisor, a: Node, b: Node, i: ShardId, j: ShardId)
    requires c.n > 0 && j < c.n && PairInv(c, sup, a, b, i, j) && a.l.stage.BlockPending?
    ensures PairInv(c, sup, a.(l := CommitBlock(a.l, c.n)), b, i, j)
  {
    ReceiverFrame(c, sup, a, a.(l := CommitBlock(a.l, c.n)), b, i, j);
  }

  lemma RelayAddedReceiver(c: Config, sup: Supervisor, a: Node, b: Node, i: ShardId, j: ShardId, from: ShardId,
                           r: Relay)
    requires c.n > 0 && j < c.n && PairInv(c, sup, a, b, i, j) && from != j
    ensures PairInv(c, sup, AddRelay(a, from, r), b, i, j)
  {
    ReceiverFrame(c, sup, a, AddRelay(a, from, r), b, i, j);
  }

  lemma OthersUnchanged(c: Config, sup: Supervisor, a: Node, b: Node, b': Node, i: ShardId, j: ShardId)
    requires c.n > 0 && j < c.n && PairInv(c, sup, a, b, i, j) && b'.l == b.l
    ensures PairInv(c, sup, a, b', i, j)
  {
    SenderFrame(c, sup, a, b, b', i, j);
  }

  lemma FinishBlockKeeps(c: Config, st: System, s: ShardId)
    requires Inv(c, st) && Enabled(c, st, FinishBlock(s))
    ensures Inv(c, Apply(c, st, FinishBlock(s)))
  {
    var st' := Apply(c, st, FinishBlock(s));
    SupFrame(c, st, st');
    forall i | 0 <= i < c.n ensures NodeInv(c, st'.sup, st'.nodes[i], i) {
      FinishBlockNodes(c, st, s, i);
      NodeFrame(c, st.sup, st'.sup, st'.nodes[i], i);
    }
    forall i, j | 0 <= i < c.n && 0 <= j < c.n && i != j
      ensures PairInv(c, st'.sup, st'.nodes[i], st'.nodes[j], i, j)
    {
      FinishBlockPairs(c, st, s, i, j);
      PairFrame(c, st.sup, st'.sup, st'.nodes[i], st'.nodes[j], i, j);
    }
  }

  // ------------------------------------------------ starting a migration

  lemma StartMigrationNode(c: Config, sup: Supervisor, sup': Supervisor, nd: Node, i: ShardId, m: PartitionMap)
    requires c.n > 0 && i < c.n && NodeInv(c, sup, nd, i) && sup.current.None?
    requires sup' == sup.(current := Some(m), acks := {})
    ensures NodeInv(c, sup', nd.(fromSup := nd.fromSup + [PartitionMsg(m)]), i)
  {
    var nd' := nd.(fromSup := nd.fromSup + [PartitionMsg(m)]);
    assert SupQueueOk(c, sup', nd', i);
    assert MapOf(sup', nd') == sup.placement == PoolMap(sup', nd');
  }

  lemma StartMigrationPair(c: Config, sup: Supervisor, a: Node, b: Node, i: ShardId, j: ShardId, m: PartitionMap)
    requires c.n > 0 && i < c.n && j < c.n && i != j && sup.current.None?
    requires NodeInv(c, sup, a, i) && NodeInv(c, sup, b, j) && PairInv(c, sup, a, b, i, j)
    ensures PairInv(c, sup.(current := Some(m), acks := {}), a.(fromSup := a.fromSup + [PartitionMsg(m)]),
                    b.(fromSup := b.fromSup + [PartitionMsg(m)]), i, j)
  {
    assert RoundOk(sup, a) && RoundOk(sup, b);
  }

  lemma StartMigrationKeeps(c: Config, st: System, m: PartitionMap)
    requires Inv(c, st) && Enabled(c, st, StartMigration(m))
    ensures Inv(c, Apply(c, st, StartMigration(m)))
  {
    var st' := DoStartMigration(c, st, m);
    forall i | 0 <= i < c.n ensures NodeInv(c, st'.sup, st'.nodes[i], i) {
      StartMigrationNode(c, st.sup, st'.sup, st.nodes[i], i, m);
    }
    forall i, j | 0 <= i < c.n && 0 <= j < c.n && i != j
      ensures PairInv(c, st'.sup, st'.nodes[i], st'.nodes[j], i, j)
    {
      assert NodeInv(c, st.sup, st.nodes[i], i) && NodeInv(c, st.sup, st.nodes[j], j);
      assert PairInv(c, st.sup, st.nodes[i], st.nodes[j], i, j);
      StartMigrationPair(c, st.sup, st.nodes[i], st.nodes[j], i, j, m);
    }
    assert forall k | k in st.sup.acksIn :: AckOk(c, st, k.shard, k.node);
    assert SupInv(c, st');
  }

  // ------------------------------------------------ entering the barrier

  lemma EnterBarrierPair(c: Config, sup: Supervisor, a: Node, b: Node, i: ShardId, j: ShardId)
    requires c.n > 0 && i < c.n && j < c.n && i != j
    requires NodeInv(c, sup, b, j) && PairInv(c, sup, a, b, i, j) && b.l.stage.Idle? && b.l.partitionOn
    ensures PairInv(c, sup, a.(readies := a.readies[j := b.l.sequenceID]), b.(l := SendReady(b.l)), i, j)
    ensures j !in a.readies
  {
    var a', b' := a.(readies := a.readies[j := b.l.sequenceID]), b.(l := SendReady(b.l));
    assert ReadyOk(sup, a, b, j);
    assert SeqOk(a', b', j) && ReadyOk(sup, a', b', j) && BarrierOk(sup, a', b', j) && TransferOk(c, sup, a', b', i, j);
  }

  lemma AddReadyNode(c: Config, sup: Supervisor, nd: Node, i: ShardId, j: ShardId, q: nat)
    requires c.n > 0 && i < c.n && j < c.n && i != j && NodeInv(c, sup, nd, i)
    requires Migrating(sup) && !HasApplied(sup, nd)
    ensures NodeInv(c, sup, nd.(readies := nd.readies[j := q]), i)
  {
    var nd' := nd.(readies := nd.readies[j := q]);
    assert KeysOk(c, nd', i) && SupQueueOk(c, sup, nd', i) && PendingOk(c, sup, nd', i);
  }

  lemma EnterBarrierKeeps(c: Config, st: System, s: ShardId)
    requires Inv(c, st) && Enabled(c, st, EnterBarrier(s))
    ensures Inv(c, Apply(c, st, EnterBarrier(s)))
  {
    var st' := Apply(c, st, EnterBarrier(s));
    SupFrame(c, st, st');
    forall i | 0 <= i < c.n ensures NodeInv(c, st.sup, st'.nodes[i], i) { EnterBarrierNodes(c, st, s, i); }
    forall i, j | 0 <= i < c.n && 0 <= j < c.n && i != j ensures PairInv(c, st.sup, st'.nodes[i], st'.nodes[j], i, j) {
      EnterBarrierPairs(c, st, s, i, j);
    }
  }

  lemma EnterBarrierNodes(c: Config, st: System, s: ShardId, i: ShardId)
    requires Inv(c, st) && Enabled(c, st, EnterBarrier(s)) && i < c.n
    ensures NodeInv(c, st.sup, Apply(c, st, EnterBarrier(s)).nodes[i], i)
  {
    var st' := Apply(c, st, EnterBarrier(s));
    assert NodeInv(c, st.sup, st.nodes[s], s);
    if i != s {
      assert PairInv(c, st.sup, st.nodes[i], st.nodes[s], i, s);
      AddReadyNode(c, st.sup, st.nodes[i], i, s, st.nodes[s].l.sequenceID);
    } else {
      assert KeysOk(c, st'.nodes[s], s);
    }
  }

  lemma EnterBarrierPairs(c: Config, st: System, s: ShardId, i: ShardId, j: ShardId)
    requires Inv(c, st) && Enabled(c, st, EnterBarrier(s)) && i < c.n && j < c.n && i != j
    ensures var st' := Apply(c, st, EnterBarrier(s)); PairInv(c, st.sup, st'.nodes[i], st'.nodes[j], i, j)
  {
    var l, a, b := st.nodes[s].l, st.nodes[i], st.nodes[j];
    assert PairInv(c, st.sup, a, b, i, j);
    assert NodeInv(c, st.sup, st.nodes[s], s);
    if j == s {
      EnterBarrierPair(c, st.sup, a, b, i, s);
    } else {
      var a' := if i == s then a.(l := SendReady(l)) else a.(readies := a.readies[s := l.sequenceID]);
      if i == s {
        ReadySent(c, st.sup, a, b, s, j);
      } else {
        ReadyAdded(c, st.sup, a, b, i, j, s, l.sequenceID);
      }
      OthersUnchanged(c, st.sup, a', b, b.(readies := b.readies[s := l.sequenceID]), i, j);
    }
  }

  // ------------------------------------------------ passing the barrier

  lemma ReadyIsAll(n: nat, ready: set<ShardId>)
    requires |ready| == n && forall j | j in ready :: j < n
    ensures forall j | 0 <= j < n :: j in ready
  {
    SubsetSize(ready, Shards(n));
  }

  /** A relay still on its way leaves a gap behind the last number handled. */
  lemma QueueGap(a: Node, b: Node, j: ShardId)
    requires j < |a.relays| && SeqOk(a, b, j) && j in a.l.seqIDMap
    ensures a.relays[j] != [] ==> a.l.seqIDMap[j] + 1 < b.l.sequenceID
  {
    if a.relays[j] != [] { assert a.l.seqIDMap[j] < a.relays[j][0].senderSeq; }
  }

  /** Barrier safety for one pair: when the leader's test succeeds, the other shard has
      stopped committing blocks, and everything it relayed has arrived exactly when the
      leader has heard from it or it has never committed one. */
  lemma BarrierPair(c: Config, sup: Supervisor, a: Node, b: Node, i: ShardId, j: ShardId)
    requires c.n > 0 && i < c.n && j < c.n && i != j
    requires NodeInv(c, sup, a, i) && NodeInv(c, sup, b, j)
    requires PairInv(c, sup, a, b, i, j) && PairInv(c, sup, b, a, j, i)
    requires a.l.stage.Waiting? && GetPartitionReady(a.l, c.n)
    ensures InBarrier(b) && !HasApplied(sup, b) && j in a.l.partitionReady
    ensures a.relays[j] == [] <==> HeardFrom(a, b, j)
  {
    ReadyIsAll(c.n, a.l.partitionReady);
    assert ReadyOk(sup, a, b, j) && BarrierOk(sup, b, a, i);
    assert !HasApplied(sup, b);
    assert SeqOk(a, b, j);
    if j in a.l.seqIDMap { QueueGap(a, b, j); }
  }

  /** What stays in the pool is what the new map sends to this shard. */
  lemma KeptIsRouted(m: PartitionMap, pm: PartitionMap, n: nat, s: ShardId, pool: seq<Tx>)
    requires n > 0 && Routed(pm, n, s, pool)
    ensures Routed(pm + m, n, s, Part(MoveClass(m, pm, n, s), pool, s))
  {
    forall t | t in Part(MoveClass(m, pm, n, s), pool, s) ensures Owner(pm + m, n, Key(t)) == s {
      assert t in pool && MoveClass(m, pm, n, s)(t) == s;
    }
  }

  lemma PassBarrierNode(c: Config, sup: Supervisor, nd: Node, i: ShardId)
    requires c.n > 0 && i < c.n && NodeInv(c, sup, nd, i)
    requires nd.l.stage.Waiting? && nd.l.modifiedMap != [] && GetPartitionReady(nd.l, c.n)
    ensures NodeInv(c, sup, nd.(l := SendAccounts(nd.l, c.n)), i)
  {
    var nd' := nd.(l := SendAccounts(nd.l, c.n));
    ReadyIsAll(c.n, nd.l.partitionReady);
    assert LastMap(nd.l) == sup.current.value;
    KeptIsRouted(sup.current.value, nd.l.pm, c.n, i, nd.l.pool);
    PassBarrierShape(c, sup, nd, nd', i);
  }

  lemma PassBarrierShape(c: Config, sup: Supervisor, nd: Node, nd': Node, i: ShardId)
    requires c.n > 0 && i < c.n && NodeInv(c, sup, nd, i) && nd.l.stage.Waiting?
    requires nd' == nd.(l := nd.l.(pool := nd'.l.pool, stage := Collecting))
    requires Routed(NextMap(sup), c.n, i, nd'.l.pool)
    requires forall j | 0 <= j < c.n :: j in nd.l.partitionReady
    ensures NodeInv(c, sup, nd', i)
  {
    assert RoundOk(sup, nd') && ReplicasOk(c, sup, nd');
    assert KeysOk(c, nd', i);
    assert SupQueueOk(c, sup, nd', i);
  }

  lemma PassBarrierSender(c: Config, sup: Supervisor, a: Node, b: Node, i: ShardId, j: ShardId)
    requires c.n > 0 && i < c.n && j < c.n && i != j
    requires NodeInv(c, sup, b, j) && PairInv(c, sup, a, b, i, j)
    requires b.l.stage.Waiting? && b.l.modifiedMap != []
    ensures PairInv(c, sup, a.(parcelsIn := a.parcelsIn[j := ParcelFor(b.l, c.n, i)]),
                    b.(l := SendAccounts(b.l, c.n)), i, j)
  {
    var p := ParcelFor(b.l, c.n, i);
    var a', b' := a.(parcelsIn := a.parcelsIn[j := p]), b.(l := SendAccounts(b.l, c.n));
    assert LastMap(b.l) == sup.current.value;
    forall t | t in p.txs ensures Key(t) in sup.current.value && sup.current.value[Key(t)] == i {
      assert MoveClass(sup.current.value, b.l.pm, c.n, j)(t) == i;
    }
    assert ParcelOk(c, sup, b', i, j, p);
    assert TransferOk(c, sup, a', b', i, j);
    assert SeqOk(a', b', j) && ReadyOk(sup, a', b', j) && BarrierOk(sup, a', b', j);
  }

  lemma PassBarrierReceiver(c: Config, sup: Supervisor, a: Node, b: Node, i: ShardId, j: ShardId)
    requires c.n > 0 && j < c.n && PairInv(c, sup, a, b, i, j)
    requires a.l.stage.Waiting? && a.l.modifiedMap != []
    requires InBarrier(b) && a.relays[j] == []
    ensures PairInv(c, sup, a.(l := SendAccounts(a.l, c.n)), b, i, j)
  {
    var a' := a.(l := SendAccounts(a.l, c.n));
    assert SeqOk(a', b, j) && ReadyOk(sup, a', b, j) && BarrierOk(sup, a', b, j) && TransferOk(c, sup, a', b, i, j);
  }

  lemma AddParcelNode(c: Config, sup: Supervisor, nd: Node, i: ShardId, j: ShardId, p: Parcel)
    requires c.n > 0 && i < c.n && j < c.n && i != j && NodeInv(c, sup, nd, i)
    requires Migrating(sup) && !HasApplied(sup, nd)
    ensures NodeInv(c, sup, nd.(parcelsIn := nd.parcelsIn[j := p]), i)
  {
    var nd' := nd.(parcelsIn := nd.parcelsIn[j := p]);
    assert KeysOk(c, nd', i) && SupQueueOk(c, sup, nd', i) && PendingOk(c, sup, nd', i);
  }

  lemma BarrierReached(c: Config, st: System, s: ShardId, k: ShardId)
    requires Inv(c, st) && s < c.n && k < c.n && k != s
    requires st.nodes[s].l.stage.Waiting? && GetPartitionReady(st.nodes[s].l, c.n)
    ensures InBarrier(st.nodes[k]) && !HasApplied(st.sup, st.nodes[k]) && k in st.nodes[s].l.partitionReady
    ensures st.nodes[s].relays[k] == [] <==> HeardFrom(st.nodes[s], st.nodes[k], k)
  {
    assert NodeInv(c, st.sup, st.nodes[s], s) && NodeInv(c, st.sup, st.nodes[k], k);
    assert PairInv(c, st.sup, st.nodes[s], st.nodes[k], s, k) && PairInv(c, st.sup, st.nodes[k], st.nodes[s], k, s);
    BarrierPair(c, st.sup, st.nodes[s], st.nodes[k], s, k);
  }

  lemma PassBarrierNodes(c: Config, st: System, s: ShardId, i: ShardId)
    requires Inv(c, st) && Enabled(c, st, PassBarrier(s)) && i < c.n
    ensures NodeInv(c, st.sup, Apply(c, st, PassBarrier(s)).nodes[i], i)
  {
    assert NodeInv(c, st.sup, st.nodes[s], s) && NodeInv(c, st.sup, st.nodes[i], i);
    if i == s {
      PassBarrierNode(c, st.sup, st.nodes[s], s);
    } else {
      BarrierReached(c, st, s, i);
      AddParcelNode(c, st.sup, st.nodes[i], i, s, ParcelFor(st.nodes[s].l, c.n, i));
    }
  }

  lemma PassBarrierPairs(c: Config, st: System, s: ShardId, i: ShardId, j: ShardId)
    requires Inv(c, st) && Enabled(c, st, PassBarrier(s)) && Heard(c, st, s) && i < c.n && j < c.n && i != j
    ensures var st' := Apply(c, st, PassBarrier(s)); PairInv(c, st.sup, st'.nodes[i], st'.nodes[j], i, j)
  {
    var st' := Apply(c, st, PassBarrier(s));
    assert NodeInv(c, st.sup, st.nodes[s], s);
    assert PairInv(c, st.sup, st.nodes[i], st.nodes[j], i, j);
    if j == s {
      PassBarrierSender(c, st.sup, st.nodes[i], st.nodes[s], i, s);
    } else {
      PassBarrierOther(c, st, s, i, j);
    }
  }

  lemma PassBarrierOther(c: Config, st: System, s: ShardId, i: ShardId, j: ShardId)
    requires Inv(c, st) && Enabled(c, st, PassBarrier(s)) && Heard(c, st, s) && i < c.n && j < c.n && i != j && j != s
    ensures var st' := Apply(c, st, PassBarrier(s)); PairInv(c, st.sup, st'.nodes[i], st'.nodes[j], i, j)
  {
    var l, a, b := st.nodes[s].l, st.nodes[i], st.nodes[j];
    assert PairInv(c, st.sup, a, b, i, j);
    var a' := if i == s then a.(l := SendAccounts(l, c.n)) else a.(parcelsIn := a.parcelsIn[s := ParcelFor(l, c.n, i)]);
    if i == s {
      BarrierReached(c, st, s, j);
      PassBarrierReceiver(c, st.sup, a, b, s, j);
    } else {
      ParcelAdded(c, st.sup, a, b, i, j, s, ParcelFor(l, c.n, i));
    }
    OthersUnchanged(c, st.sup, a', b, b.(parcelsIn := b.parcelsIn[s := ParcelFor(l, c.n, j)]), i, j);
  }

  lemma ParcelAdded(c: Config, sup: Supervisor, a: Node, b: Node, i: ShardId, j: ShardId, from: ShardId, p: Parcel)
    requires c.n > 0 && j < c.n && PairInv(c, sup, a, b, i, j) && from != j
    ensures PairInv(c, sup, a.(parcelsIn := a.parcelsIn[from := p]), b, i, j)
  {
    ReceiverFrame(c, sup, a, a.(parcelsIn := a.parcelsIn[from := p]), b, i, j);
  }

  lemma ReadyAdded(c: Config, sup: Supervisor, a: Node, b: Node, i: ShardId, j: ShardId, from: ShardId, q: nat)
    requires c.n > 0 && j < c.n && PairInv(c, sup, a, b, i, j) && from != j
    ensures PairInv(c, sup, a.(readies := a.readies[from := q]), b, i, j)
  {
    ReceiverFrame(c, sup, a, a.(readies := a.readies[from := q]), b, i, j);
  }

  lemma ReadySent(c: Config, sup: Supervisor, a: Node, b: Node, i: ShardId, j: ShardId)
    requires c.n > 0 && j < c.n && i != j && PairInv(c, sup, a, b, i, j) && a.l.id == i && a.l.stage.Idle?
    ensures PairInv(c, sup, a.(l := SendReady(a.l)), b, i, j)
  {
    ReceiverFrame(c, sup, a, a.(l := SendReady(a.l)), b, i, j);
  }

  lemma PassBarrierKeeps(c: Config, st: System, s: ShardId)
    requires Inv(c, st) && Enabled(c, st, PassBarrier(s)) && Heard(c, st, s)
    ensures Inv(c, Apply(c, st, PassBarrier(s)))
  {
    var st' := Apply(c, st, PassBarrier(s));
    SupFrame(c, st, st');
    forall i | 0 <= i < c.n ensures NodeInv(c, st'.sup, st'.nodes[i], i) {
      PassBarrierNodes(c, st, s, i);
    }
    forall i, j | 0 <= i < c.n && 0 <= j < c.n && i != j
      ensures PairInv(c, st'.sup, st'.nodes[i], st'.nodes[j], i, j)
    {
      PassBarrierPairs(c, st, s, i, j);
    }
  }

  // ------------------------------------------------ proposing the partition

  lemma {:induction false} ParcelTxsMember(ps: map<ShardId, Parcel>, k: nat, t: Tx)
    requires t in ParcelTxs(ps, k)
    ensures exists j :: 0 <= j < k && j in ps && t in ps[j].txs
  {
    if k > 0 && t in ParcelTxs(ps, k - 1) {
      ParcelTxsMember(ps, k - 1, t);
    }
  }

  /** Every collected transaction belongs here, so proposePartition never panics. */
  lemma CollectedBelongHere(c: Config, st: System, s: ShardId, t: Tx)
    requires Inv(c, st) && s < c.n && t in ParcelTxs(st.nodes[s].l.parcels, c.n)
    ensures st.nodes[s].l.round < |st.nodes[s].l.modifiedMap| ==> !ErrorTx(st.nodes[s].l, t)
    ensures Owner(NextMap(st.sup), c.n, Key(t)) == s
  {
    ParcelTxsMember(st.nodes[s].l.parcels, c.n, t);
    var j :| 0 <= j < c.n && j in st.nodes[s].l.parcels && t in st.nodes[s].l.parcels[j].txs;
    assert NodeInv(c, st.sup, st.nodes[s], s);
    assert PairInv(c, st.sup, st.nodes[s], st.nodes[j], s, j);
    assert ParcelOk(c, st.sup, st.nodes[j], s, j, st.nodes[s].l.parcels[j]);
  }

  lemma StartPartitionNode(c: Config, st: System, s: ShardId, received: seq<Tx>, states: Trie)
    requires Inv(c, st) && Enabled(c, st, StartPartition(s, received, states))
    ensures NodeInv(c, st.sup, Apply(c, st, StartPartition(s, received, states)).nodes[s], s)
  {
    var st' := Apply(c, st, StartPartition(s, received, states));
    var nd, nd' := st.nodes[s], st'.nodes[s];
    assert NodeInv(c, st.sup, nd, s);
    forall t | t in received ensures Owner(NextMap(st.sup), c.n, Key(t)) == s {
      assert t in multiset(ParcelTxs(nd.l.parcels, c.n));
      CollectedBelongHere(c, st, s, t);
    }
    RoutedConcat(PoolMap(st.sup, nd), c.n, s, nd.l.pool, received);
    forall a | a in states
      ensures a in st.sup.current.value && st.sup.current.value[a] == s && Owner(st.sup.placement, c.n, a) != s
    {
      var j :| j in nd.l.parcels && a in nd.l.parcels[j].states;
      assert PairInv(c, st.sup, nd, st.nodes[j], s, j);
      assert ParcelOk(c, st.sup, st.nodes[j], s, j, nd.l.parcels[j]);
    }
    assert PendingOk(c, st.sup, nd', s);
    assert KeysOk(c, nd', s) && SupQueueOk(c, st.sup, nd', s);
  }

  lemma StartPartitionPair(c: Config, st: System, s: ShardId, received: seq<Tx>, states: Trie, k: ShardId)
    requires Inv(c, st) && Enabled(c, st, StartPartition(s, received, states)) && k < c.n && k != s
    ensures PairInv(c, st.sup, Apply(c, st, StartPartition(s, received, states)).nodes[s], st.nodes[k], s, k)
  {
    var st' := Apply(c, st, StartPartition(s, received, states));
    var nd, nd', b := st.nodes[s], st'.nodes[s], st.nodes[k];
    assert NodeInv(c, st.sup, nd, s) && PairInv(c, st.sup, nd, b, s, k);
    ParcelsBounded(c, nd, s);
    assert k in nd.l.parcels && ParcelOk(c, st.sup, b, s, k, nd.l.parcels[k]);
    forall x | Moves(c, st.sup, x, k, s) ensures x in states && states[x] == Balance(b.l.trie, x) {
      assert x in nd.l.parcels[k].states;
      var j :| j in nd.l.parcels && x in nd.l.parcels[j].states && states[x] == nd.l.parcels[j].states[x];
      assert PairInv(c, st.sup, nd, st.nodes[j], s, j);
      assert ParcelOk(c, st.sup, st.nodes[j], s, j, nd.l.parcels[j]);
      assert Moves(c, st.sup, x, j, s);
    }
    assert TransferOk(c, st.sup, nd', b, s, k);
    assert SeqOk(nd', b, k) && ReadyOk(st.sup, nd', b, k) && BarrierOk(st.sup, nd', b, k);
  }

  lemma StartPartitionKeeps(c: Config, st: System, s: ShardId, received: seq<Tx>, states: Trie)
    requires Inv(c, st) && Enabled(c, st, StartPartition(s, received, states))
    ensures Inv(c, Apply(c, st, StartPartition(s, received, states)))
  {
    var st' := Apply(c, st, StartPartition(s, received, states));
    SupFrame(c, st, st');
    StartPartitionNode(c, st, s, received, states);
    forall k | 0 <= k < c.n && k != s ensures PairInv(c, st.sup, st'.nodes[s], st.nodes[k], s, k) {
      StartPartitionPair(c, st, s, received, states, k);
    }
    OneReceiver(c, st, st', s);
  }

  // ------------------------------------------------ applying the partition

  /** A shard that is about to apply the new map has heard from every other one. */
  lemma ApplyingHeardAll(c: Config, st: System, s: ShardId, k: ShardId)
    requires Inv(c, st) && s < c.n && k < c.n && k != s && st.nodes[s].l.stage.PartitionPending?
    ensures IsPast(st.sup, st.nodes[k]) && k in st.nodes[s].l.parcels
    ensures k !in st.nodes[s].parcelsIn && k !in st.nodes[s].readies
    ensures st.nodes[k].relays[s] == []
    ensures s !in st.nodes[k].readies
  {
    var nd, b := st.nodes[s], st.nodes[k];
    assert NodeInv(c, st.sup, nd, s) && NodeInv(c, st.sup, b, k);
    assert PairInv(c, st.sup, nd, b, s, k) && PairInv(c, st.sup, b, nd, k, s);
    ParcelsBounded(c, nd, s);
    assert TransferOk(c, st.sup, nd, b, s, k) && BarrierOk(st.sup, b, nd, s) && ReadyOk(st.sup, b, nd, s);
    assert k in nd.l.parcels;
    assert k !in nd.readies;
    if HasApplied(st.sup, b) {
      assert b.readies == map[];
    } else {
      assert s in b.l.partitionReady;
    }
  }

  lemma FinishPartitionNode(c: Config, st: System, s: ShardId)
    requires Inv(c, st) && Enabled(c, st, FinishPartition(s))
    ensures NodeInv(c, st.sup, Apply(c, st, FinishPartition(s)).nodes[s], s)
  {
    var st' := Apply(c, st, FinishPartition(s));
    var nd, nd' := st.nodes[s], st'.nodes[s];
    assert NodeInv(c, st.sup, nd, s);
    forall k | k in nd.parcelsIn ensures false { ApplyingHeardAll(c, st, s, k); }
    forall k | k in nd.readies ensures false { ApplyingHeardAll(c, st, s, k); }
    assert nd.parcelsIn == map[] && nd.readies == map[];
    FinishPartitionShape(c, st.sup, nd, nd', s);
  }

  lemma FinishPartitionShape(c: Config, sup: Supervisor, nd: Node, nd': Node, i: ShardId)
    requires c.n > 0 && i < c.n && NodeInv(c, sup, nd, i) && nd.l.stage.PartitionPending?
    requires nd.parcelsIn == map[] && nd.readies == map[]
    requires nd' == nd.(l := TransferAccounts(nd.l, c.n), applied := nd.applied[0 := nd.l.stage.atid])
    ensures NodeInv(c, sup, nd', i)
  {
    assert RoundOk(sup, nd');
    assert Quiet(nd') && ReplicasOk(c, sup, nd');
    assert KeysOk(c, nd', i);
    assert SupQueueOk(c, sup, nd', i);
    assert PoolMap(sup, nd') == PoolMap(sup, nd);
  }

  lemma FinishPartitionReceiver(c: Config, st: System, s: ShardId, k: ShardId)
    requires Inv(c, st) && Enabled(c, st, FinishPartition(s)) && k < c.n && k != s
    ensures PairInv(c, st.sup, Apply(c, st, FinishPartition(s)).nodes[s], st.nodes[k], s, k)
  {
    var nd', b := Apply(c, st, FinishPartition(s)).nodes[s], st.nodes[k];
    assert NodeInv(c, st.sup, st.nodes[s], s) && PairInv(c, st.sup, st.nodes[s], b, s, k);
    ApplyingHeardAll(c, st, s, k);
    assert SeqOk(nd', b, k) && ReadyOk(st.sup, nd', b, k) && BarrierOk(st.sup, nd', b, k);
    assert TransferOk(c, st.sup, nd', b, s, k);
  }

  lemma FinishPartitionSender(c: Config, st: System, s: ShardId, k: ShardId)
    requires Inv(c, st) && Enabled(c, st, FinishPartition(s)) && k < c.n && k != s
    ensures PairInv(c, st.sup, st.nodes[k], Apply(c, st, FinishPartition(s)).nodes[s], k, s)
  {
    var nd, nd', a := st.nodes[s], Apply(c, st, FinishPartition(s)).nodes[s], st.nodes[k];
    assert NodeInv(c, st.sup, nd, s) && PairInv(c, st.sup, a, nd, k, s);
    ApplyingHeardAll(c, st, s, k);
    assert SeqOk(a, nd', s) && ReadyOk(st.sup, a, nd', s) && BarrierOk(st.sup, a, nd', s);
    forall x | Moves(c, st.sup, x, s, k) ensures Balance(nd'.l.trie, x) == Balance(nd.l.trie, x) {
      assert Owner(nd'.l.pm, c.n, x) == k;
    }
    assert TransferOk(c, st.sup, a, nd', k, s);
  }

  lemma FinishPartitionAcks(c: Config, st: System, s: ShardId)
    requires Inv(c, st) && Enabled(c, st, FinishPartition(s))
    ensures SupInv(c, Apply(c, st, FinishPartition(s)))
  {
    var st' := Apply(c, st, FinishPartition(s));
    assert NodeInv(c, st.sup, st.nodes[s], s);
    forall i: nat, r: nat | AckOk(c, st, i, r) ensures AckOk(c, st', i, r) {}
    assert AckOk(c, st', s, 0) && !AckOk(c, st, s, 0);
  }

  lemma FinishPartitionKeeps(c: Config, st: System, s: ShardId)
    requires Inv(c, st) && Enabled(c, st, FinishPartition(s))
    ensures Inv(c, Apply(c, st, FinishPartition(s)))
  {
    var st' := Apply(c, st, FinishPartition(s));
    FinishPartitionAcks(c, st, s);
    FinishPartitionNode(c, st, s);
    forall k | 0 <= k < c.n && k != s ensures PairInv(c, st.sup, st'.nodes[s], st.nodes[k], s, k) {
      FinishPartitionReceiver(c, st, s, k);
    }
    forall k | 0 <= k < c.n && k != s ensures PairInv(c, st.sup, st.nodes[k], st'.nodes[s], k, s) {
      FinishPartitionSender(c, st, s, k);
    }
    OneShard(c, st, st', s);
  }

  // ------------------------------------------------ acknowledgements

  lemma ReplicaApplyNode(c: Config, sup: Supervisor, nd: Node, i: ShardId, node: nat)
    requires c.n > 0 && i < c.n && NodeInv(c, sup, nd, i)
    requires 0 < node < |nd.applied| && nd.applied[node] < nd.l.round + (if nd.l.stage.PartitionPending? then 1 else 0)
    ensures NodeInv(c, sup, nd.(applied := nd.applied[node := nd.applied[node] + 1]), i)
    ensures Migrating(sup) && nd.applied[node] == sup.completed
  {
    var nd' := nd.(applied := nd.applied[node := nd.applied[node] + 1]);
    assert ReplicasOk(c, sup, nd');
    assert RoundOk(sup, nd') && KeysOk(c, nd', i);
    assert SupQueueOk(c, sup, nd', i) && PendingOk(c, sup, nd', i);
  }

  lemma ReplicaApplyAcks(c: Config, st: System, s: ShardId, node: nat)
    requires Inv(c, st) && Enabled(c, st, ReplicaApply(s, node))
    ensures SupInv(c, Apply(c, st, ReplicaApply(s, node)))
  {
    var st' := Apply(c, st, ReplicaApply(s, node));
    ReplicaApplyNode(c, st.sup, st.nodes[s], s, node);
    forall i: nat, r: nat | AckOk(c, st, i, r) ensures AckOk(c, st', i, r) {}
    assert AckOk(c, st', s, node) && !AckOk(c, st, s, node);
  }

  lemma ReplicaApplyKeeps(c: Config, st: System, s: ShardId, node: nat)
    requires Inv(c, st) && Enabled(c, st, ReplicaApply(s, node))
    ensures Inv(c, Apply(c, st, ReplicaApply(s, node)))
  {
    var st' := DoReplicaApply(st, s, node);
    ReplicaApplyAcks(c, st, s, node);
    assert NodeInv(c, st.sup, st.nodes[s], s);
    ReplicaApplyNode(c, st.sup, st.nodes[s], s, node);
    OneApplied(c, st, st', s, st'.nodes[s].applied);
  }

  lemma OneApplied(c: Config, st: System, st': System, s: ShardId, applied: seq<nat>)
    requires Inv(c, st) && s < c.n && st'.nodes == st.nodes[s := st.nodes[s].(applied := applied)]
    requires SameView(st.sup, st'.sup) && SupInv(c, st') && NodeInv(c, st.sup, st.nodes[s].(applied := applied), s)
    ensures Inv(c, st')
  {
    forall k | 0 <= k < c.n && k != s ensures PairInv(c, st.sup, st'.nodes[s], st.nodes[k], s, k) {
      ReplicaApplyPair(c, st.sup, st.nodes[s], st.nodes[k], s, k, applied);
    }
    OneReceiver(c, st, st', s);
  }

  lemma ReplicaApplyPair(c: Config, sup: Supervisor, a: Node, b: Node, i: ShardId, j: ShardId, applied: seq<nat>)
    requires c.n > 0 && j < c.n && PairInv(c, sup, a, b, i, j)
    ensures PairInv(c, sup, a.(applied := applied), b, i, j)
  {
    ReceiverFrame(c, sup, a, a.(applied := applied), b, i, j);
  }

  lemma SupOnlyKeeps(c: Config, st: System, st': System)
    requires Inv(c, st) && st'.nodes == st.nodes && SameView(st.sup, st'.sup) && SupInv(c, st')
    ensures Inv(c, st')
  {
    forall i | 0 <= i < c.n ensures NodeInv(c, st'.sup, st'.nodes[i], i) {
      NodeFrame(c, st.sup, st'.sup, st.nodes[i], i);
    }
    forall i, j | 0 <= i < c.n && 0 <= j < c.n && i != j
      ensures PairInv(c, st'.sup, st'.nodes[i], st'.nodes[j], i, j)
    {
      PairFrame(c, st.sup, st'.sup, st.nodes[i], st.nodes[j], i, j);
    }
  }

  lemma DeliverAckKeeps(c: Config, st: System, ack: Ack)
    requires Inv(c, st) && Enabled(c, st, DeliverAck(ack))
    ensures Inv(c, Apply(c, st, DeliverAck(ack)))
  {
    var st' := Apply(c, st, DeliverAck(ack));
    forall i: nat, r: nat | AckOk(c, st, i, r) ensures AckOk(c, st', i, r) {}
    assert AckOk(c, st, ack.shard, ack.node);
    forall k | k in st'.sup.acksIn ensures (k.shard, k.node) !in st'.sup.acks {
      assert k.epoch == ack.epoch;
    }
    SupOnlyKeeps(c, st, st');
  }

  // ------------------------------------------------ finishing a migration

  function Replicas(n: nat, r: nat): (p: set<(nat, nat)>)
    ensures forall x: (nat, nat) :: x in p <==> x.0 < n && x.1 < r
    ensures |p| == n * r
  {
    if n == 0 then {}
    else
      assert Replicas(n - 1, r) !! Row(n - 1, r);
      assert n * r == (n - 1) * r + r by { RowsAdd(n, r); }
      Replicas(n - 1, r) + Row(n - 1, r)
  }

  lemma RowsAdd(n: nat, r: nat)
    requires n > 0
    ensures n * r == (n - 1) * r + r
  {
  }

  function Row(s: nat, r: nat): (p: set<(nat, nat)>)
    ensures forall x: (nat, nat) :: x in p <==> x.0 == s && x.1 < r
    ensures |p| == r
  {
    if r == 0 then {} else Row(s, r - 1) + {(s, r - 1)}
  }

  lemma FullSet(n: nat, r: nat, acks: set<(nat, nat)>)
    requires |acks| == n * r && forall p | p in acks :: p.0 < n && p.1 < r
    ensures forall s, k | 0 <= s < n && 0 <= k < r :: (s, k) in acks
  {
    assert acks <= Replicas(n, r);
    SubsetSize(acks, Replicas(n, r));
  }

  /** n * r acknowledgements can only be one from every replica of every shard. */
  lemma AllAcked(c: Config, st: System)
    requires SupInv(c, st) && st.sup.current.Some? && |st.sup.acks| == c.n * c.r
    ensures st.sup.acksIn == {}
    ensures forall s, k | 0 <= s < c.n && 0 <= k < c.r :: AckOk(c, st, s, k)
  {
    forall p | p in st.sup.acks ensures p.0 < c.n && p.1 < c.r { assert AckOk(c, st, p.0, p.1); }
    forall k | k in st.sup.acksIn ensures k.shard < c.n && k.node < c.r { assert AckOk(c, st, k.shard, k.node); }
    FullSet(c.n, c.r, st.sup.acks);
    forall s, k | 0 <= s < c.n && 0 <= k < c.r ensures AckOk(c, st, s, k) {
      assert (s, k) in st.sup.acks;
    }
    assert forall k | k in st.sup.acksIn :: (k.shard, k.node) in st.sup.acks;
  }

  lemma FinishMigrationNode(c: Config, sup: Supervisor, sup': Supervisor, nd: Node, i: ShardId)
    requires c.n > 0 && i < c.n && NodeInv(c, sup, nd, i) && HasApplied(sup, nd)
    requires forall k | 0 <= k < c.r :: nd.applied[k] == sup.completed + 1
    requires sup' == sup.(placement := sup.placement + sup.current.value, current := None,
                          completed := sup.completed + 1)
    ensures NodeInv(c, sup', nd, i)
  {
    assert PoolMap(sup', nd) == PoolMap(sup, nd) && MapOf(sup', nd) == MapOf(sup, nd);
    assert SupQueueOk(c, sup', nd, i) && ReplicasOk(c, sup', nd) && RoundOk(sup', nd);
  }

  lemma FinishMigrationPair(c: Config, sup: Supervisor, sup': Supervisor, a: Node, b: Node, i: ShardId, j: ShardId)
    requires c.n > 0 && i < c.n && j < c.n && PairInv(c, sup, a, b, i, j)
    requires NodeInv(c, sup, a, i) && NodeInv(c, sup, b, j) && HasApplied(sup, a) && HasApplied(sup, b)
    requires sup' == sup.(placement := sup.placement + sup.current.value, current := None,
                          completed := sup.completed + 1)
    ensures PairInv(c, sup', a, b, i, j)
  {
    assert MapOf(sup', b) == MapOf(sup, b);
    assert Quiet(a) && Quiet(b) && !InBarrier(a) && !InBarrier(b);
    assert SeqOk(a, b, j) && ReadyOk(sup', a, b, j) && BarrierOk(sup', a, b, j) && TransferOk(c, sup', a, b, i, j);
  }

  lemma EveryoneApplied(c: Config, st: System, i: ShardId)
    requires Inv(c, st) && Enabled(c, st, FinishMigration) && i < c.n
    ensures HasApplied(st.sup, st.nodes[i])
    ensures |st.nodes[i].applied| == c.r && forall k | 0 <= k < c.r :: st.nodes[i].applied[k] == st.sup.completed + 1
  {
    AllAcked(c, st);
    assert NodeInv(c, st.sup, st.nodes[i], i);
    forall k | 0 <= k < c.r ensures st.nodes[i].applied[k] == st.sup.completed + 1 { assert AckOk(c, st, i, k); }
    assert AckOk(c, st, i, 0);
  }

  lemma FinishMigrationPairs(c: Config, st: System, i: ShardId, j: ShardId)
    requires Inv(c, st) && Enabled(c, st, FinishMigration) && i < c.n && j < c.n && i != j
    ensures PairInv(c, Apply(c, st, FinishMigration).sup, st.nodes[i], st.nodes[j], i, j)
  {
    EveryoneApplied(c, st, i);
    EveryoneApplied(c, st, j);
    assert NodeInv(c, st.sup, st.nodes[i], i) && NodeInv(c, st.sup, st.nodes[j], j);
    assert PairInv(c, st.sup, st.nodes[i], st.nodes[j], i, j);
    FinishMigrationPair(c, st.sup, Apply(c, st, FinishMigration).sup, st.nodes[i], st.nodes[j], i, j);
  }

  lemma FinishMigrationNodes(c: Config, st: System, i: ShardId)
    requires Inv(c, st) && Enabled(c, st, FinishMigration) && i < c.n
    ensures NodeInv(c, Apply(c, st, FinishMigration).sup, st.nodes[i], i)
  {
    EveryoneApplied(c, st, i);
    assert NodeInv(c, st.sup, st.nodes[i], i);
    FinishMigrationNode(c, st.sup, Apply(c, st, FinishMigration).sup, st.nodes[i], i);
  }

  lemma FinishMigrationKeeps(c: Config, st: System)
    requires Inv(c, st) && Enabled(c, st, FinishMigration)
    ensures Inv(c, Apply(c, st, FinishMigration))
  {
    var st' := Apply(c, st, FinishMigration);
    forall i | 0 <= i < c.n ensures NodeInv(c, st'.sup, st'.nodes[i], i) {
      FinishMigrationNodes(c, st, i);
    }
    forall i, j | 0 <= i < c.n && 0 <= j < c.n && i != j
      ensures PairInv(c, st'.sup, st'.nodes[i], st'.nodes[j], i, j)
    {
      FinishMigrationPairs(c, st, i, j);
    }
    AllAcked(c, st);
  }

  // ------------------------------------------------ all of it

  lemma InitHolds(c: Config)
    requires c.n > 0 && c.r > 0
    ensures Inv(c, Init(c))
  {
    var st := Init(c);
    forall i | 0 <= i < c.n ensures NodeInv(c, st.sup, st.nodes[i], i) {}
    forall i, j | 0 <= i < c.n && 0 <= j < c.n && i != j ensures PairInv(c, st.sup, st.nodes[i], st.nodes[j], i, j) {}
  }

  lemma StepKeeps(c: Config, st: System, step: Step)
    requires Inv(c, st) && Enabled(c, st, step) && (step.PassBarrier? ==> Heard(c, st, step.s))
    ensures Inv(c, Apply(c, st, step))
  {
    match step
    case Inject(s, txs) => InjectKeeps(c, st, s, txs);
    case DeliverFromSup(s) => DeliverFromSupKeeps(c, st, s);
    case StartBlock(s, size) => StartBlockKeeps(c, st, s, size);
    case FinishBlock(s) => FinishBlockKeeps(c, st, s);
    case DeliverRelay(s, from) => DeliverRelayKeeps(c, st, s, from);
    case DeliverInfo(k) => SupFrame(c, st, Apply(c, st, step)); SupOnlyKeeps(c, st, Apply(c, st, step));
    case StartMigration(m) => StartMigrationKeeps(c, st, m);
    case EnterBarrier(s) => EnterBarrierKeeps(c, st, s);
    case DeliverReady(s, from) => DeliverReadyKeeps(c, st, s, from);
    case PassBarrier(s) => PassBarrierKeeps(c, st, s);
    case DeliverParcel(s, from) => DeliverParcelKeeps(c, st, s, from);
    case StartPartition(s, received, states) => StartPartitionKeeps(c, st, s, received, states);
    case FinishPartition(s) => FinishPartitionKeeps(c, st, s);
    case ReplicaApply(s, node) => ReplicaApplyKeeps(c, st, s, node);
    case DeliverAck(ack) => DeliverAckKeeps(c, st, ack);
    case FinishMigration => FinishMigrationKeeps(c, st);
  }

  /** The invariant holds in every state of every run. */
  lemma {:induction false} RunInv(c: Config, run: seq<System>, k: nat)
    requires Run(c, run) && k < |run|
    ensures Inv(c, run[k])
  {
    if k == 0 {
      InitHolds(c);
    } else {
      RunInv(c, run, k - 1);
      assert NextAt(c, run, k);
      NextKeeps(c, run[k - 1], run[k]);
    }
  }

  lemma NextKeeps(c: Config, st: System, st': System)
    requires c.n > 0 && Inv(c, st) && Next(c, st, st')
    ensures Inv(c, st')
  {
    var step :| Takes(c, st, step, st') && (step.PassBarrier? ==> Heard(c, st, step.s));
    StepKeeps(c, st, step);
  }
}
