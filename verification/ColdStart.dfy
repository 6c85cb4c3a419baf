/** getPartitionReady skips the shards it has never had a relay from. When exactly its
    verdict is right in a first migration, however that one was started, and that a
    migration started warm never meets the case in which it is wrong. */
module ColdStart {
  import opened Ledger
  import opened Leaders
  import opened Sharding
  import opened Invariant
  import M = MigrationPreservation

  ghost predicate ColdNext(c: Config, st: System, st': System)
    requires c.n > 0
  {
    exists step :: Takes(c, st, step, st')
  }

  ghost predicate ColdNextAt(c: Config, run: seq<System>, k: nat)
    requires c.n > 0 && 0 < k < |run|
  {
    ColdNext(c, run[k - 1], run[k])
  }

  /** A run whose migrations may start at any time. */
  ghost predicate ColdRun(c: Config, run: seq<System>) {
    && c.n > 0 && c.r > 0 && run != [] && run[0] == Init(c)
    && forall k | 0 < k < |run| :: ColdNextAt(c, run, k)
  }

  /** No shard has applied a partition yet. */
  ghost predicate FirstRound(st: System) {
    forall i | 0 <= i < |st.nodes| :: st.nodes[i].l.round == 0
  }

  ghost predicate ColdNode(c: Config, nd: Node, i: ShardId) {
    && nd.l.id == i && nd.l.sequenceID >= 1 && |nd.relays| == c.n
    && (forall j | j in nd.l.partitionReady :: j < c.n)
    && (forall j | j in nd.readies :: j < c.n && j != i)
    && (nd.l.stage.PartitionPending? ==> nd.l.stage.atid >= 1)
  }

  /** Sequence numbers on the channel from b to a, and what a knows of b's readiness.
      A channel nothing was ever taken from holds one relay per block of b. */
  ghost predicate ColdPair(a: Node, b: Node, j: ShardId) {
    && j < |a.relays| && SeqOk(a, b, j)
    && (j !in a.l.seqIDMap ==> |a.relays[j]| + 1 == b.l.sequenceID)
    && (j in a.l.partitionReady ==> InBarrier(b) && j in a.l.readySeq && a.l.readySeq[j] == b.l.sequenceID)
    && (j in a.readies ==> InBarrier(b) && a.readies[j] == b.l.sequenceID)
  }

  ghost predicate ColdInv(c: Config, st: System) {
    && c.n > 0 && |st.nodes| == c.n
    && (forall i | 0 <= i < c.n :: ColdNode(c, st.nodes[i], i))
    && (forall i, j | 0 <= i < c.n && 0 <= j < c.n && i != j :: ColdPair(st.nodes[i], st.nodes[j], j))
  }

  /** Nothing ColdInv reads has changed. */
  ghost predicate SameCold(a: Node, a': Node) {
    && a'.relays == a.relays && a'.readies == a.readies
    && a'.l.id == a.l.id && a'.l.sequenceID == a.l.sequenceID && a'.l.seqIDMap == a.l.seqIDMap
    && a'.l.partitionReady == a.l.partitionReady && a'.l.readySeq == a.l.readySeq
    && (InBarrier(a) ==> InBarrier(a'))
    && (a'.l.stage.PartitionPending? ==> a'.l.stage.atid >= 1)
  }

  lemma QuietColdStep(c: Config, st: System, st': System)
    requires ColdInv(c, st) && |st'.nodes| == c.n
    requires forall i | 0 <= i < c.n :: SameCold(st.nodes[i], st'.nodes[i])
    ensures ColdInv(c, st')
  {
    forall i | 0 <= i < c.n ensures ColdNode(c, st'.nodes[i], i) {
      assert ColdNode(c, st.nodes[i], i) && SameCold(st.nodes[i], st'.nodes[i]);
    }
    forall i, j | 0 <= i < c.n && 0 <= j < c.n && i != j ensures ColdPair(st'.nodes[i], st'.nodes[j], j) {
      assert ColdPair(st.nodes[i], st.nodes[j], j);
      assert SameCold(st.nodes[i], st'.nodes[i]) && SameCold(st.nodes[j], st'.nodes[j]);
    }
  }

  lemma FinishBlockColdPair(c: Config, a: Node, b: Node, i: ShardId, j: ShardId)
    requires c.n > 0 && ColdPair(a, b, j) && b.l.stage.BlockPending?
    ensures ColdPair(AddRelay(a, j, RelayFor(b.l, c.n, i)), b.(l := CommitBlock(b.l, c.n)), j)
  {
    assert SeqOk(AddRelay(a, j, RelayFor(b.l, c.n, i)), b.(l := CommitBlock(b.l, c.n)), j);
  }

  lemma ColdFrame(a: Node, a': Node, b: Node, b': Node, j: ShardId)
    requires ColdPair(a, b, j) && j < |a'.relays| && a'.relays[j] == a.relays[j] && a'.readies == a.readies
    requires a'.l.seqIDMap == a.l.seqIDMap && a'.l.partitionReady == a.l.partitionReady && a'.l.readySeq == a.l.readySeq
    requires b'.l.sequenceID == b.l.sequenceID && (InBarrier(b) ==> InBarrier(b'))
    ensures ColdPair(a', b', j)
  {}

  lemma FinishBlockCold(c: Config, st: System, s: ShardId)
    requires ColdInv(c, st) && Enabled(c, st, FinishBlock(s))
    ensures ColdInv(c, Apply(c, st, FinishBlock(s)))
  {
    var st' := Apply(c, st, FinishBlock(s));
    forall i | 0 <= i < c.n ensures ColdNode(c, st'.nodes[i], i) { assert ColdNode(c, st.nodes[i], i); }
    forall i, j | 0 <= i < c.n && 0 <= j < c.n && i != j ensures ColdPair(st'.nodes[i], st'.nodes[j], j) {
      assert ColdPair(st.nodes[i], st.nodes[j], j);
      if j == s {
        FinishBlockColdPair(c, st.nodes[i], st.nodes[s], i, s);
      } else {
        ColdFrame(st.nodes[i], st'.nodes[i], st.nodes[j], st'.nodes[j], j);
      }
    }
  }

  lemma DeliverRelayCold(c: Config, st: System, s: ShardId, from: ShardId)
    requires ColdInv(c, st) && Enabled(c, st, DeliverRelay(s, from))
    ensures ColdInv(c, Apply(c, st, DeliverRelay(s, from)))
  {
    var st' := Apply(c, st, DeliverRelay(s, from));
    forall i | 0 <= i < c.n ensures ColdNode(c, st'.nodes[i], i) { assert ColdNode(c, st.nodes[i], i); }
    forall i, j | 0 <= i < c.n && 0 <= j < c.n && i != j ensures ColdPair(st'.nodes[i], st'.nodes[j], j) {
      assert ColdNode(c, st.nodes[i], i) && ColdPair(st.nodes[i], st.nodes[j], j);
      if i == s { DeliverRelayColdPair(st.nodes[s], st.nodes[j], j, from); }
    }
  }

  lemma DeliverRelayColdPair(a: Node, b: Node, j: ShardId, from: ShardId)
    requires ColdPair(a, b, j) && from < |a.relays| && a.relays[from] != []
    ensures ColdPair(a.(l := HandleRelay(a.l, from, a.relays[from][0]),
                        relays := a.relays[from := a.relays[from][1..]]), b, j)
  {
    var q := a.relays[from];
    assert forall k | 0 <= k < |q[1..]| :: q[1..][k] == q[k + 1];
  }

  lemma EnterBarrierCold(c: Config, st: System, s: ShardId)
    requires ColdInv(c, st) && Enabled(c, st, EnterBarrier(s))
    ensures ColdInv(c, Apply(c, st, EnterBarrier(s)))
  {
    var st' := Apply(c, st, EnterBarrier(s));
    forall i | 0 <= i < c.n ensures ColdNode(c, st'.nodes[i], i) { assert ColdNode(c, st.nodes[i], i); }
    forall i, j | 0 <= i < c.n && 0 <= j < c.n && i != j ensures ColdPair(st'.nodes[i], st'.nodes[j], j) {
      assert ColdNode(c, st.nodes[i], i) && ColdPair(st.nodes[i], st.nodes[j], j);
    }
  }

  lemma DeliverReadyCold(c: Config, st: System, s: ShardId, from: ShardId)
    requires ColdInv(c, st) && Enabled(c, st, DeliverReady(s, from))
    ensures ColdInv(c, Apply(c, st, DeliverReady(s, from)))
  {
    var st' := Apply(c, st, DeliverReady(s, from));
    forall i | 0 <= i < c.n ensures ColdNode(c, st'.nodes[i], i) { assert ColdNode(c, st.nodes[i], i); }
    forall i, j | 0 <= i < c.n && 0 <= j < c.n && i != j ensures ColdPair(st'.nodes[i], st'.nodes[j], j) {
      assert ColdNode(c, st.nodes[i], i) && ColdPair(st.nodes[i], st.nodes[j], j);
      if i == s { DeliverReadyColdPair(st.nodes[s], st.nodes[j], j, from); }
    }
  }

  lemma DeliverReadyColdPair(a: Node, b: Node, j: ShardId, from: ShardId)
    requires ColdPair(a, b, j) && from in a.readies
    ensures ColdPair(a.(l := HandleReady(a.l, from, a.readies[from]), readies := a.readies - {from}), b, j)
  {}

  /** A step that changes nothing ColdInv reads, at one shard. */
  lemma OneCold(c: Config, st: System, st': System, s: ShardId)
    requires ColdInv(c, st) && s < c.n && |st'.nodes| == c.n
    requires forall k | 0 <= k < c.n && k != s :: st'.nodes[k] == st.nodes[k]
    requires SameCold(st.nodes[s], st'.nodes[s])
    ensures ColdInv(c, st')
  {
    forall i | 0 <= i < c.n ensures SameCold(st.nodes[i], st'.nodes[i]) { assert ColdNode(c, st.nodes[i], i); }
    QuietColdStep(c, st, st');
  }

  lemma InjectCold(c: Config, st: System, s: ShardId, txs: seq<Tx>)
    requires ColdInv(c, st) && Enabled(c, st, Inject(s, txs))
    ensures ColdInv(c, Apply(c, st, Inject(s, txs)))
  {
    assert ColdNode(c, st.nodes[s], s);
    OneCold(c, st, DoInject(st, s, txs), s);
  }

  lemma DeliverFromSupCold(c: Config, st: System, s: ShardId)
    requires ColdInv(c, st) && Enabled(c, st, DeliverFromSup(s))
    ensures ColdInv(c, Apply(c, st, DeliverFromSup(s)))
  {
    assert ColdNode(c, st.nodes[s], s);
    OneCold(c, st, DoDeliverFromSup(st, s), s);
  }

  lemma StartBlockCold(c: Config, st: System, s: ShardId, size: nat)
    requires ColdInv(c, st) && Enabled(c, st, StartBlock(s, size))
    ensures ColdInv(c, Apply(c, st, StartBlock(s, size)))
  {
    OneCold(c, st, Apply(c, st, StartBlock(s, size)), s);
  }

  lemma DeliverParcelCold(c: Config, st: System, s: ShardId, from: ShardId)
    requires ColdInv(c, st) && Enabled(c, st, DeliverParcel(s, from))
    ensures ColdInv(c, Apply(c, st, DeliverParcel(s, from)))
  {
    assert ColdNode(c, st.nodes[s], s);
    OneCold(c, st, DoDeliverParcel(c, st, s, from), s);
  }

  lemma StartPartitionCold(c: Config, st: System, s: ShardId, received: seq<Tx>, states: Trie)
    requires ColdInv(c, st) && Enabled(c, st, StartPartition(s, received, states))
    ensures ColdInv(c, Apply(c, st, StartPartition(s, received, states)))
  {
    OneCold(c, st, Apply(c, st, StartPartition(s, received, states)), s);
  }

  lemma ReplicaApplyCold(c: Config, st: System, s: ShardId, node: nat)
    requires ColdInv(c, st) && Enabled(c, st, ReplicaApply(s, node))
    ensures ColdInv(c, Apply(c, st, ReplicaApply(s, node)))
  {
    assert ColdNode(c, st.nodes[s], s);
    OneCold(c, st, DoReplicaApply(st, s, node), s);
  }

  lemma PassBarrierCold(c: Config, st: System, s: ShardId)
    requires ColdInv(c, st) && Enabled(c, st, PassBarrier(s))
    ensures ColdInv(c, Apply(c, st, PassBarrier(s)))
  {
    var st' := DoPassBarrier(c, st, s);
    forall i | 0 <= i < c.n ensures SameCold(st.nodes[i], st'.nodes[i]) { assert ColdNode(c, st.nodes[i], i); }
    QuietColdStep(c, st, st');
  }

  lemma StartMigrationCold(c: Config, st: System, m: PartitionMap)
    requires ColdInv(c, st) && Enabled(c, st, StartMigration(m))
    ensures ColdInv(c, Apply(c, st, StartMigration(m)))
  {
    var st' := DoStartMigration(c, st, m);
    forall i | 0 <= i < c.n ensures SameCold(st.nodes[i], st'.nodes[i]) { assert ColdNode(c, st.nodes[i], i); }
    QuietColdStep(c, st, st');
  }

  lemma FinishPartitionEndsRound(c: Config, st: System, s: ShardId)
    requires ColdInv(c, st) && Enabled(c, st, FinishPartition(s))
    ensures !FirstRound(Apply(c, st, FinishPartition(s)))
  {
    assert ColdNode(c, st.nodes[s], s);
    assert Apply(c, st, FinishPartition(s)).nodes[s].l.round != 0;
  }

  lemma ColdStep(c: Config, st: System, step: Step)
    requires ColdInv(c, st) && Enabled(c, st, step) && FirstRound(Apply(c, st, step))
    ensures ColdInv(c, Apply(c, st, step))
  {
    match step
    case FinishBlock(s) => FinishBlockCold(c, st, s);
    case DeliverRelay(s, from) => DeliverRelayCold(c, st, s, from);
    case EnterBarrier(s) => EnterBarrierCold(c, st, s);
    case DeliverReady(s, from) => DeliverReadyCold(c, st, s, from);
    case FinishPartition(s) => FinishPartitionEndsRound(c, st, s);
    case Inject(s, txs) => InjectCold(c, st, s, txs);
    case DeliverFromSup(s) => DeliverFromSupCold(c, st, s);
    case StartBlock(s, size) => StartBlockCold(c, st, s, size);
    case DeliverParcel(s, from) => DeliverParcelCold(c, st, s, from);
    case StartPartition(s, received, states) => StartPartitionCold(c, st, s, received, states);
    case ReplicaApply(s, node) => ReplicaApplyCold(c, st, s, node);
    case PassBarrier(s) => PassBarrierCold(c, st, s);
    case StartMigration(m) => StartMigrationCold(c, st, m);
    case _ =>
  }

  lemma {:induction false} ColdRunInv(c: Config, run: seq<System>, k: nat)
    requires ColdRun(c, run) && k < |run| && forall m | 0 <= m <= k :: FirstRound(run[m])
    ensures ColdInv(c, run[k])
  {
    if k == 0 {
      assert forall i | 0 <= i < c.n :: ColdNode(c, run[0].nodes[i], i);
    } else {
      ColdRunInv(c, run, k - 1);
      assert ColdNextAt(c, run, k);
      ColdNextKeeps(c, run[k - 1], run[k]);
    }
  }

  lemma ColdNextKeeps(c: Config, st: System, st': System)
    requires c.n > 0 && ColdInv(c, st) && ColdNext(c, st, st') && FirstRound(st')
    ensures ColdInv(c, st')
  {
    var step :| Takes(c, st, step, st');
    ColdStep(c, st, step);
  }

  /** In a first migration, however it was started: when the leader of shard s
      passes its own test, everything shard j relayed to it has arrived if and
      only if it had heard from j before, or j never committed a block. */
  lemma BarrierTestExact(c: Config, run: seq<System>, k: nat, s: ShardId, j: ShardId)
    requires ColdRun(c, run) && k < |run| && (forall m | 0 <= m <= k :: FirstRound(run[m]))
    requires s < c.n && j < c.n && s != j
    requires s < |run[k].nodes| && GetPartitionReady(run[k].nodes[s].l, c.n)
    ensures j < |run[k].nodes| && j < |run[k].nodes[s].relays| && InBarrier(run[k].nodes[j])
    ensures run[k].nodes[s].relays[j] == []
       <==> j in run[k].nodes[s].l.seqIDMap || run[k].nodes[j].l.sequenceID == 1
  {
    ColdRunInv(c, run, k);
    var a, b := run[k].nodes[s], run[k].nodes[j];
    assert ColdNode(c, a, s) && ColdNode(c, b, j) && ColdPair(a, b, j);
    M.ReadyIsAll(c.n, a.l.partitionReady);
    if j in a.l.seqIDMap { M.QueueGap(a, b, j); }
  }

  // ------------------------------------------------ starting warm is enough

  /** Every leader has handled a relay from every other shard. */
  ghost predicate Warm(c: Config, st: System) {
    forall i, j | 0 <= i < |st.nodes| && 0 <= j < c.n && i != j :: j in st.nodes[i].l.seqIDMap
  }

  ghost predicate WarmNext(c: Config, st: System, st': System)
    requires c.n > 0
  {
    exists step :: Takes(c, st, step, st') && (step.StartMigration? ==> Warm(c, st))
  }

  ghost predicate WarmNextAt(c: Config, run: seq<System>, k: nat)
    requires c.n > 0 && 0 < k < |run|
  {
    WarmNext(c, run[k - 1], run[k])
  }

  /** A run whose migrations start warm; nothing is asked of its barriers. */
  ghost predicate WarmRun(c: Config, run: seq<System>) {
    && c.n > 0 && c.r > 0 && run != [] && run[0] == Init(c)
    && forall k | 0 < k < |run| :: WarmNextAt(c, run, k)
  }

  /** A leader never forgets whom it has heard from. */
  lemma WarmStays(c: Config, st: System, step: Step)
    requires c.n > 0 && |st.nodes| == c.n && Enabled(c, st, step) && Warm(c, st)
    ensures Warm(c, Apply(c, st, step))
  {
    var st' := Apply(c, st, step);
    forall i, j | 0 <= i < |st'.nodes| && 0 <= j < c.n && i != j ensures j in st'.nodes[i].l.seqIDMap {
      assert j in st.nodes[i].l.seqIDMap;
      KeepsHeard(c, st, step, i, j);
    }
  }

  lemma KeepsHeard(c: Config, st: System, step: Step, i: nat, j: ShardId)
    requires c.n > 0 && |st.nodes| == c.n && Enabled(c, st, step)
    requires i < c.n && j in st.nodes[i].l.seqIDMap
    ensures i < |Apply(c, st, step).nodes| && j in Apply(c, st, step).nodes[i].l.seqIDMap
  {}

  lemma WarmStep(c: Config, st: System, step: Step)
    requires c.n > 0 && Inv(c, st) && (Migrating(st.sup) ==> Warm(c, st)) && Enabled(c, st, step)
    requires step.StartMigration? ==> Warm(c, st)
    ensures Migrating(Apply(c, st, step).sup) ==> Warm(c, Apply(c, st, step))
    ensures step.PassBarrier? ==> Heard(c, st, step.s)
  {
    if Migrating(st.sup) || step.StartMigration? { WarmStays(c, st, step); }
    if step.PassBarrier? {
      assert NodeInv(c, st.sup, st.nodes[step.s], step.s);
      assert Warm(c, st);
    }
  }

  /** Migrations that start warm pass their barriers only with everybody heard: the
      theorems about runs hold of them. */
  lemma WarmStartIsEnough(c: Config, run: seq<System>)
    requires WarmRun(c, run)
    ensures Run(c, run)
  {
    forall k | 0 < k < |run| ensures NextAt(c, run, k) {
      WarmRunInv(c, run, k);
    }
  }

  lemma {:induction false} WarmRunInv(c: Config, run: seq<System>, k: nat)
    requires WarmRun(c, run) && k < |run|
    ensures Inv(c, run[k]) && (Migrating(run[k].sup) ==> Warm(c, run[k]))
    ensures k > 0 ==> NextAt(c, run, k)
  {
    if k == 0 {
      M.InitHolds(c);
    } else {
      WarmRunInv(c, run, k - 1);
      assert WarmNextAt(c, run, k);
      WarmNextKeeps(c, run[k - 1], run[k]);
    }
  }

  lemma WarmNextKeeps(c: Config, st: System, st': System)
    requires c.n > 0 && Inv(c, st) && (Migrating(st.sup) ==> Warm(c, st)) && WarmNext(c, st, st')
    ensures Next(c, st, st') && Inv(c, st') && (Migrating(st'.sup) ==> Warm(c, st'))
  {
    var step :| Takes(c, st, step, st') && (step.StartMigration? ==> Warm(c, st));
    WarmStep(c, st, step);
    M.NextKeeps(c, st, st');
  }
}
