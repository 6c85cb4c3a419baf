/** No migration gets stuck unless a shard's last sequence number went to a partition
    request: in every other reachable state of a migration some step can be taken. */
module NoDeadlock {
  import opened Collections
  import opened Ledger
  import opened Leaders
  import opened Sharding
  import opened Invariant
  import opened ShardingTheorems
  import opened Progress
  import I = IdleShard
  import M = MigrationPreservation
  import P = Preservation

  /** A step of the migration itself: nothing is sent in and no block is started. */
  predicate Drives(step: Step) {
    !step.Inject? && !step.StartBlock? && !step.DeliverInfo? && !step.StartMigration?
  }

  ghost predicate Drivable(c: Config, st: System, step: Step)
    requires c.n > 0 && |st.nodes| == c.n
  {
    Drives(step) && Enabled(c, st, step) && (step.PassBarrier? ==> Heard(c, st, step.s))
  }

  ghost predicate CanMove(c: Config, st: System)
    requires c.n > 0 && |st.nodes| == c.n
  {
    exists step :: Drivable(c, st, step)
  }

  // ------------------------------------------------ whom a leader has heard from

  ghost predicate KeysKnown(c: Config, st: System) {
    |st.nodes| == c.n
    && forall i | 0 <= i < c.n :: forall j | j in st.nodes[i].l.seqIDMap :: j < c.n && j != i
  }

  lemma StepKeys(c: Config, st: System, step: Step)
    requires Inv(c, st) && KeysKnown(c, st) && Enabled(c, st, step)
    ensures KeysKnown(c, Apply(c, st, step))
  {
    var st' := Apply(c, st, step);
    if step.DeliverRelay? {
      assert NodeInv(c, st.sup, st.nodes[step.s], step.s) && KeysOk(c, st.nodes[step.s], step.s);
    }
    KeysAt(c, st, step, 0);
    forall i | 0 <= i < c.n ensures forall j | j in st'.nodes[i].l.seqIDMap :: j < c.n && j != i {
      KeysAt(c, st, step, i);
    }
  }

  /** Only a relay adds to whom a leader has heard from. */
  lemma KeysAt(c: Config, st: System, step: Step, i: ShardId)
    requires c.n > 0 && |st.nodes| == c.n && Enabled(c, st, step) && i < c.n
    ensures |Apply(c, st, step).nodes| == c.n
    ensures var m, m' := st.nodes[i].l.seqIDMap, Apply(c, st, step).nodes[i].l.seqIDMap;
            m'.Keys == if step.DeliverRelay? && step.s == i then m.Keys + {step.from} else m.Keys
  {
    if step.DeliverRelay? {
      assert Apply(c, st, step) == DoDeliverRelay(st, step.s, step.from);
    } else if step.DeliverFromSup? {
      assert Apply(c, st, step) == DoDeliverFromSup(st, step.s);
    } else if step.FinishBlock? {
      assert Apply(c, st, step) == DoFinishBlock(c, st, step.s);
    } else if step.FinishPartition? {
      assert Apply(c, st, step) == DoFinishPartition(c, st, step.s);
    } else if step.Inject? || step.DeliverReady? || step.DeliverParcel? || step.ReplicaApply? {
      I.SilentAt(c, st, step, i);
      SizeKept(c, st, step);
    } else {
      I.BroadcastAt(c, st, step, i);
      SizeKept(c, st, step);
    }
  }

  lemma SizeKept(c: Config, st: System, step: Step)
    requires c.n > 0 && |st.nodes| == c.n && Enabled(c, st, step)
    ensures |Apply(c, st, step).nodes| == c.n
  {
  }

  lemma NextKeys(c: Config, st: System, st': System)
    requires Inv(c, st) && KeysKnown(c, st) && Next(c, st, st')
    ensures KeysKnown(c, st')
  {
    var step := NextStep(c, st, st');
    StepKeys(c, st, step);
  }

  lemma {:induction false} RunKeys(c: Config, run: seq<System>, k: nat)
    requires Run(c, run) && k < |run|
    ensures KeysKnown(c, run[k])
  {
    if k > 0 {
      RunKeys(c, run, k - 1);
      M.RunInv(c, run, k - 1);
      assert NextAt(c, run, k);
      NextKeys(c, run[k - 1], run[k]);
    }
  }

  // ------------------------------------------------ deliveries

  /** Nothing is on its way to a node and its thread waits for something. */
  ghost predicate StillNode(nd: Node) {
    && nd.fromSup == [] && nd.readies == map[] && nd.parcelsIn == map[]
    && (forall j | 0 <= j < |nd.relays| :: nd.relays[j] == [])
    && !nd.l.stage.BlockPending? && !(nd.l.stage.Idle? && nd.l.partitionOn)
  }

  lemma MovesUnlessStill(c: Config, st: System, i: ShardId)
    requires c.n > 0 && |st.nodes| == c.n && i < c.n && !StillNode(st.nodes[i])
    ensures CanMove(c, st)
  {
    var nd := st.nodes[i];
    if nd.fromSup != [] {
      assert Drivable(c, st, DeliverFromSup(i));
    } else if nd.l.stage.BlockPending? {
      assert Drivable(c, st, FinishBlock(i));
    } else if nd.l.stage.Idle? && nd.l.partitionOn {
      assert Drivable(c, st, EnterBarrier(i));
    } else if j :| 0 <= j < |nd.relays| && nd.relays[j] != [] {
      assert Drivable(c, st, DeliverRelay(i, j));
    } else if nd.readies != map[] {
      var j :| j in nd.readies;
      assert Drivable(c, st, DeliverReady(i, j));
    } else {
      var j :| j in nd.parcelsIn;
      assert Drivable(c, st, DeliverParcel(i, j));
    }
  }

  /** A still shard has applied the new map or is in the barrier. */
  lemma StillIsInBarrier(c: Config, st: System, i: ShardId)
    requires Inv(c, st) && Migrating(st.sup) && i < c.n && StillNode(st.nodes[i])
    ensures HasApplied(st.sup, st.nodes[i]) || InBarrier(st.nodes[i])
  {
    var nd := st.nodes[i];
    assert NodeInv(c, st.sup, nd, i);
    assert RoundOk(st.sup, nd) && SupQueueOk(c, st.sup, nd, i);
  }

  // ------------------------------------------------ the barrier

  /** A waiting leader that has everything under way to it counts every shard as ready. */
  lemma EverybodyReady(c: Config, st: System, s: ShardId)
    requires Inv(c, st) && AllReadySent(c, st) && Migrating(st.sup) && s < c.n && st.nodes[s].l.stage.Waiting?
    requires forall i | 0 <= i < c.n :: StillNode(st.nodes[i])
    ensures forall j | 0 <= j < c.n :: j in st.nodes[s].l.partitionReady && InBarrier(st.nodes[j])
    ensures |st.nodes[s].l.partitionReady| == c.n
  {
    forall j | 0 <= j < c.n ensures j in st.nodes[s].l.partitionReady && InBarrier(st.nodes[j]) {
      ReadyHere(c, st, s, j);
    }
    ReadyKeys(c, st, s);
    AllReadySize(c.n, st.nodes[s].l.partitionReady);
  }

  lemma ReadyKeys(c: Config, st: System, s: ShardId)
    requires Inv(c, st) && s < c.n
    ensures forall j | j in st.nodes[s].l.partitionReady :: j < c.n
  {
    assert NodeInv(c, st.sup, st.nodes[s], s) && KeysOk(c, st.nodes[s], s);
  }

  lemma AllReadySize(n: nat, ready: set<ShardId>)
    requires (forall j | 0 <= j < n :: j in ready) && forall j | j in ready :: j < n
    ensures |ready| == n
  {
    assert ready == P.Shards(n);
  }

  lemma ReadyHere(c: Config, st: System, s: ShardId, j: ShardId)
    requires Inv(c, st) && AllReadySent(c, st) && Migrating(st.sup) && s < c.n && st.nodes[s].l.stage.Waiting?
    requires j < c.n && StillNode(st.nodes[s]) && StillNode(st.nodes[j])
    ensures j in st.nodes[s].l.partitionReady && InBarrier(st.nodes[j])
  {
    var a, b := st.nodes[s], st.nodes[j];
    assert NodeInv(c, st.sup, a, s) && RoundOk(st.sup, a) && KeysOk(c, a, s);
    if j != s {
      assert PairInv(c, st.sup, b, a, j, s) && BarrierOk(st.sup, b, a, s);
      StillIsInBarrier(c, st, j);
      assert ReadySent(st.sup, a, b, j);
    }
  }

  /** With everything handled, a leader whose test on every shard is right passes. */
  lemma BarrierPasses(c: Config, st: System, s: ShardId)
    requires Inv(c, st) && AllReadySent(c, st) && KeysKnown(c, st) && Migrating(st.sup)
    requires s < c.n && st.nodes[s].l.stage.Waiting? && forall i | 0 <= i < c.n :: StillNode(st.nodes[i])
    requires forall j | 0 <= j < c.n && j != s && j in st.nodes[s].l.seqIDMap :: I.TestOn(st.nodes[s].l, j)
    ensures CanMove(c, st)
  {
    var a := st.nodes[s];
    EverybodyReady(c, st, s);
    assert NodeInv(c, st.sup, a, s) && RoundOk(st.sup, a);
    forall j | j in a.l.seqIDMap ensures j in a.l.readySeq && a.l.readySeq[j] == a.l.seqIDMap[j] + 1 {
      assert I.TestOn(a.l, j);
    }
    assert GetPartitionReady(a.l, c.n);
    HeardAll(c, st, s);
    assert Drivable(c, st, PassBarrier(s));
  }

  lemma HeardAll(c: Config, st: System, s: ShardId)
    requires Inv(c, st) && s < c.n && StillNode(st.nodes[s])
    ensures Heard(c, st, s)
  {
    forall j | 0 <= j < c.n && j != s ensures HeardFrom(st.nodes[s], st.nodes[j], j) {
      assert PairInv(c, st.sup, st.nodes[s], st.nodes[j], s, j);
    }
  }

  // ------------------------------------------------ collecting

  lemma MergeExists(ps: map<ShardId, Parcel>) returns (states: Trie)
    ensures IsMerge(states, ps)
  {
    var keys := set j, a | j in ps && a in ps[j].states :: a;
    states := map a | a in keys :: Pick(ps, a);
  }

  ghost function Pick(ps: map<ShardId, Parcel>, a: Addr): nat
    requires exists j :: j in ps && a in ps[j].states
  {
    var j :| j in ps && a in ps[j].states;
    ps[j].states[a]
  }

  /** When nobody waits any more a collecting leader has every parcel. */
  lemma CollectorMoves(c: Config, st: System, s: ShardId)
    requires Inv(c, st) && AllComplete(c, st) && Migrating(st.sup) && s < c.n && st.nodes[s].l.stage.Collecting?
    requires forall i | 0 <= i < c.n :: StillNode(st.nodes[i]) && IsPast(st.sup, st.nodes[i])
    ensures CanMove(c, st)
  {
    var nd := st.nodes[s];
    HasEveryParcel(c, st, s);
    assert NodeInv(c, st.sup, nd, s) && RoundOk(st.sup, nd) && Complete(c, nd);
    assert SupInv(c, st);
    var states := MergeExists(nd.l.parcels);
    assert Drivable(c, st, StartPartition(s, ParcelTxs(nd.l.parcels, c.n), states));
  }

  lemma HasEveryParcel(c: Config, st: System, s: ShardId)
    requires Inv(c, st) && Migrating(st.sup) && s < c.n && st.nodes[s].l.stage.Collecting? && StillNode(st.nodes[s])
    requires forall i | 0 <= i < c.n :: IsPast(st.sup, st.nodes[i])
    ensures |st.nodes[s].l.parcels| + 1 == c.n
  {
    var nd := st.nodes[s];
    assert NodeInv(c, st.sup, nd, s) && RoundOk(st.sup, nd) && KeysOk(c, nd, s);
    forall j | 0 <= j < c.n && j != s ensures j in nd.l.parcels {
      assert PairInv(c, st.sup, nd, st.nodes[j], s, j) && TransferOk(c, st.sup, nd, st.nodes[j], s, j);
    }
    assert nd.l.parcels.Keys == P.Shards(c.n) - {s};
    assert |nd.l.parcels| == |nd.l.parcels.Keys|;
  }

  // ------------------------------------------------ the end of a migration

  /** Every replica of shard s has applied the request. */
  ghost predicate CaughtUp(st: System, s: nat)
    requires s < |st.nodes|
  {
    forall k | 0 <= k < |st.nodes[s].applied| :: st.nodes[s].applied[k] == st.sup.completed + 1
  }

  /** All leaders have applied: a replica moves, or an acknowledgement arrives, or the
      supervisor closes the migration. */
  lemma EndMoves(c: Config, st: System)
    requires Inv(c, st) && AllAckSent(c, st) && Migrating(st.sup)
    requires forall i | 0 <= i < c.n :: HasApplied(st.sup, st.nodes[i])
    ensures CanMove(c, st)
  {
    if st.sup.acksIn != {} {
      AckMoves(c, st);
    } else if s :| 0 <= s < c.n && !CaughtUp(st, s) {
      ReplicaMoves(c, st, s);
    } else {
      EverybodyAcked(c, st);
      CloseMoves(c, st);
    }
  }

  lemma ReplicaMoves(c: Config, st: System, s: ShardId)
    requires Inv(c, st) && Migrating(st.sup) && s < c.n && HasApplied(st.sup, st.nodes[s]) && !CaughtUp(st, s)
    ensures CanMove(c, st)
  {
    assert NodeInv(c, st.sup, st.nodes[s], s) && ReplicasOk(c, st.sup, st.nodes[s]);
    var k :| 0 <= k < |st.nodes[s].applied| && st.nodes[s].applied[k] != st.sup.completed + 1;
    assert Drivable(c, st, ReplicaApply(s, k));
  }

  lemma AckedAt(c: Config, st: System, s: nat, k: nat)
    requires Inv(c, st) && AllAckSent(c, st) && Migrating(st.sup) && st.sup.acksIn == {}
    requires s < c.n && k < c.r && CaughtUp(st, s)
    ensures (s, k) in st.sup.acks
  {
    assert NodeInv(c, st.sup, st.nodes[s], s) && ReplicasOk(c, st.sup, st.nodes[s]);
    assert AckSent(st, s, k);
  }

  lemma AckInRange(c: Config, st: System, p: (nat, nat))
    requires SupInv(c, st) && Migrating(st.sup) && p in st.sup.acks
    ensures p.0 < c.n && p.1 < c.r
  {
    assert AckOk(c, st, p.0, p.1);
  }

  lemma EverybodyAcked(c: Config, st: System)
    requires Inv(c, st) && AllAckSent(c, st) && Migrating(st.sup) && st.sup.acksIn == {}
    requires forall s | 0 <= s < c.n :: CaughtUp(st, s)
    ensures |st.sup.acks| == c.n * c.r
  {
    forall p: (nat, nat) ensures p in st.sup.acks <==> p in M.Replicas(c.n, c.r) {
      if p in st.sup.acks { AckInRange(c, st, p); }
      if p in M.Replicas(c.n, c.r) { AckedAt(c, st, p.0, p.1); }
    }
    FullSize(c.n, c.r, st.sup.acks);
  }

  lemma FullSize(n: nat, r: nat, acks: set<(nat, nat)>)
    requires forall p: (nat, nat) :: p in acks <==> p in M.Replicas(n, r)
    ensures |acks| == n * r
  {
    assert acks == M.Replicas(n, r);
  }

  lemma CloseMoves(c: Config, st: System)
    requires c.n > 0 && |st.nodes| == c.n && Migrating(st.sup) && |st.sup.acks| == c.n * c.r
    ensures CanMove(c, st)
  {
    assert Drivable(c, st, FinishMigration);
  }

  lemma AckMoves(c: Config, st: System)
    requires c.n > 0 && |st.nodes| == c.n && st.sup.acksIn != {}
    ensures CanMove(c, st)
  {
    var ack :| ack in st.sup.acksIn;
    assert Drivable(c, st, DeliverAck(ack));
  }

  // ------------------------------------------------ the theorem

  /** With nothing on its way anywhere. */
  lemma StillMoves(c: Config, st: System)
    requires Inv(c, st) && AllSent(c, st) && Migrating(st.sup)
    requires forall i | 0 <= i < c.n :: StillNode(st.nodes[i]) && !st.nodes[i].l.stage.Waiting?
    ensures CanMove(c, st)
  {
    forall i | 0 <= i < c.n ensures IsPast(st.sup, st.nodes[i]) { StillIsInBarrier(c, st, i); }
    if s :| 0 <= s < c.n && st.nodes[s].l.stage.PartitionPending? {
      PendingMoves(c, st, s);
    } else if s :| 0 <= s < c.n && st.nodes[s].l.stage.Collecting? {
      CollectorMoves(c, st, s);
    } else {
      EndMoves(c, st);
    }
  }

  lemma PendingMoves(c: Config, st: System, s: ShardId)
    requires Inv(c, st) && s < c.n && st.nodes[s].l.stage.PartitionPending?
    ensures CanMove(c, st)
  {
    assert NodeInv(c, st.sup, st.nodes[s], s) && ReplicasOk(c, st.sup, st.nodes[s]);
    assert Drivable(c, st, FinishPartition(s));
  }

  /** No waiting leader has heard from a shard whose last sequence number went to a
      partition request. */
  ghost predicate Unblocked(c: Config, run: seq<System>, m: nat)
    requires m < |run| && |run[m].nodes| == c.n
  {
    forall s, j | 0 <= s < c.n && 0 <= j < c.n && s != j && run[m].nodes[s].l.stage.Waiting?
               && j in run[m].nodes[s].l.seqIDMap :: I.LastTakenByBlock(run, m, j)
  }

  /** In every run: a migration under way in which no leader is blocked by an idle shard
      can be driven on, by a step of its own. */
  lemma MigrationNeverStuck(c: Config, run: seq<System>, m: nat)
    requires Run(c, run) && m < |run| && Migrating(run[m].sup) && |run[m].nodes| == c.n && Unblocked(c, run, m)
    ensures CanMove(c, run[m])
  {
    M.RunInv(c, run, m);
    RunSent(c, run, m);
    var st := run[m];
    if i :| 0 <= i < c.n && !StillNode(st.nodes[i]) {
      MovesUnlessStill(c, st, i);
    } else if s :| 0 <= s < c.n && st.nodes[s].l.stage.Waiting? {
      WaiterMoves(c, run, m, s);
    } else {
      StillMoves(c, st);
    }
  }

  lemma WaiterMoves(c: Config, run: seq<System>, m: nat, s: ShardId)
    requires Run(c, run) && m < |run| && Migrating(run[m].sup) && |run[m].nodes| == c.n && Unblocked(c, run, m)
    requires s < c.n && run[m].nodes[s].l.stage.Waiting?
    requires forall i | 0 <= i < c.n :: StillNode(run[m].nodes[i])
    ensures CanMove(c, run[m])
  {
    M.RunInv(c, run, m);
    RunSent(c, run, m);
    RunKeys(c, run, m);
    EverybodyReady(c, run[m], s);
    forall j | 0 <= j < c.n && j != s && j in run[m].nodes[s].l.seqIDMap ensures I.TestOn(run[m].nodes[s].l, j) {
      TestIsRight(c, run, m, s, j);
    }
    BarrierPasses(c, run[m], s);
  }

  lemma TestIsRight(c: Config, run: seq<System>, m: nat, s: ShardId, j: ShardId)
    requires Run(c, run) && m < |run| && |run[m].nodes| == c.n && s < c.n && j < c.n && s != j
    requires run[m].nodes[s].l.stage.Waiting? && StillNode(run[m].nodes[s]) && I.LastTakenByBlock(run, m, j)
    requires j in run[m].nodes[s].l.partitionReady && j in run[m].nodes[s].l.seqIDMap
    ensures I.TestOn(run[m].nodes[s].l, j)
  {
    M.RunInv(c, run, m);
    I.InvSeq(c, run[m], s, j);
    I.TestHoldsIff(c, run, m, s, j);
  }

  // ------------------------------------------------ the first migration

  lemma RoundGrows(c: Config, st: System, step: Step, j: ShardId)
    requires Inv(c, st) && Enabled(c, st, step) && j < c.n
    ensures |Apply(c, st, step).nodes| == c.n && st.nodes[j].l.round <= Apply(c, st, step).nodes[j].l.round
  {
    SizeKept(c, st, step);
    if step.FinishPartition? {
      I.PendingRound(c, st, step.s);
      I.PartitionAt(c, st, step.s, j);
    } else {
      RoundKept(c, st, step, j);
    }
  }

  lemma RoundKept(c: Config, st: System, step: Step, j: ShardId)
    requires c.n > 0 && |st.nodes| == c.n && Enabled(c, st, step) && j < c.n && !step.FinishPartition?
    ensures |Apply(c, st, step).nodes| == c.n && Apply(c, st, step).nodes[j].l.round == st.nodes[j].l.round
  {
    match step
    case Inject(s, txs) => assert Apply(c, st, step) == DoInject(st, s, txs);
    case DeliverFromSup(s) => assert Apply(c, st, step) == DoDeliverFromSup(st, s);
    case FinishBlock(s) => assert Apply(c, st, step) == DoFinishBlock(c, st, s);
    case DeliverRelay(s, from) => assert Apply(c, st, step) == DoDeliverRelay(st, s, from);
    case DeliverInfo(k) => assert Apply(c, st, step) == DoDeliverInfo(st, k);
    case StartMigration(m) => assert Apply(c, st, step) == DoStartMigration(c, st, m);
    case EnterBarrier(s) => assert Apply(c, st, step) == DoEnterBarrier(c, st, s);
    case DeliverReady(s, from) => assert Apply(c, st, step) == DoDeliverReady(st, s, from);
    case PassBarrier(s) => assert Apply(c, st, step) == DoPassBarrier(c, st, s);
    case DeliverParcel(s, from) => assert Apply(c, st, step) == DoDeliverParcel(c, st, s, from);
    case ReplicaApply(s, node) => assert Apply(c, st, step) == DoReplicaApply(st, s, node);
    case _ =>
  }

  lemma RunRound(c: Config, run: seq<System>, m: nat, j: ShardId)
    requires Run(c, run) && 0 < m < |run| && j < c.n
    ensures |run[m - 1].nodes| == |run[m].nodes| == c.n
    ensures run[m - 1].nodes[j].l.round <= run[m].nodes[j].l.round
  {
    var step := RunStep(c, run, m);
    RoundGrows(c, run[m - 1], step, j);
  }

  /** Before a shard's first partition request every sequence number went to a block. */
  lemma {:induction false} FirstRoundBlocks(c: Config, run: seq<System>, m: nat, j: ShardId)
    requires Run(c, run) && m < |run| && |run[m].nodes| == c.n && j < c.n
    requires run[m].nodes[j].l.round == 0 && run[m].nodes[j].l.sequenceID > 1
    ensures I.LastTakenByBlock(run, m, j)
  {
    if m > 0 {
      RunRound(c, run, m, j);
      if run[m].nodes[j].l.sequenceID == run[m - 1].nodes[j].l.sequenceID { FirstRoundBlocks(c, run, m - 1, j); }
    }
  }

  /** The first migration of any run can always be driven on. */
  lemma FirstMigrationNeverStuck(c: Config, run: seq<System>, m: nat)
    requires Run(c, run) && m < |run| && Migrating(run[m].sup) && run[m].sup.completed == 0
    ensures |run[m].nodes| == c.n && CanMove(c, run[m])
  {
    M.RunInv(c, run, m);
    var st := run[m];
    forall s, j | 0 <= s < c.n && 0 <= j < c.n && s != j && st.nodes[s].l.stage.Waiting?
               && j in st.nodes[s].l.seqIDMap
      ensures I.LastTakenByBlock(run, m, j)
    {
      FirstRoundUnblocked(c, run, m, s, j);
    }
    MigrationNeverStuck(c, run, m);
  }

  lemma FirstRoundUnblocked(c: Config, run: seq<System>, m: nat, s: ShardId, j: ShardId)
    requires Run(c, run) && m < |run| && |run[m].nodes| == c.n && run[m].sup.completed == 0
    requires s < c.n && j < c.n && s != j
    requires run[m].nodes[s].l.stage.Waiting? && j in run[m].nodes[s].l.seqIDMap
    ensures I.LastTakenByBlock(run, m, j)
  {
    M.RunInv(c, run, m);
    NotYetApplied(c, run[m], s, j);
    I.RunStands(c, run, m, s, j);
    if run[m].nodes[j].l.sequenceID > 1 { FirstRoundBlocks(c, run, m, j); }
  }

  /** While one leader waits no other has applied. */
  lemma NotYetApplied(c: Config, st: System, s: ShardId, j: ShardId)
    requires Inv(c, st) && s < c.n && j < c.n && s != j && st.nodes[s].l.stage.Waiting?
    ensures st.nodes[j].l.round == st.sup.completed
  {
    assert NodeInv(c, st.sup, st.nodes[s], s) && NodeInv(c, st.sup, st.nodes[j], j);
    assert RoundOk(st.sup, st.nodes[s]) && RoundOk(st.sup, st.nodes[j]);
    assert PairInv(c, st.sup, st.nodes[j], st.nodes[s], j, s) && BarrierOk(st.sup, st.nodes[j], st.nodes[s], s);
  }
}
