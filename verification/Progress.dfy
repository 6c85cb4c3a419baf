/** That a migration does not get stuck: every message the barrier, the collection and the
    supervisor wait for has been sent, so in every reachable state of a migration whose
    barrier can pass some step can be taken (accountTransfer_module.go,
    pbftInside_moduleCLPA.go, supervisor/committee/committee_overhead.go). */
module Progress {
  import opened Collections
  import opened Ledger
  import opened Leaders
  import opened Sharding
  import opened Invariant
  import opened Conservation
  import opened ShardingTheorems
  import I = IdleShard
  import M = MigrationPreservation
  import P = Preservation

  // ------------------------------------------------ what has been sent

  /** A shard in the barrier has announced it to every leader that has not applied. */
  ghost predicate ReadySent(sup: Supervisor, a: Node, b: Node, j: ShardId) {
    Migrating(sup) && InBarrier(b) && !HasApplied(sup, a) ==> j in a.readies || j in a.l.partitionReady
  }

  /** A leader that has a parcel from every other shard knows it. */
  ghost predicate Complete(c: Config, nd: Node) {
    c.n >= 2 && |nd.l.parcels| + 1 == c.n ==> nd.l.collectOver
  }

  /** A replica that has applied the request has acknowledged it. */
  ghost predicate AckSent(st: System, s: nat, k: nat)
    requires s < |st.nodes| && k < |st.nodes[s].applied|
  {
    Migrating(st.sup) && st.nodes[s].applied[k] == st.sup.completed + 1
    ==> (s, k) in st.sup.acks || Ack(s, k, st.sup.completed + 1) in st.sup.acksIn
  }

  ghost predicate AllReadySent(c: Config, st: System) {
    |st.nodes| == c.n
    && forall i, j | 0 <= i < c.n && 0 <= j < c.n && i != j :: ReadySent(st.sup, st.nodes[i], st.nodes[j], j)
  }

  ghost predicate AllComplete(c: Config, st: System) {
    |st.nodes| == c.n && forall i | 0 <= i < c.n :: Complete(c, st.nodes[i])
  }

  ghost predicate AllAckSent(c: Config, st: System) {
    |st.nodes| == c.n
    && forall s | 0 <= s < c.n :: forall k | 0 <= k < |st.nodes[s].applied| :: AckSent(st, s, k)
  }

  // ------------------------------------------------ readiness

  /** Nothing ReadySent reads has changed at a node. */
  ghost predicate SameReady(sup: Supervisor, sup': Supervisor, a: Node, a': Node) {
    && a'.readies == a.readies && a'.l.partitionReady == a.l.partitionReady
    && (InBarrier(a') ==> InBarrier(a)) && (HasApplied(sup, a) ==> HasApplied(sup', a'))
  }

  lemma ReadyFrame(c: Config, st: System, st': System)
    requires AllReadySent(c, st) && |st'.nodes| == c.n && (Migrating(st'.sup) ==> Migrating(st.sup))
    requires forall i | 0 <= i < c.n :: SameReady(st.sup, st'.sup, st.nodes[i], st'.nodes[i])
    ensures AllReadySent(c, st')
  {
    forall i, j | 0 <= i < c.n && 0 <= j < c.n && i != j ensures ReadySent(st'.sup, st'.nodes[i], st'.nodes[j], j) {
      assert ReadySent(st.sup, st.nodes[i], st.nodes[j], j);
      assert SameReady(st.sup, st'.sup, st.nodes[i], st'.nodes[i]);
      assert SameReady(st.sup, st'.sup, st.nodes[j], st'.nodes[j]);
    }
  }

  lemma QuietReadyAt(c: Config, st: System, step: Step, i: ShardId)
    requires c.n > 0 && |st.nodes| == c.n && Enabled(c, st, step) && i < c.n
    requires Quiet(step)
    ensures QuietAt(c, st, Apply(c, st, step), i)
  {
    match step
    case Inject(s, txs) => InjectQuiet(c, st, s, txs, i);
    case DeliverFromSup(s) => FromSupQuiet(c, st, s, i);
    case StartBlock(s, size) =>
    case FinishBlock(s) => FinishBlockQuiet(c, st, s, i);
    case DeliverRelay(s, from) => DeliverRelayQuiet(c, st, s, from, i);
    case DeliverInfo(k) => assert Apply(c, st, step) == DoDeliverInfo(st, k);
    case DeliverParcel(s, from) => DeliverParcelQuiet(c, st, s, from, i);
    case StartPartition(s, received, states) =>
    case ReplicaApply(s, node) => ReplicaApplyQuiet(c, st, s, node, i);
    case DeliverAck(ack) =>
  }

  predicate Quiet(step: Step) {
    || step.Inject? || step.DeliverFromSup? || step.StartBlock? || step.FinishBlock? || step.DeliverRelay?
    || step.DeliverInfo? || step.DeliverParcel? || step.StartPartition? || step.ReplicaApply? || step.DeliverAck?
  }

  ghost predicate QuietAt(c: Config, st: System, st': System, i: ShardId)
    requires i < c.n == |st.nodes|
  {
    && |st'.nodes| == c.n && SameReady(st.sup, st'.sup, st.nodes[i], st'.nodes[i])
    && st'.sup.current == st.sup.current && st'.sup.completed == st.sup.completed
  }

  lemma InjectQuiet(c: Config, st: System, s: ShardId, txs: seq<Tx>, i: ShardId)
    requires |st.nodes| == c.n && s < c.n && i < c.n
    ensures QuietAt(c, st, DoInject(st, s, txs), i)
  {}

  lemma FromSupQuiet(c: Config, st: System, s: ShardId, i: ShardId)
    requires |st.nodes| == c.n && s < c.n && i < c.n && st.nodes[s].fromSup != []
    ensures QuietAt(c, st, DoDeliverFromSup(st, s), i)
  {}

  lemma FinishBlockQuiet(c: Config, st: System, s: ShardId, i: ShardId)
    requires |st.nodes| == c.n && s < c.n && i < c.n && st.nodes[s].l.stage.BlockPending?
    ensures QuietAt(c, st, DoFinishBlock(c, st, s), i)
  {}

  lemma DeliverRelayQuiet(c: Config, st: System, s: ShardId, from: ShardId, i: ShardId)
    requires |st.nodes| == c.n && s < c.n && i < c.n && from < |st.nodes[s].relays| && st.nodes[s].relays[from] != []
    ensures QuietAt(c, st, DoDeliverRelay(st, s, from), i)
  {}

  lemma DeliverParcelQuiet(c: Config, st: System, s: ShardId, from: ShardId, i: ShardId)
    requires |st.nodes| == c.n && s < c.n && i < c.n && from in st.nodes[s].parcelsIn
    ensures QuietAt(c, st, DoDeliverParcel(c, st, s, from), i)
  {}

  lemma ReplicaApplyQuiet(c: Config, st: System, s: ShardId, node: nat, i: ShardId)
    requires |st.nodes| == c.n && s < c.n && i < c.n && node < |st.nodes[s].applied|
    ensures QuietAt(c, st, DoReplicaApply(st, s, node), i)
  {}

  lemma EnterBarrierReady(c: Config, st: System, s: ShardId)
    requires AllReadySent(c, st) && c.n > 0 && Enabled(c, st, EnterBarrier(s))
    ensures AllReadySent(c, DoEnterBarrier(c, st, s))
  {
    var st' := DoEnterBarrier(c, st, s);
    forall i, j | 0 <= i < c.n && 0 <= j < c.n && i != j ensures ReadySent(st'.sup, st'.nodes[i], st'.nodes[j], j) {
      assert ReadySent(st.sup, st.nodes[i], st.nodes[j], j);
    }
  }

  lemma DeliverReadyReady(c: Config, st: System, s: ShardId, from: ShardId)
    requires AllReadySent(c, st) && c.n > 0 && Enabled(c, st, DeliverReady(s, from))
    ensures AllReadySent(c, DoDeliverReady(st, s, from))
  {
    var st' := DoDeliverReady(st, s, from);
    forall i, j | 0 <= i < c.n && 0 <= j < c.n && i != j ensures ReadySent(st'.sup, st'.nodes[i], st'.nodes[j], j) {
      assert ReadySent(st.sup, st.nodes[i], st.nodes[j], j);
    }
  }

  lemma PassBarrierReady(c: Config, st: System, s: ShardId)
    requires AllReadySent(c, st) && c.n > 0 && Enabled(c, st, PassBarrier(s))
    ensures AllReadySent(c, DoPassBarrier(c, st, s))
  {
    var st' := DoPassBarrier(c, st, s);
    forall i | 0 <= i < c.n ensures SameReady(st.sup, st'.sup, st.nodes[i], st'.nodes[i]) {}
    ReadyFrame(c, st, st');
  }

  lemma FinishPartitionReady(c: Config, st: System, s: ShardId)
    requires AllReadySent(c, st) && Inv(c, st) && Enabled(c, st, FinishPartition(s))
    ensures AllReadySent(c, DoFinishPartition(c, st, s))
  {
    var st' := DoFinishPartition(c, st, s);
    I.PendingRound(c, st, s);
    assert NodeInv(c, st.sup, st.nodes[s], s) && RoundOk(st.sup, st.nodes[s]);
    assert HasApplied(st'.sup, st'.nodes[s]);
    forall i, j | 0 <= i < c.n && 0 <= j < c.n && i != j ensures ReadySent(st'.sup, st'.nodes[i], st'.nodes[j], j) {
      assert ReadySent(st.sup, st.nodes[i], st.nodes[j], j);
    }
  }

  /** Nobody is in a barrier when a migration starts. */
  lemma StartMigrationReady(c: Config, st: System, m: PartitionMap)
    requires Inv(c, st) && Enabled(c, st, StartMigration(m))
    ensures AllReadySent(c, DoStartMigration(c, st, m))
  {
    var st' := DoStartMigration(c, st, m);
    forall j | 0 <= j < c.n ensures !InBarrier(st'.nodes[j]) {
      assert NodeInv(c, st.sup, st.nodes[j], j) && RoundOk(st.sup, st.nodes[j]);
    }
  }

  lemma StepReady(c: Config, st: System, step: Step)
    requires Inv(c, st) && AllReadySent(c, st) && Enabled(c, st, step)
    ensures AllReadySent(c, Apply(c, st, step))
  {
    match step
    case StartMigration(m) => StartMigrationReady(c, st, m);
    case EnterBarrier(s) => EnterBarrierReady(c, st, s);
    case DeliverReady(s, from) => DeliverReadyReady(c, st, s, from);
    case PassBarrier(s) => PassBarrierReady(c, st, s);
    case FinishPartition(s) => FinishPartitionReady(c, st, s);
    case FinishMigration => assert !Migrating(Apply(c, st, step).sup);
    case _ => QuietReady(c, st, step);
  }

  lemma QuietReady(c: Config, st: System, step: Step)
    requires c.n > 0 && AllReadySent(c, st) && Enabled(c, st, step) && Quiet(step)
    ensures AllReadySent(c, Apply(c, st, step))
  {
    var st' := Apply(c, st, step);
    QuietReadyAt(c, st, step, 0);
    forall i | 0 <= i < c.n ensures SameReady(st.sup, st'.sup, st.nodes[i], st'.nodes[i]) {
      QuietReadyAt(c, st, step, i);
    }
    ReadyFrame(c, st, st');
  }

  // ------------------------------------------------ parcels

  /** Every step but a parcel's delivery and a partition keeps both fields. */
  ghost predicate SameParcels(a: Node, a': Node) {
    a'.l.parcels == a.l.parcels && a'.l.collectOver == a.l.collectOver
  }

  lemma OwnStepComplete(c: Config, st: System, step: Step, i: ShardId)
    requires c.n > 0 && |st.nodes| == c.n && Enabled(c, st, step) && i < c.n && Complete(c, st.nodes[i])
    requires step.Inject? || step.DeliverFromSup? || step.DeliverRelay? || step.DeliverReady? || step.DeliverParcel?
          || step.FinishPartition? || step.ReplicaApply?
    ensures |Apply(c, st, step).nodes| == c.n && Complete(c, Apply(c, st, step).nodes[i])
  {
    match step
    case Inject(s, txs) => assert Apply(c, st, step) == DoInject(st, s, txs);
    case DeliverFromSup(s) => assert Apply(c, st, step) == DoDeliverFromSup(st, s);
    case DeliverRelay(s, from) => assert Apply(c, st, step) == DoDeliverRelay(st, s, from);
    case DeliverReady(s, from) => assert Apply(c, st, step) == DoDeliverReady(st, s, from);
    case DeliverParcel(s, from) => assert Apply(c, st, step) == DoDeliverParcel(c, st, s, from);
    case FinishPartition(s) => assert Apply(c, st, step) == DoFinishPartition(c, st, s);
    case ReplicaApply(s, node) => assert Apply(c, st, step) == DoReplicaApply(st, s, node);
  }

  lemma OtherStepComplete(c: Config, st: System, step: Step, i: ShardId)
    requires c.n > 0 && |st.nodes| == c.n && Enabled(c, st, step) && i < c.n
    requires step.StartBlock? || step.FinishBlock? || step.DeliverInfo? || step.StartMigration? || step.EnterBarrier?
          || step.PassBarrier? || step.StartPartition? || step.DeliverAck? || step.FinishMigration?
    ensures |Apply(c, st, step).nodes| == c.n && SameParcels(st.nodes[i], Apply(c, st, step).nodes[i])
  {
    match step
    case FinishBlock(s) => assert Apply(c, st, step) == DoFinishBlock(c, st, s);
    case DeliverInfo(k) => assert Apply(c, st, step) == DoDeliverInfo(st, k);
    case StartMigration(m) => assert Apply(c, st, step) == DoStartMigration(c, st, m);
    case EnterBarrier(s) => assert Apply(c, st, step) == DoEnterBarrier(c, st, s);
    case PassBarrier(s) => assert Apply(c, st, step) == DoPassBarrier(c, st, s);
    case _ =>
  }

  lemma StepComplete(c: Config, st: System, step: Step)
    requires c.n > 0 && AllComplete(c, st) && Enabled(c, st, step)
    ensures AllComplete(c, Apply(c, st, step))
  {
    StepCompleteAt(c, st, step, 0);
    forall i | 0 <= i < c.n ensures Complete(c, Apply(c, st, step).nodes[i]) { StepCompleteAt(c, st, step, i); }
  }

  lemma StepCompleteAt(c: Config, st: System, step: Step, i: ShardId)
    requires c.n > 0 && |st.nodes| == c.n && Enabled(c, st, step) && i < c.n && Complete(c, st.nodes[i])
    ensures |Apply(c, st, step).nodes| == c.n && Complete(c, Apply(c, st, step).nodes[i])
  {
    if step.Inject? || step.DeliverFromSup? || step.DeliverRelay? || step.DeliverReady? || step.DeliverParcel?
       || step.FinishPartition? || step.ReplicaApply?
    {
      OwnStepComplete(c, st, step, i);
    } else {
      OtherStepComplete(c, st, step, i);
    }
  }

  // ------------------------------------------------ acknowledgements

  /** A step that changes neither progress nor acknowledgements. */
  ghost predicate SameAcks(st: System, st': System) {
    && |st'.nodes| == |st.nodes| && st'.sup.current == st.sup.current && st'.sup.completed == st.sup.completed
    && st'.sup.acks == st.sup.acks && st'.sup.acksIn == st.sup.acksIn
    && forall i | 0 <= i < |st.nodes| :: st'.nodes[i].applied == st.nodes[i].applied
  }

  lemma AcksFrame(c: Config, st: System, st': System)
    requires AllAckSent(c, st) && SameAcks(st, st')
    ensures AllAckSent(c, st')
  {
    forall s | 0 <= s < c.n ensures forall k | 0 <= k < |st'.nodes[s].applied| :: AckSent(st', s, k) {
      forall k | 0 <= k < |st'.nodes[s].applied| ensures AckSent(st', s, k) {
        assert st'.nodes[s].applied == st.nodes[s].applied && AckSent(st, s, k);
      }
    }
  }

  lemma LocalSameAcks(c: Config, st: System, step: Step)
    requires c.n > 0 && |st.nodes| == c.n && Enabled(c, st, step)
    requires step.Inject? || step.DeliverFromSup? || step.DeliverRelay? || step.DeliverReady? || step.DeliverParcel?
          || step.StartBlock? || step.StartPartition?
    ensures SameAcks(st, Apply(c, st, step))
  {
    match step
    case Inject(s, txs) => assert Apply(c, st, step) == DoInject(st, s, txs);
    case DeliverFromSup(s) => assert Apply(c, st, step) == DoDeliverFromSup(st, s);
    case DeliverRelay(s, from) => assert Apply(c, st, step) == DoDeliverRelay(st, s, from);
    case DeliverReady(s, from) => assert Apply(c, st, step) == DoDeliverReady(st, s, from);
    case DeliverParcel(s, from) => assert Apply(c, st, step) == DoDeliverParcel(c, st, s, from);
    case _ =>
  }

  lemma WideSameAcks(c: Config, st: System, step: Step)
    requires c.n > 0 && |st.nodes| == c.n && Enabled(c, st, step)
    requires step.FinishBlock? || step.DeliverInfo? || step.EnterBarrier? || step.PassBarrier?
    ensures SameAcks(st, Apply(c, st, step))
  {
    match step
    case FinishBlock(s) => assert Apply(c, st, step) == DoFinishBlock(c, st, s);
    case DeliverInfo(k) => assert Apply(c, st, step) == DoDeliverInfo(st, k);
    case EnterBarrier(s) => assert Apply(c, st, step) == DoEnterBarrier(c, st, s);
    case PassBarrier(s) => assert Apply(c, st, step) == DoPassBarrier(c, st, s);
  }

  /** One replica moves on and acknowledges. */
  lemma OneAckSent(c: Config, st: System, st': System, s: ShardId, node: nat, e: nat)
    requires AllAckSent(c, st) && s < c.n && node < |st.nodes[s].applied|
    requires |st'.nodes| == c.n && st'.sup == st.sup.(acksIn := st.sup.acksIn + {Ack(s, node, e)})
    requires forall i | 0 <= i < c.n && i != s :: st'.nodes[i].applied == st.nodes[i].applied
    requires st'.nodes[s].applied == st.nodes[s].applied[node := e]
    ensures AllAckSent(c, st')
  {
    forall i | 0 <= i < c.n ensures forall k | 0 <= k < |st'.nodes[i].applied| :: AckSent(st', i, k) {
      forall k | 0 <= k < |st'.nodes[i].applied| ensures AckSent(st', i, k) {
        if i != s || k != node { assert AckSent(st, i, k); }
      }
    }
  }

  lemma DeliverAckAcks(c: Config, st: System, ack: Ack)
    requires AllAckSent(c, st) && c.n > 0 && Enabled(c, st, DeliverAck(ack))
    ensures AllAckSent(c, Apply(c, st, DeliverAck(ack)))
  {
    var st' := Apply(c, st, DeliverAck(ack));
    forall i | 0 <= i < c.n ensures forall k | 0 <= k < |st'.nodes[i].applied| :: AckSent(st', i, k) {
      forall k | 0 <= k < |st'.nodes[i].applied| ensures AckSent(st', i, k) { assert AckSent(st, i, k); }
    }
  }

  /** Nobody is ahead when a migration starts. */
  lemma StartMigrationAcks(c: Config, st: System, m: PartitionMap)
    requires Inv(c, st) && Enabled(c, st, StartMigration(m))
    ensures AllAckSent(c, DoStartMigration(c, st, m))
  {
    var st' := DoStartMigration(c, st, m);
    forall i | 0 <= i < c.n ensures forall k | 0 <= k < |st'.nodes[i].applied| :: AckSent(st', i, k) {
      assert NodeInv(c, st.sup, st.nodes[i], i) && ReplicasOk(c, st.sup, st.nodes[i]) && RoundOk(st.sup, st.nodes[i]);
    }
  }

  lemma StepAcks(c: Config, st: System, step: Step)
    requires Inv(c, st) && AllAckSent(c, st) && Enabled(c, st, step)
    ensures AllAckSent(c, Apply(c, st, step))
  {
    match step
    case StartMigration(m) => StartMigrationAcks(c, st, m);
    case FinishMigration => assert !Migrating(Apply(c, st, step).sup);
    case DeliverAck(ack) => DeliverAckAcks(c, st, ack);
    case FinishPartition(s) => FinishPartitionAcks(c, st, s);
    case ReplicaApply(s, node) => ReplicaApplyAcks(c, st, s, node);
    case _ => QuietAcks(c, st, step);
  }

  lemma FinishPartitionAcks(c: Config, st: System, s: ShardId)
    requires AllAckSent(c, st) && c.n > 0 && Enabled(c, st, FinishPartition(s))
    ensures AllAckSent(c, DoFinishPartition(c, st, s))
  {
    OneAckSent(c, st, DoFinishPartition(c, st, s), s, 0, TransferAccounts(st.nodes[s].l, c.n).round);
  }

  lemma ReplicaApplyAcks(c: Config, st: System, s: ShardId, node: nat)
    requires AllAckSent(c, st) && c.n > 0 && Enabled(c, st, ReplicaApply(s, node))
    ensures AllAckSent(c, DoReplicaApply(st, s, node))
  {
    OneAckSent(c, st, DoReplicaApply(st, s, node), s, node, st.nodes[s].applied[node] + 1);
  }

  lemma QuietAcks(c: Config, st: System, step: Step)
    requires c.n > 0 && AllAckSent(c, st) && Enabled(c, st, step)
    requires !step.StartMigration? && !step.FinishMigration? && !step.DeliverAck? && !step.FinishPartition?
          && !step.ReplicaApply?
    ensures AllAckSent(c, Apply(c, st, step))
  {
    if step.FinishBlock? || step.DeliverInfo? || step.EnterBarrier? || step.PassBarrier? {
      WideSameAcks(c, st, step);
    } else {
      LocalSameAcks(c, st, step);
    }
    AcksFrame(c, st, Apply(c, st, step));
  }

  // ------------------------------------------------ reports

  ghost predicate Reported(sup: Supervisor, t: Tx) {
    t.id in sup.confirmed || exists k :: 0 <= k < |sup.infosIn| && t in sup.infosIn[k]
  }

  /** Every finished transaction is confirmed or its report is under way. */
  ghost predicate AllReported(sup: Supervisor) { forall t | t in sup.done :: Reported(sup, t) }

  lemma FinishBlockReported(c: Config, st: System, s: ShardId)
    requires c.n > 0 && |st.nodes| == c.n && Enabled(c, st, FinishBlock(s)) && AllReported(st.sup)
    ensures AllReported(DoFinishBlock(c, st, s).sup)
  {
    var sup, sup' := st.sup, DoFinishBlock(c, st, s).sup;
    var finals := Finals(st.nodes[s].l, c.n);
    forall t | t in sup'.done ensures Reported(sup', t) {
      if t in sup.done {
        assert Reported(sup, t);
        if t.id !in sup.confirmed {
          var k :| 0 <= k < |sup.infosIn| && t in sup.infosIn[k];
          assert sup'.infosIn[k] == sup.infosIn[k];
        }
      } else {
        assert t in finals && sup'.infosIn[|sup.infosIn|] == finals;
      }
    }
  }

  lemma DeliverInfoReported(st: System, i: nat)
    requires i < |st.sup.infosIn| && AllReported(st.sup)
    ensures AllReported(DoDeliverInfo(st, i).sup)
  {
    var sup, sup' := st.sup, DoDeliverInfo(st, i).sup;
    forall t | t in sup'.done ensures Reported(sup', t) {
      assert Reported(sup, t);
      if t.id !in sup'.confirmed {
        var k :| 0 <= k < |sup.infosIn| && t in sup.infosIn[k];
        assert k != i;
        assert sup'.infosIn[if k < i then k else k - 1] == sup.infosIn[k];
      }
    }
  }

  lemma StepReported(c: Config, st: System, step: Step)
    requires c.n > 0 && |st.nodes| == c.n && Enabled(c, st, step) && AllReported(st.sup)
    ensures AllReported(Apply(c, st, step).sup)
  {
    match step
    case FinishBlock(s) => FinishBlockReported(c, st, s);
    case DeliverInfo(k) => DeliverInfoReported(st, k);
    case _ => SameReports(c, st, step);
  }

  lemma SameReports(c: Config, st: System, step: Step)
    requires c.n > 0 && |st.nodes| == c.n && Enabled(c, st, step) && !step.FinishBlock? && !step.DeliverInfo?
    requires AllReported(st.sup)
    ensures AllReported(Apply(c, st, step).sup)
  {
    var sup, sup' := st.sup, Apply(c, st, step).sup;
    assert sup'.done == sup.done && sup'.infosIn == sup.infosIn && sup'.confirmed == sup.confirmed;
    forall t | t in sup'.done ensures Reported(sup', t) { assert Reported(sup, t); }
  }

  // ------------------------------------------------ in every run

  ghost predicate AllSent(c: Config, st: System) {
    AllReadySent(c, st) && AllComplete(c, st) && AllAckSent(c, st) && AllReported(st.sup)
  }

  lemma InitSent(c: Config)
    requires c.n > 0
    ensures AllSent(c, Init(c))
  {
  }

  lemma StepSent(c: Config, st: System, step: Step)
    requires Inv(c, st) && AllSent(c, st) && Enabled(c, st, step)
    ensures AllSent(c, Apply(c, st, step))
  {
    StepReady(c, st, step);
    StepComplete(c, st, step);
    StepAcks(c, st, step);
    StepReported(c, st, step);
  }

  lemma NextSent(c: Config, st: System, st': System)
    requires Inv(c, st) && AllSent(c, st) && Next(c, st, st')
    ensures AllSent(c, st')
  {
    var step := NextStep(c, st, st');
    StepSent(c, st, step);
  }

  lemma {:induction false} RunSent(c: Config, run: seq<System>, k: nat)
    requires Run(c, run) && k < |run|
    ensures AllSent(c, run[k])
  {
    if k == 0 {
      InitSent(c);
    } else {
      RunSent(c, run, k - 1);
      M.RunInv(c, run, k - 1);
      assert NextAt(c, run, k);
      NextSent(c, run[k - 1], run[k]);
    }
  }

  /** What is confirmed is what is finished, as soon as no report is under way: then the
      supervisor's count is complete exactly when nothing is outstanding. */
  lemma ConfirmedExactly(c: Config, run: seq<System>, k: nat)
    requires Run(c, run) && k < |run| && run[k].sup.infosIn == []
    ensures run[k].sup.confirmed == Ids(run[k].sup.done)
    ensures |run[k].sup.confirmed| == |run[k].sup.injected| <==> Outstanding(c, run[k]) == []
  {
    RunSent(c, run, k);
    AlwaysReported(c, run, k);
    var sup := run[k].sup;
    forall id: nat ensures id in sup.confirmed <==> id in Ids(sup.done) {
      if id in Ids(sup.done) {
        var t :| t in sup.done && t.id == id;
        assert Reported(sup, t);
      }
    }
    assert sup.confirmed == Ids(sup.done);
    if |sup.confirmed| == |sup.injected| {
      ConfirmedMeansDone(c, run, k);
    }
    if Outstanding(c, run[k]) == [] { AllDoneIsConfirmed(c, run, k); }
  }

  lemma AllDoneIsConfirmed(c: Config, run: seq<System>, k: nat)
    requires Run(c, run) && k < |run| && Outstanding(c, run[k]) == []
    ensures |Ids(run[k].sup.done)| == |run[k].sup.injected|
  {
    var sup := run[k].sup;
    AlwaysInjectedOk(c, run, k);
    forall id: nat ensures id in Ids(sup.done) <==> id in Ids(sup.injected) {
      ExactlyOnePlace(c, run, k, id);
      if id in Ids(sup.done) {
        var t :| t in sup.done && t.id == id;
        CountMember(sup.done, t);
      }
      if id !in Ids(sup.done) { NoneCounted(sup.done, id); }
    }
    assert Ids(sup.done) == Ids(sup.injected);
    IdsCount(sup.injected);
  }

  lemma {:induction false} NoneCounted(txs: seq<Tx>, id: nat)
    requires id !in Ids(txs)
    ensures W(Count(id), txs) == 0
  {
    WZero(Count(id), txs);
  }
}
