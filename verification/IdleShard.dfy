/** A partition request takes a sequence number but sends no relay, and
    getPartitionReady wants the last relay's number to be just below the announced one.
    So a leader's test on a shard it has heard from comes out true exactly when that
    shard's last sequence number went to a block; a shard that commits none between two
    migrations keeps the others waiting in the second
    (consensus_shard/pbft_all/accountTransfer_module.go). */
module IdleShard {
  import opened Ledger
  import opened Leaders
  import opened Sharding
  import opened Invariant
  import opened Preservation
  import opened MigrationPreservation
  import opened ShardingTheorems

  /** Nothing new from shard j at a node: its channel is left alone or its oldest relay
      is handled. */
  ghost predicate Consumes(a: Node, a': Node, j: ShardId) {
    && j < |a.relays| && j < |a'.relays|
    && ((a'.relays[j] == a.relays[j] && SameAt(a.l.seqIDMap, a'.l.seqIDMap, j))
        || (a.relays[j] != [] && a'.relays[j] == a.relays[j][1..]
            && j in a'.l.seqIDMap && a'.l.seqIDMap[j] == a.relays[j][0].senderSeq))
  }

  /** A relay with number q from shard j joins its channel, or none does. */
  ghost predicate Gets(a: Node, a': Node, j: ShardId, q: nat) {
    && j < |a.relays| && j < |a'.relays| && SameAt(a.l.seqIDMap, a'.l.seqIDMap, j)
    && |a'.relays[j]| == |a.relays[j]| + 1 && a'.relays[j][..|a.relays[j]|] == a.relays[j]
    && a'.relays[j][|a.relays[j]|].senderSeq == q
  }

  ghost predicate GetsNone(a: Node, a': Node, j: ShardId) {
    && j < |a.relays| && j < |a'.relays| && a'.relays[j] == a.relays[j] && SameAt(a.l.seqIDMap, a'.l.seqIDMap, j)
  }

  /** What a step does to shard j and, at another node, to the channel from it: nothing
      is sent, or a block takes a sequence number and sends a relay, or a partition
      request takes one and sends none. */
  ghost predicate Advances(a: Node, a': Node, b: Node, b': Node, j: ShardId) {
    || (b'.l.sequenceID == b.l.sequenceID && Consumes(a, a', j))
    || (b'.l.sequenceID == b.l.sequenceID + 1 && b'.l.round == b.l.round && Gets(a, a', j, b.l.sequenceID))
    || (b'.l.sequenceID == b.l.sequenceID + 1 && b'.l.round == b.l.round + 1 && GetsNone(a, a', j))
  }

  lemma DeliverRelayAdvances(st: System, to: ShardId, from: ShardId, s: ShardId, j: ShardId)
    requires to < |st.nodes| && from < |st.nodes[to].relays| && st.nodes[to].relays[from] != []
    requires s < |st.nodes| && j < |st.nodes| && j < |st.nodes[s].relays|
    ensures var st' := DoDeliverRelay(st, to, from); Advances(st.nodes[s], st'.nodes[s], st.nodes[j], st'.nodes[j], j)
  {}

  lemma DeliverFromSupAdvances(st: System, to: ShardId, s: ShardId, j: ShardId)
    requires to < |st.nodes| && st.nodes[to].fromSup != []
    requires s < |st.nodes| && j < |st.nodes| && j < |st.nodes[s].relays|
    ensures var st' := DoDeliverFromSup(st, to); Advances(st.nodes[s], st'.nodes[s], st.nodes[j], st'.nodes[j], j)
  {}

  lemma FinishBlockAdvances(c: Config, st: System, from: ShardId, s: ShardId, j: ShardId)
    requires |st.nodes| == c.n && from < c.n && st.nodes[from].l.stage.BlockPending? && s < c.n && j < c.n && s != j
    requires j < |st.nodes[s].relays|
    ensures var st' := DoFinishBlock(c, st, from); Advances(st.nodes[s], st'.nodes[s], st.nodes[j], st'.nodes[j], j)
  {
    var st' := DoFinishBlock(c, st, from);
    if j == from { assert Gets(st.nodes[s], st'.nodes[s], j, st.nodes[j].l.sequenceID); }
  }

  lemma FinishPartitionAdvances(c: Config, st: System, from: ShardId, s: ShardId, j: ShardId)
    requires c.n > 0 && |st.nodes| == c.n && Enabled(c, st, FinishPartition(from)) && s < c.n && j < c.n && s != j
    requires j < |st.nodes[s].relays| && st.nodes[from].l.stage.atid == st.nodes[from].l.round + 1
    ensures var st' := DoFinishPartition(c, st, from); Advances(st.nodes[s], st'.nodes[s], st.nodes[j], st'.nodes[j], j)
  {
    PartitionAt(c, st, from, s);
    PartitionAt(c, st, from, j);
  }

  /** A partition request leaves channels and what was heard alone. */
  lemma PartitionAt(c: Config, st: System, from: ShardId, k: ShardId)
    requires c.n > 0 && |st.nodes| == c.n && Enabled(c, st, FinishPartition(from)) && k < c.n
    ensures var a, a' := st.nodes[k], DoFinishPartition(c, st, from).nodes[k];
            && a'.relays == a.relays && a'.l.seqIDMap == a.l.seqIDMap
            && (k == from ==> a'.l.sequenceID == a.l.sequenceID + 1 && a'.l.round == a.l.stage.atid)
            && (k != from ==> a' == a)
  {}

  /** A partition request raises the round by one. */
  lemma PendingRound(c: Config, st: System, from: ShardId)
    requires Inv(c, st) && from < c.n && st.nodes[from].l.stage.PartitionPending?
    ensures st.nodes[from].l.stage.atid == st.nodes[from].l.round + 1
  {
    assert NodeInv(c, st.sup, st.nodes[from], from);
    assert RoundOk(st.sup, st.nodes[from]) && PendingOk(c, st.sup, st.nodes[from], from);
  }

  /** Channels, what was heard and the own sequence number as before. */
  ghost predicate Unmoved(a: Node, a': Node) {
    a'.relays == a.relays && a'.l.seqIDMap == a.l.seqIDMap && a'.l.sequenceID == a.l.sequenceID
  }

  lemma UnmovedAdvances(a: Node, a': Node, b: Node, b': Node, j: ShardId)
    requires Unmoved(a, a') && Unmoved(b, b') && j < |a.relays|
    ensures Advances(a, a', b, b', j)
  {}

  lemma SilentAt(c: Config, st: System, step: Step, k: ShardId)
    requires c.n > 0 && |st.nodes| == c.n && Enabled(c, st, step) && k < c.n
    requires step.Inject? || step.DeliverReady? || step.DeliverParcel? || step.ReplicaApply?
    ensures k < |Apply(c, st, step).nodes| && Unmoved(st.nodes[k], Apply(c, st, step).nodes[k])
  {
    match step
    case Inject(s, txs) => assert Apply(c, st, step) == DoInject(st, s, txs);
    case DeliverReady(s, from) => assert Apply(c, st, step) == DoDeliverReady(st, s, from);
    case DeliverParcel(s, from) => assert Apply(c, st, step) == DoDeliverParcel(c, st, s, from);
    case ReplicaApply(s, node) => assert Apply(c, st, step) == DoReplicaApply(st, s, node);
  }

  lemma BroadcastAt(c: Config, st: System, step: Step, k: ShardId)
    requires c.n > 0 && |st.nodes| == c.n && Enabled(c, st, step) && k < c.n
    requires step.StartMigration? || step.EnterBarrier? || step.PassBarrier? || step.DeliverInfo? || step.DeliverAck?
          || step.FinishMigration? || step.StartBlock? || step.StartPartition?
    ensures k < |Apply(c, st, step).nodes| && Unmoved(st.nodes[k], Apply(c, st, step).nodes[k])
  {
    match step
    case StartBlock(s, size) =>
    case StartPartition(s, received, states) =>
    case StartMigration(m) => assert Apply(c, st, step) == DoStartMigration(c, st, m);
    case EnterBarrier(s) => assert Apply(c, st, step) == DoEnterBarrier(c, st, s);
    case PassBarrier(s) => assert Apply(c, st, step) == DoPassBarrier(c, st, s);
    case DeliverInfo(k) => assert Apply(c, st, step) == DoDeliverInfo(st, k);
    case DeliverAck(ack) =>
    case FinishMigration => assert Apply(c, st, step) == DoFinishMigration(st);
  }

  lemma SilentAdvances(c: Config, st: System, step: Step, s: ShardId, j: ShardId)
    requires c.n > 0 && |st.nodes| == c.n && Enabled(c, st, step) && s < c.n && j < c.n && j < |st.nodes[s].relays|
    requires !step.DeliverRelay? && !step.DeliverFromSup? && !step.FinishBlock? && !step.FinishPartition?
    ensures s < |Apply(c, st, step).nodes| && j < |Apply(c, st, step).nodes|
    ensures Advances(st.nodes[s], Apply(c, st, step).nodes[s], st.nodes[j], Apply(c, st, step).nodes[j], j)
  {
    if step.Inject? || step.DeliverReady? || step.DeliverParcel? || step.ReplicaApply? {
      SilentAt(c, st, step, s);
      SilentAt(c, st, step, j);
    } else {
      BroadcastAt(c, st, step, s);
      BroadcastAt(c, st, step, j);
    }
    UnmovedAdvances(st.nodes[s], Apply(c, st, step).nodes[s], st.nodes[j], Apply(c, st, step).nodes[j], j);
  }

  lemma NextAdvances(c: Config, st: System, st': System, s: ShardId, j: ShardId)
    requires Inv(c, st) && Next(c, st, st') && s < c.n && j < c.n && s != j
    ensures |st'.nodes| == c.n && Advances(st.nodes[s], st'.nodes[s], st.nodes[j], st'.nodes[j], j)
  {
    NextKeeps(c, st, st');
    assert NodeInv(c, st.sup, st.nodes[s], s) && KeysOk(c, st.nodes[s], s);
    var step := NextStep(c, st, st');
    if step.DeliverRelay? {
      DeliverRelayAdvances(st, step.s, step.from, s, j);
    } else if step.DeliverFromSup? {
      DeliverFromSupAdvances(st, step.s, s, j);
    } else if step.FinishBlock? {
      FinishBlockAdvances(c, st, step.s, s, j);
    } else if step.FinishPartition? {
      PendingRound(c, st, step.s);
      FinishPartitionAdvances(c, st, step.s, s, j);
    } else {
      SilentAdvances(c, st, step, s, j);
    }
  }

  // ------------------------------------------------ where the relays stand

  /** Every relay from j, handled or under way, is at least two behind q. */
  ghost predicate Behind(a: Node, j: ShardId, q: nat) {
    && j < |a.relays|
    && (forall k | 0 <= k < |a.relays[j]| :: a.relays[j][k].senderSeq + 1 < q)
    && (j in a.l.seqIDMap ==> a.l.seqIDMap[j] + 1 < q)
  }

  /** The last relay from j, under way or handled, is the one just before q. */
  ghost predicate UpToDate(a: Node, j: ShardId, q: nat) {
    && j < |a.relays|
    && if a.relays[j] != [] then a.relays[j][|a.relays[j]| - 1].senderSeq + 1 == q
       else j in a.l.seqIDMap && a.l.seqIDMap[j] + 1 == q
  }

  lemma BehindStep(a: Node, a': Node, j: ShardId, q: nat)
    requires Behind(a, j, q) && Consumes(a, a', j)
    ensures Behind(a', j, q)
  {
    if a'.relays[j] != a.relays[j] {
      assert forall k | 0 <= k < |a'.relays[j]| :: a'.relays[j][k] == a.relays[j][k + 1];
    }
  }

  lemma UpToDateStep(a: Node, a': Node, j: ShardId, q: nat)
    requires UpToDate(a, j, q) && Consumes(a, a', j)
    ensures UpToDate(a', j, q)
  {}

  /** Where the relays stand, by what took j's last sequence number. */
  ghost predicate Stands(a: Node, j: ShardId, q: nat, block: bool) {
    if block then UpToDate(a, j, q) else Behind(a, j, q)
  }

  /** The last sequence number of shard j went to a block: it kept the round when it
      took it. */
  ghost predicate LastTakenByBlock(run: seq<System>, m: nat, j: ShardId)
    requires m < |run|
  {
    && m > 0 && j < |run[m - 1].nodes| && j < |run[m].nodes|
    && var b, b' := run[m - 1].nodes[j].l, run[m].nodes[j].l;
       if b'.sequenceID == b.sequenceID then LastTakenByBlock(run, m - 1, j) else b'.round == b.round
  }

  lemma StandsStep(a: Node, a': Node, b: Node, b': Node, j: ShardId, block: bool)
    requires Stands(a, j, b.l.sequenceID, block) && Advances(a, a', b, b', j) && j < |a.relays| && SeqOk(a, b, j)
    ensures Stands(a', j, b'.l.sequenceID, if b'.l.sequenceID == b.l.sequenceID then block else b'.l.round == b.l.round)
  {
    if b'.l.sequenceID == b.l.sequenceID {
      if block { UpToDateStep(a, a', j, b.l.sequenceID); } else { BehindStep(a, a', j, b.l.sequenceID); }
    }
  }

  lemma {:induction false} RunStands(c: Config, run: seq<System>, m: nat, s: ShardId, j: ShardId)
    requires Run(c, run) && m < |run| && s < c.n && j < c.n && s != j
    ensures |run[m].nodes| == c.n
    ensures Stands(run[m].nodes[s], j, run[m].nodes[j].l.sequenceID, LastTakenByBlock(run, m, j))
  {
    RunSize(c, run, m);
    if m > 0 {
      RunStands(c, run, m - 1, s, j);
      RunAdvances(c, run, m, s, j);
      StandsStep(run[m - 1].nodes[s], run[m].nodes[s], run[m - 1].nodes[j], run[m].nodes[j], j,
                 LastTakenByBlock(run, m - 1, j));
    }
  }

  lemma RunAdvances(c: Config, run: seq<System>, i: nat, s: ShardId, j: ShardId)
    requires Run(c, run) && 0 < i < |run| && s < c.n && j < c.n && s != j
    ensures |run[i - 1].nodes| == |run[i].nodes| == c.n && j < |run[i - 1].nodes[s].relays|
    ensures SeqOk(run[i - 1].nodes[s], run[i - 1].nodes[j], j)
    ensures Advances(run[i - 1].nodes[s], run[i].nodes[s], run[i - 1].nodes[j], run[i].nodes[j], j)
  {
    RunInv(c, run, i - 1);
    InvSeq(c, run[i - 1], s, j);
    assert NextAt(c, run, i);
    NextAdvances(c, run[i - 1], run[i], s, j);
  }

  lemma InvSeq(c: Config, st: System, s: ShardId, j: ShardId)
    requires Inv(c, st) && s < c.n && j < c.n && s != j
    ensures j < |st.nodes[s].relays| && SeqOk(st.nodes[s], st.nodes[j], j)
  {
    assert PairInv(c, st.sup, st.nodes[s], st.nodes[j], s, j);
  }

  // ------------------------------------------------ the test

  /** What getPartitionReady asks about shard j. */
  predicate TestOn(l: Leader, j: ShardId) {
    j in l.seqIDMap ==> j in l.readySeq && l.readySeq[j] == l.seqIDMap[j] + 1
  }

  lemma ReadyIsAnnounced(c: Config, st: System, s: ShardId, j: ShardId)
    requires Inv(c, st) && s < c.n && j < c.n && s != j && st.nodes[s].l.stage.Waiting?
    requires j in st.nodes[s].l.partitionReady
    ensures j in st.nodes[s].l.readySeq && st.nodes[s].l.readySeq[j] == st.nodes[j].l.sequenceID
  {
    var a, b := st.nodes[s], st.nodes[j];
    assert NodeInv(c, st.sup, a, s) && PairInv(c, st.sup, a, b, s, j) && PairInv(c, st.sup, b, a, j, s);
    assert RoundOk(st.sup, a) && ReadyOk(st.sup, a, b, j) && BarrierOk(st.sup, b, a, s);
  }

  /** In every run: once a waiting leader has handled the ready message of a shard it has
      heard from and all its relays, its test on that shard comes out true if and only if
      the shard's last sequence number went to a block. */
  lemma TestHoldsIff(c: Config, run: seq<System>, m: nat, s: ShardId, j: ShardId)
    requires Run(c, run) && m < |run| && s < c.n && j < c.n && s != j && |run[m].nodes| == c.n
    requires run[m].nodes[s].l.stage.Waiting? && j in run[m].nodes[s].l.partitionReady
    requires j < |run[m].nodes[s].relays| && run[m].nodes[s].relays[j] == [] && j in run[m].nodes[s].l.seqIDMap
    ensures TestOn(run[m].nodes[s].l, j) <==> LastTakenByBlock(run, m, j)
  {
    RunInv(c, run, m);
    RunStands(c, run, m, s, j);
    ReadyIsAnnounced(c, run[m], s, j);
  }

  /** So a shard whose last sequence number went to a partition request, having committed
      no block since, keeps every leader that has heard from it in the barrier, whatever
      else that leader has handled. */
  lemma IdleShardBlocksTheBarrier(c: Config, run: seq<System>, m: nat, s: ShardId, j: ShardId)
    requires Run(c, run) && m < |run| && s < c.n && j < c.n && s != j && |run[m].nodes| == c.n
    requires run[m].nodes[s].l.stage.Waiting? && j in run[m].nodes[s].l.seqIDMap && !LastTakenByBlock(run, m, j)
    ensures !GetPartitionReady(run[m].nodes[s].l, c.n)
  {
    RunInv(c, run, m);
    RunStands(c, run, m, s, j);
    if GetPartitionReady(run[m].nodes[s].l, c.n) {
      BarrierReached(c, run[m], s, j);
      ReadyIsAnnounced(c, run[m], s, j);
    }
  }
}
