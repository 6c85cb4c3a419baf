/** A first migration can be completed from every state it can get into: every step of its
    own brings it nearer to the end. */
module Completion {
  import opened Collections
  import opened Ledger
  import opened Leaders
  import opened Sharding
  import opened Invariant
  import opened ShardingTheorems
  import opened NoDeadlock
  import I = IdleShard
  import M = MigrationPreservation

  // ------------------------------------------------ sums

  function Sum(xs: seq<int>): int {
    if xs == [] then 0 else Sum(xs[..|xs| - 1]) + xs[|xs| - 1]
  }

  /** One entry falls by d, the others rise by at most e. */
  lemma {:induction false} SumFalls(xs: seq<int>, ys: seq<int>, s: nat, d: int, e: nat)
    requires |xs| == |ys| && (s < |xs| ==> ys[s] + d <= xs[s])
    requires forall i | 0 <= i < |xs| && i != s :: ys[i] <= xs[i] + e
    ensures Sum(ys) <= Sum(xs) + |xs| * e - (if s < |xs| then d + e else 0)
  {
    if xs != [] {
      var n := |xs| - 1;
      SumFalls(xs[..n], ys[..n], s, d, e);
      assert |xs| * e == n * e + e;
    }
  }

  // ------------------------------------------------ how far a shard is from the end

  /** Stages to go. */
  function Stages(sup: Supervisor, nd: Node): nat {
    (if nd.l.stage.BlockPending? then 1 else 0)
    + if HasApplied(sup, nd) then 0
      else match nd.l.stage
           case Idle => 4
           case BlockPending(_) => 4
           case Waiting => 3
           case Collecting => 2
           case PartitionPending(_, _, _) => 1
  }

  function Queued(relays: seq<seq<Relay>>): nat {
    if relays == [] then 0 else Queued(relays[..|relays| - 1]) + |relays[|relays| - 1]|
  }

  lemma {:induction false} QueuedSet(relays: seq<seq<Relay>>, j: nat, q: seq<Relay>)
    requires j < |relays|
    ensures Queued(relays[j := q]) == Queued(relays) - |relays[j]| + |q|
  {
    var n := |relays| - 1;
    if j < n {
      assert relays[j := q][..n] == relays[..n][j := q];
      QueuedSet(relays[..n], j, q);
    } else {
      assert relays[j := q][..n] == relays[..n];
    }
  }

  /** Requests the replicas have still to apply. */
  function Lag(applied: seq<nat>, top: nat): nat {
    if applied == [] then 0
    else Lag(applied[..|applied| - 1], top)
         + if applied[|applied| - 1] < top then top - applied[|applied| - 1] else 0
  }

  lemma {:induction false} LagSet(applied: seq<nat>, top: nat, k: nat, e: nat)
    requires k < |applied| && applied[k] < e <= top
    ensures Lag(applied[k := e], top) < Lag(applied, top)
  {
    var n := |applied| - 1;
    if k < n {
      assert applied[k := e][..n] == applied[..n][k := e];
      LagSet(applied[..n], top, k, e);
    } else {
      assert applied[k := e][..n] == applied[..n];
    }
  }

  /** What is left to do at a shard: messages, and stages that cost more than the messages
      they send. */
  function Work(c: Config, sup: Supervisor, nd: Node): int {
    (c.n + 1) * Stages(sup, nd) + |nd.fromSup| + Queued(nd.relays) + |nd.readies| + |nd.parcelsIn|
    + 2 * Lag(nd.applied, sup.completed + 1)
  }

  function Works(c: Config, st: System): seq<int> {
    seq(|st.nodes|, i requires 0 <= i < |st.nodes| => Work(c, st.sup, st.nodes[i]))
  }

  function Remaining(c: Config, st: System): int { Sum(Works(c, st)) + |st.sup.acksIn| }

  lemma {:induction false} SumNonNegative(xs: seq<int>)
    requires forall i | 0 <= i < |xs| :: xs[i] >= 0
    ensures Sum(xs) >= 0
  {
    if xs != [] { SumNonNegative(xs[..|xs| - 1]); }
  }

  lemma RemainingNonNegative(c: Config, st: System)
    ensures Remaining(c, st) >= 0
  {
    forall i | 0 <= i < |st.nodes| ensures Works(c, st)[i] >= 0 { WorkNonNegative(c, st.sup, st.nodes[i]); }
    SumNonNegative(Works(c, st));
  }

  lemma WorkNonNegative(c: Config, sup: Supervisor, nd: Node)
    ensures Work(c, sup, nd) >= 0
  {
    assert (c.n + 1) * Stages(sup, nd) >= 0;
  }

  /** A step at shard s that takes away at least d there, adds at most e to every other
      shard and more to the acknowledgements. */
  lemma Nearer(c: Config, st: System, st': System, s: ShardId, d: int, e: nat, more: nat)
    requires |st.nodes| == |st'.nodes| == c.n && s < c.n && |st'.sup.acksIn| <= |st.sup.acksIn| + more
    requires Work(c, st'.sup, st'.nodes[s]) + d <= Work(c, st.sup, st.nodes[s])
    requires forall i | 0 <= i < c.n && i != s :: Work(c, st'.sup, st'.nodes[i]) <= Work(c, st.sup, st.nodes[i]) + e
    requires c.n * e + more < d + e
    ensures Remaining(c, st') < Remaining(c, st)
  {
    SumFalls(Works(c, st), Works(c, st'), s, d, e);
  }

  // ------------------------------------------------ one shard, one step

  lemma FromSupWork(c: Config, sup: Supervisor, nd: Node, l: Leader)
    requires nd.fromSup != [] && l.stage == nd.l.stage && l.round == nd.l.round
    ensures Work(c, sup, nd.(l := l, fromSup := nd.fromSup[1..])) + 1 == Work(c, sup, nd)
  {}

  lemma RelayWork(c: Config, sup: Supervisor, nd: Node, from: nat)
    requires from < |nd.relays| && nd.relays[from] != []
    ensures var l := HandleRelay(nd.l, from, nd.relays[from][0]);
            Work(c, sup, nd.(l := l, relays := nd.relays[from := nd.relays[from][1..]])) + 1 == Work(c, sup, nd)
  {
    QueuedSet(nd.relays, from, nd.relays[from][1..]);
  }

  lemma MapRemove<T>(m: map<nat, T>, k: nat)
    requires k in m
    ensures |m - {k}| + 1 == |m|
  {
    assert m.Keys == (m - {k}).Keys + {k};
    assert |m| == |m.Keys| && |m - {k}| == |(m - {k}).Keys|;
  }

  lemma MapAdd<T>(m: map<nat, T>, k: nat, v: T)
    ensures |m[k := v]| <= |m| + 1
  {
    assert m[k := v].Keys == m.Keys + {k};
    assert |m| == |m.Keys| && |m[k := v]| == |m[k := v].Keys|;
  }

  lemma ReadyWork(c: Config, sup: Supervisor, nd: Node, from: ShardId)
    requires from in nd.readies
    ensures Work(c, sup, nd.(l := HandleReady(nd.l, from, nd.readies[from]), readies := nd.readies - {from})) + 1
         == Work(c, sup, nd)
  {
    MapRemove(nd.readies, from);
  }

  lemma ParcelWork(c: Config, sup: Supervisor, nd: Node, from: ShardId)
    requires from in nd.parcelsIn
    ensures var l := HandleParcel(nd.l, c.n, from, nd.parcelsIn[from]);
            Work(c, sup, nd.(l := l, parcelsIn := nd.parcelsIn - {from})) + 1 == Work(c, sup, nd)
  {
    MapRemove(nd.parcelsIn, from);
  }

  /** One stage less is worth more than a message to every other shard. */
  lemma StageWork(c: Config, sup: Supervisor, nd: Node, nd': Node)
    requires Stages(sup, nd') < Stages(sup, nd) && nd'.fromSup == nd.fromSup && nd'.relays == nd.relays
    requires nd'.readies == nd.readies && nd'.parcelsIn == nd.parcelsIn
    requires Lag(nd'.applied, sup.completed + 1) <= Lag(nd.applied, sup.completed + 1)
    ensures Work(c, sup, nd') + c.n + 1 <= Work(c, sup, nd)
  {
    assert (c.n + 1) * Stages(sup, nd') + (c.n + 1) <= (c.n + 1) * Stages(sup, nd) by {
      assert (c.n + 1) * (Stages(sup, nd) - Stages(sup, nd') - 1) >= 0;
    }
  }

  lemma RelayAddedWork(c: Config, sup: Supervisor, nd: Node, from: ShardId, r: Relay)
    ensures Work(c, sup, AddRelay(nd, from, r)) <= Work(c, sup, nd) + 1
  {
    if from < |nd.relays| { QueuedSet(nd.relays, from, nd.relays[from] + [r]); }
  }

  // ------------------------------------------------ the steps

  lemma DeliveryNearer(c: Config, st: System, step: Step)
    requires c.n > 0 && |st.nodes| == c.n && Enabled(c, st, step)
    requires step.DeliverFromSup? || step.DeliverRelay? || step.DeliverReady? || step.DeliverParcel?
    ensures Remaining(c, Apply(c, st, step)) < Remaining(c, st) && Apply(c, st, step).sup == st.sup
  {
    var st', nd := Apply(c, st, step), st.nodes[step.s];
    match step
    case DeliverFromSup(s) =>
      FromSupWork(c, st.sup, nd, st'.nodes[s].l);
      Nearer(c, st, st', s, 1, 0, 0);
    case DeliverRelay(s, from) =>
      RelayWork(c, st.sup, nd, from);
      Nearer(c, st, st', s, 1, 0, 0);
    case DeliverReady(s, from) =>
      ReadyWork(c, st.sup, nd, from);
      Nearer(c, st, st', s, 1, 0, 0);
    case DeliverParcel(s, from) =>
      ParcelWork(c, st.sup, nd, from);
      Nearer(c, st, st', s, 1, 0, 0);
  }

  lemma FinishBlockNearer(c: Config, st: System, s: ShardId)
    requires c.n > 0 && |st.nodes| == c.n && Enabled(c, st, FinishBlock(s))
    ensures Remaining(c, DoFinishBlock(c, st, s)) < Remaining(c, st)
  {
    var st' := DoFinishBlock(c, st, s);
    assert Stages(st'.sup, st'.nodes[s]) < Stages(st'.sup, st.nodes[s]);
    StageWork(c, st'.sup, st.nodes[s], st'.nodes[s]);
    forall i | 0 <= i < c.n && i != s ensures Work(c, st'.sup, st'.nodes[i]) <= Work(c, st.sup, st.nodes[i]) + 1 {
      RelayAddedWork(c, st.sup, st.nodes[i], s, RelayFor(st.nodes[s].l, c.n, i));
    }
    Nearer(c, st, st', s, c.n + 1, 1, 0);
  }

  lemma EnterBarrierNearer(c: Config, st: System, s: ShardId)
    requires c.n > 0 && |st.nodes| == c.n && Enabled(c, st, EnterBarrier(s)) && !HasApplied(st.sup, st.nodes[s])
    ensures Remaining(c, DoEnterBarrier(c, st, s)) < Remaining(c, st)
  {
    var st' := DoEnterBarrier(c, st, s);
    StageWork(c, st.sup, st.nodes[s], st'.nodes[s]);
    forall i | 0 <= i < c.n && i != s ensures Work(c, st'.sup, st'.nodes[i]) <= Work(c, st.sup, st.nodes[i]) + 1 {
      MapAdd(st.nodes[i].readies, s, st.nodes[s].l.sequenceID);
    }
    Nearer(c, st, st', s, c.n + 1, 1, 0);
  }

  lemma PassBarrierNearer(c: Config, st: System, s: ShardId)
    requires c.n > 0 && |st.nodes| == c.n && Enabled(c, st, PassBarrier(s)) && !HasApplied(st.sup, st.nodes[s])
    ensures Remaining(c, DoPassBarrier(c, st, s)) < Remaining(c, st)
  {
    var st' := DoPassBarrier(c, st, s);
    StageWork(c, st.sup, st.nodes[s], st'.nodes[s]);
    forall i | 0 <= i < c.n && i != s ensures Work(c, st'.sup, st'.nodes[i]) <= Work(c, st.sup, st.nodes[i]) + 1 {
      MapAdd(st.nodes[i].parcelsIn, s, ParcelFor(st.nodes[s].l, c.n, i));
    }
    Nearer(c, st, st', s, c.n + 1, 1, 0);
  }

  lemma StartPartitionNearer(c: Config, st: System, s: ShardId, received: seq<Tx>, states: Trie)
    requires c.n > 0 && |st.nodes| == c.n && Enabled(c, st, StartPartition(s, received, states))
    requires !HasApplied(st.sup, st.nodes[s])
    ensures Remaining(c, Apply(c, st, StartPartition(s, received, states))) < Remaining(c, st)
  {
    var st' := Apply(c, st, StartPartition(s, received, states));
    StageWork(c, st.sup, st.nodes[s], st'.nodes[s]);
    Nearer(c, st, st', s, c.n + 1, 0, 0);
  }

  lemma FinishPartitionNearer(c: Config, st: System, s: ShardId)
    requires c.n > 0 && |st.nodes| == c.n && Enabled(c, st, FinishPartition(s)) && Migrating(st.sup)
    requires st.nodes[s].l.stage.atid == st.sup.completed + 1 && !HasApplied(st.sup, st.nodes[s])
    requires st.nodes[s].applied[0] == st.sup.completed
    ensures Remaining(c, DoFinishPartition(c, st, s)) < Remaining(c, st)
  {
    var st' := DoFinishPartition(c, st, s);
    TransferWork(c, st.sup, st.nodes[s]);
    Nearer(c, st, st', s, c.n + 1, 0, 1);
  }

  lemma TransferWork(c: Config, sup: Supervisor, nd: Node)
    requires c.n > 0 && Migrating(sup) && nd.l.stage.PartitionPending? && |nd.applied| > 0
    requires nd.l.stage.atid == sup.completed + 1 && !HasApplied(sup, nd) && nd.applied[0] == sup.completed
    ensures var l := TransferAccounts(nd.l, c.n);
            Work(c, sup, nd.(l := l, applied := nd.applied[0 := l.round])) + c.n + 1 <= Work(c, sup, nd)
  {
    var l := TransferAccounts(nd.l, c.n);
    LagSet(nd.applied, sup.completed + 1, 0, sup.completed + 1);
    StageWork(c, sup, nd, nd.(l := l, applied := nd.applied[0 := l.round]));
  }

  lemma ReplicaApplyNearer(c: Config, st: System, s: ShardId, node: nat)
    requires c.n > 0 && |st.nodes| == c.n && Enabled(c, st, ReplicaApply(s, node))
    requires st.nodes[s].applied[node] == st.sup.completed
    ensures Remaining(c, DoReplicaApply(st, s, node)) < Remaining(c, st)
  {
    var st' := DoReplicaApply(st, s, node);
    LagSet(st.nodes[s].applied, st.sup.completed + 1, node, st.sup.completed + 1);
    Nearer(c, st, st', s, 2, 0, 1);
  }

  lemma DeliverAckNearer(c: Config, st: System, ack: Ack)
    requires c.n > 0 && |st.nodes| == c.n && Enabled(c, st, DeliverAck(ack))
    ensures Remaining(c, Apply(c, st, DeliverAck(ack))) < Remaining(c, st)
  {
    var st' := Apply(c, st, DeliverAck(ack));
    assert Works(c, st') == Works(c, st);
  }

  /** What the invariant says of a shard in the middle of a migration. */
  lemma MidMigration(c: Config, st: System, s: ShardId)
    requires Inv(c, st) && s < c.n && Migrating(st.sup)
    ensures st.nodes[s].l.partitionOn || InBarrier(st.nodes[s]) ==> !HasApplied(st.sup, st.nodes[s])
    ensures st.nodes[s].l.stage.PartitionPending? ==> st.nodes[s].l.stage.atid == st.sup.completed + 1
    ensures |st.nodes[s].applied| == c.r > 0 && st.nodes[s].applied[0] == st.nodes[s].l.round
    ensures st.nodes[s].l.round == st.sup.completed || HasApplied(st.sup, st.nodes[s])
    ensures forall k | 0 <= k < c.r :: st.sup.completed <= st.nodes[s].applied[k] <= st.sup.completed + 1
  {
    var nd := st.nodes[s];
    assert NodeInv(c, st.sup, nd, s) && RoundOk(st.sup, nd) && PendingOk(c, st.sup, nd, s) && ReplicasOk(c, st.sup, nd);
  }

  /** Every step of its own brings a migration nearer to the end. */
  lemma StepNearer(c: Config, st: System, step: Step)
    requires Inv(c, st) && Migrating(st.sup) && Drives(step) && Enabled(c, st, step) && !step.FinishMigration?
    ensures Remaining(c, Apply(c, st, step)) < Remaining(c, st)
    ensures var sup, sup' := st.sup, Apply(c, st, step).sup;
            sup'.current == sup.current && sup'.completed == sup.completed && sup'.placement == sup.placement
  {
    if !step.DeliverAck? { MidMigration(c, st, step.s); }
    match step
    case FinishBlock(s) => FinishBlockNearer(c, st, s);
    case EnterBarrier(s) => EnterBarrierNearer(c, st, s);
    case PassBarrier(s) => PassBarrierNearer(c, st, s);
    case StartPartition(s, received, states) => StartPartitionNearer(c, st, s, received, states);
    case FinishPartition(s) => FinishPartitionNearer(c, st, s);
    case ReplicaApply(s, node) => ReplicaApplyNearer(c, st, s, node);
    case DeliverAck(ack) => DeliverAckNearer(c, st, ack);
    case _ => DeliveryNearer(c, st, step);
  }

  // ------------------------------------------------ the theorem

  lemma Extends(c: Config, run: seq<System>, step: Step) returns (run': seq<System>)
    requires Run(c, run) && |run[|run| - 1].nodes| == c.n && Drivable(c, run[|run| - 1], step)
    ensures Run(c, run') && run' == run + [Apply(c, run[|run| - 1], step)]
  {
    var st := run[|run| - 1];
    run' := run + [Apply(c, st, step)];
    assert Takes(c, st, step, run'[|run|]);
    forall k | 0 < k < |run'| ensures NextAt(c, run', k) {
      if k < |run| { assert NextAt(c, run, k); }
    }
  }

  /** From every state of every run in which the first migration is under way the run can
      be continued to its end, where the plan is part of the placement. */
  lemma {:induction false} FirstMigrationCompletes(c: Config, run: seq<System>) returns (run': seq<System>)
    requires Run(c, run) && Migrating(run[|run| - 1].sup) && run[|run| - 1].sup.completed == 0
    ensures Run(c, run') && |run| <= |run'| && run'[..|run|] == run
    ensures var sup, sup' := run[|run| - 1].sup, run'[|run'| - 1].sup;
            sup'.current == None && sup'.completed == 1 && sup'.placement == sup.placement + sup.current.value
    decreases Remaining(c, run[|run| - 1])
  {
    RemainingNonNegative(c, run[|run| - 1]);
    var st';
    run', st' := OneMore(c, run);
    if Migrating(st'.sup) { run' := FirstMigrationCompletes(c, run'); }
  }

  /** One more step: the migration is over, or nearer to its end. */
  lemma OneMore(c: Config, run: seq<System>) returns (run': seq<System>, st': System)
    requires Run(c, run) && Migrating(run[|run| - 1].sup) && run[|run| - 1].sup.completed == 0
    ensures Run(c, run') && run' == run + [st']
    ensures var st := run[|run| - 1];
            if Migrating(st'.sup)
            then && st'.sup.current == st.sup.current && st'.sup.completed == 0
                 && st'.sup.placement == st.sup.placement && Remaining(c, st') < Remaining(c, st)
            else st'.sup.completed == 1 && st'.sup.placement == st.sup.placement + st.sup.current.value
  {
    var st := run[|run| - 1];
    FirstMigrationNeverStuck(c, run, |run| - 1);
    var step :| Drivable(c, st, step);
    run' := Extends(c, run, step);
    st' := Apply(c, st, step);
    if !step.FinishMigration? {
      M.RunInv(c, run, |run| - 1);
      StepNearer(c, st, step);
    }
  }
}
