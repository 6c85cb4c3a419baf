/** A concrete run: a migration that starts before a leader has had a relay from the
    other shard loses a payment (consensus_shard/pbft_all/accountTransfer_module.go). */
module LostPayment {
  import opened Collections
  import opened Ledger
  import opened Leaders
  import opened Sharding
  import opened Invariant
  import opened Conservation
  import opened ShardingTheorems
  import Committees

  // ------------------------------------------------ a run that loses a payment

  /** The states reached from st by taking the given steps. */
  ghost predicate Path(c: Config, st: System, steps: seq<Step>, last: System)
    requires c.n > 0
    decreases |steps|
  {
    if steps == [] then st == last
    else |st.nodes| == c.n && Enabled(c, st, steps[0]) && Path(c, Apply(c, st, steps[0]), steps[1..], last)
  }

  lemma {:induction false} PathJoin(c: Config, a: System, xs: seq<Step>, b: System, ys: seq<Step>, d: System)
    requires c.n > 0 && Path(c, a, xs, b) && Path(c, b, ys, d)
    ensures Path(c, a, xs + ys, d)
    decreases |xs|
  {
    if xs == [] {
      assert xs + ys == ys;
    } else {
      assert (xs + ys)[1..] == xs[1..] + ys;
      PathJoin(c, Apply(c, a, xs[0]), xs[1..], b, ys, d);
    }
  }

  /** Equality, field by field. */
  ghost predicate SameLeader(a: Leader, b: Leader) {
    && a.id == b.id && a.pm == b.pm && a.trie == b.trie && a.pool == b.pool && a.sequenceID == b.sequenceID
    && a.seqIDMap == b.seqIDMap && a.modifiedMap == b.modifiedMap && a.round == b.round
    && a.partitionOn == b.partitionOn && a.partitionReady == b.partitionReady && a.readySeq == b.readySeq
    && a.parcels == b.parcels && a.collectOver == b.collectOver
    && (a.stage == b.stage || (a.stage.BlockPending? && b.stage.BlockPending? && a.stage.body == b.stage.body))
  }

  ghost predicate SameNode(a: Node, b: Node) {
    && SameLeader(a.l, b.l)
    && |a.relays| == 2 == |b.relays| && a.relays[0] == b.relays[0] && a.relays[1] == b.relays[1]
    && a.readies == b.readies && a.parcelsIn == b.parcelsIn && a.fromSup == b.fromSup && a.applied == b.applied
  }

  lemma OneStep(c: Config, st: System, step: Step, st': System)
    requires c.n == 2 && |st.nodes| == 2 && Enabled(c, st, step)
    requires var x := Apply(c, st, step);
             && |x.nodes| == 2 == |st'.nodes|
             && SameNode(x.nodes[0], st'.nodes[0]) && SameNode(x.nodes[1], st'.nodes[1])
             && x.sup == st'.sup
    ensures Path(c, st, [step], st')
  {
    var x := Apply(c, st, step);
    forall i | 0 <= i < 2 ensures x.nodes[i] == st'.nodes[i] {
      assert x.nodes[i].relays == st'.nodes[i].relays;
    }
    assert x.nodes == st'.nodes;
    assert [step][1..] == [];
    assert Path(c, x, [step][1..], st');
  }

  const TWO := Config(2, 1)
  const PAY := Tx(0, 0, 1, 5, false)
  const PAID := Tx(0, 0, 1, 5, true)

  /** Two payments of account 1, which wait in shard 1's pool. */
  const FIRST := Tx(1, 1, 0, 1, false)
  const SECOND := Tx(2, 1, 0, 1, false)
  const QUEUE := [FIRST, SECOND]
  const ROWS := [PAY, FIRST, SECOND]

  const MOVE: PartitionMap := map[1 := 0]

  /** How often each sender of the rows has sent. */
  const COUNTS: Committees.Frequency := map[0 := 1, 1 := 2]

  lemma CountsAreSends()
    ensures forall a | a in COUNTS :: COUNTS[a] == Committees.Sends(ROWS, a) > 0
    ensures forall t | t in ROWS :: t.sender in COUNTS
  {
    assert ROWS[..2] == [PAY, FIRST] && [PAY, FIRST][..1] == [PAY] && [PAY][..0] == [];
    forall a | a in COUNTS ensures COUNTS[a] == Committees.Sends(ROWS, a) {
      assert Committees.Sends(ROWS, a) == Committees.Sends([PAY, FIRST], a) + if a == 1 then 1 else 0;
      assert Committees.Sends([PAY, FIRST], a) == Committees.Sends([PAY], a) + if a == 1 then 1 else 0;
      assert Committees.Sends([PAY], a) == Committees.Sends([], a) + if a == 0 then 1 else 0;
    }
  }

  /** What Committee.ChooseAccounts promises of its plan, with one account to move. */
  ghost predicate Planned(plan: PartitionMap) {
    Committees.Leading(COUNTS, 1, plan.Keys) && Committees.Shifts(map[], 2, plan.Keys, plan)
  }

  lemma PlanIsForced(plan: PartitionMap)
    requires Planned(plan)
    ensures plan == MOVE
  {
    assert |COUNTS| == 2;
    var a :| a in plan.Keys;
    assert plan.Keys == {a} by { assert |plan.Keys - {a}| == 0; }
    assert a in COUNTS && 1 in COUNTS && !Committees.Before(COUNTS, 0, 1);
    assert a == 1;
    assert HomeShard(1, 2) == 1;
  }

  function Resting(l: Leader): Node {
    Node(l, [[], []], map[], map[], [], [0])
  }

  /** The leader of shard 1 with its pool. */
  function Queued(): Leader { NewLeader(1).(pool := QUEUE) }

  /** Shard 0 has executed its side of the payment; the relay is on its way. */
  function AfterBlock(): System {
    System([Resting(NewLeader(0).(trie := map[0 := INIT_BALANCE - 5], sequenceID := 2)),
            Resting(Queued()).(relays := [[Relay(1, [PAID])], []])],
           Supervisor(map[], None, 0, {}, {}, ROWS, [], [[]], {}))
  }

  lemma ReachAfterBlock() returns (steps: seq<Step>)
    ensures Path(TWO, Init(TWO), steps, AfterBlock())
  {
    var c := TWO;
    var st0 := Init(c);
    assert st0.nodes == [Resting(NewLeader(0)), Resting(NewLeader(1))] by {
      assert forall i | 0 <= i < 2 :: st0.nodes[i].relays == [[], []] && st0.nodes[i].applied == [0];
    }
    var st1 := System([Resting(NewLeader(0)).(fromSup := [InjectMsg([PAY])]), Resting(NewLeader(1))],
                      st0.sup.(injected := [PAY]));
    OneStep(c, st0, Inject(0, [PAY]), st1);
    var st2 := st1.(nodes := [Resting(NewLeader(0).(pool := [PAY])), Resting(NewLeader(1))]);
    OneStep(c, st1, DeliverFromSup(0), st2);
    PathJoin(c, st0, [Inject(0, [PAY])], st1, [DeliverFromSup(0)], st2);
    steps := [Inject(0, [PAY])] + [DeliverFromSup(0)];
    var queue := ReachQueue(st2);
    var st3 := System([Resting(NewLeader(0).(pool := [PAY])), Resting(Queued())], st2.sup.(injected := ROWS));
    PathJoin(c, st0, steps, st2, queue, st3);
    steps := steps + queue;
    var more := ReachAfterBlockRest(st3);
    PathJoin(c, st0, steps, st3, more, AfterBlock());
    steps := steps + more;
  }

  lemma ReachQueue(st2: System) returns (steps: seq<Step>)
    requires st2.nodes == [Resting(NewLeader(0).(pool := [PAY])), Resting(NewLeader(1))]
    requires st2.sup == Supervisor(map[], None, 0, {}, {}, [PAY], [], [], {})
    ensures Path(TWO, st2, steps, System([st2.nodes[0], Resting(Queued())], st2.sup.(injected := ROWS)))
  {
    var c := TWO;
    var st3 := System([st2.nodes[0], Resting(NewLeader(1)).(fromSup := [InjectMsg(QUEUE)])],
                      st2.sup.(injected := ROWS));
    assert HomeShard(1, 2) == 1 && [PAY] + QUEUE == ROWS;
    OneStep(c, st2, Inject(1, QUEUE), st3);
    var st4 := System([st2.nodes[0], Resting(Queued())], st3.sup);
    OneStep(c, st3, DeliverFromSup(1), st4);
    PathJoin(c, st2, [Inject(1, QUEUE)], st3, [DeliverFromSup(1)], st4);
    steps := [Inject(1, QUEUE)] + [DeliverFromSup(1)];
  }

  lemma ReachAfterBlockRest(st2: System) returns (steps: seq<Step>)
    requires st2.nodes == [Resting(NewLeader(0).(pool := [PAY])), Resting(Queued())]
    requires st2.sup == Supervisor(map[], None, 0, {}, {}, ROWS, [], [], {})
    ensures Path(TWO, st2, steps, AfterBlock())
  {
    var c := TWO;
    var st3 := st2.(nodes := [Resting(NewLeader(0).(stage := BlockPending([PAY]))), Resting(Queued())]);
    OneStep(c, st2, StartBlock(0, 1), st3);
    PaymentBlock(st3);
    OneStep(c, st3, FinishBlock(0), AfterBlock());
    PathJoin(c, st2, [StartBlock(0, 1)], st3, [FinishBlock(0)], AfterBlock());
    steps := [StartBlock(0, 1)] + [FinishBlock(0)];
  }

  lemma PaymentSorted()
    ensures var cls := FateClass(map[], 2, 0);
            Mark(Part(cls, [PAY], 1)) == [PAID] && Part(cls, [PAY], 0) == []
    ensures ExecBlock(map[], map[], 2, 0, [PAY]) == map[0 := INIT_BALANCE - 5]
  {
    assert HomeShard(0, 2) == 0 && HomeShard(1, 2) == 1;
    var cls := FateClass(map[], 2, 0);
    assert cls(PAY) == 1;
    assert Part(cls, [PAY], 1) == [PAY] + Part(cls, [], 1) == [PAY];
    assert Part(cls, [PAY], 0) == [] + Part(cls, [], 0) == [];
    assert ExecBlock(map[], map[], 2, 0, [PAY]) == ExecBlock(ExecTx(map[], map[], 2, 0, PAY), map[], 2, 0, []);
  }

  lemma PaymentBlock(st: System)
    requires st.nodes == [Resting(NewLeader(0).(stage := BlockPending([PAY]))), Resting(Queued())]
    requires st.sup == Supervisor(map[], None, 0, {}, {}, ROWS, [], [], {})
    ensures var x := Apply(TWO, st, FinishBlock(0));
            && |x.nodes| == 2
            && SameNode(x.nodes[0], AfterBlock().nodes[0]) && SameNode(x.nodes[1], AfterBlock().nodes[1])
            && x.sup == AfterBlock().sup
  {
    PaymentSorted();
    var x := Apply(TWO, st, FinishBlock(0));
    assert Finals(st.nodes[0].l, 2) == [];
    assert x.sup.infosIn == [[]] && x.sup.done == [];
    assert RelayFor(st.nodes[0].l, 2, 1) == Relay(1, [PAID]);
    assert x.nodes[1] == AddRelay(Resting(Queued()), 0, Relay(1, [PAID]));
    assert x.nodes[0].l == NewLeader(0).(trie := map[0 := INIT_BALANCE - 5], sequenceID := 2);
  }

  /** The leader of shard l in the barrier of that migration. */
  function Blocked(l: Leader, heard: set<ShardId>, seqs: map<ShardId, nat>): Leader {
    l.(modifiedMap := [MOVE], partitionOn := true, partitionReady := heard, readySeq := seqs, stage := Waiting)
  }

  /** Both leaders are in the barrier and have heard that the other is. */
  function BothReady(): System {
    var st := AfterBlock();
    System([st.nodes[0].(l := Blocked(st.nodes[0].l, {0, 1}, map[1 := 1])),
            st.nodes[1].(l := Blocked(st.nodes[1].l, {0, 1}, map[0 := 2]))],
           st.sup.(current := Some(MOVE)))
  }

  /** A shard that has handled the partition message. */
  function Notified(nd: Node): Node { nd.(l := nd.l.(modifiedMap := [MOVE], partitionOn := true)) }

  lemma ReachBothReady() returns (steps: seq<Step>)
    ensures Path(TWO, AfterBlock(), steps, BothReady())
  {
    var c := TWO;
    var st0 := AfterBlock();
    var n0, n1 := st0.nodes[0], st0.nodes[1];
    var sup := st0.sup.(current := Some(MOVE));
    var st1 := System([n0.(fromSup := [PartitionMsg(MOVE)]), n1.(fromSup := [PartitionMsg(MOVE)])], sup);
    OneStep(c, st0, StartMigration(MOVE), st1);
    var st2 := System([Notified(n0), n1.(fromSup := [PartitionMsg(MOVE)])], sup);
    OneStep(c, st1, DeliverFromSup(0), st2);
    var st3 := System([Notified(n0), Notified(n1)], sup);
    OneStep(c, st2, DeliverFromSup(1), st3);
    PathJoin(c, st0, [StartMigration(MOVE)], st1, [DeliverFromSup(0)], st2);
    steps := [StartMigration(MOVE)] + [DeliverFromSup(0)];
    PathJoin(c, st0, steps, st2, [DeliverFromSup(1)], st3);
    steps := steps + [DeliverFromSup(1)];
    var more := ReachBothReady1(st3);
    PathJoin(c, st0, steps, st3, more, BothReady());
    steps := steps + more;
  }

  lemma ReachBothReady1(st3: System) returns (steps: seq<Step>)
    requires var st0 := AfterBlock();
             st3 == System([Notified(st0.nodes[0]), Notified(st0.nodes[1])], st0.sup.(current := Some(MOVE)))
    ensures Path(TWO, st3, steps, BothReady())
  {
    var c := TWO;
    var n0, n1 := AfterBlock().nodes[0], AfterBlock().nodes[1];
    var st4 := System([n0.(l := Blocked(n0.l, {0}, map[])),
                       n1.(l := n1.l.(modifiedMap := [MOVE], partitionOn := true), readies := map[0 := 2])], st3.sup);
    OneStep(c, st3, EnterBarrier(0), st4);
    var more := ReachBothReady2(st4);
    PathJoin(c, st3, [EnterBarrier(0)], st4, more, BothReady());
    steps := [EnterBarrier(0)] + more;
  }

  lemma ReachBothReady2(st4: System) returns (steps: seq<Step>)
    requires var st0 := AfterBlock();
             st4 == System([st0.nodes[0].(l := Blocked(st0.nodes[0].l, {0}, map[])),
                            st0.nodes[1].(l := st0.nodes[1].l.(modifiedMap := [MOVE], partitionOn := true),
                                          readies := map[0 := 2])],
                           st0.sup.(current := Some(MOVE)))
    ensures Path(TWO, st4, steps, BothReady())
  {
    var c := TWO;
    var n0, n1, sup := AfterBlock().nodes[0], AfterBlock().nodes[1], st4.sup;
    var st5 := System([n0.(l := Blocked(n0.l, {0}, map[]), readies := map[1 := 1]),
                       n1.(l := Blocked(n1.l, {1}, map[]), readies := map[0 := 2])], sup);
    OneStep(c, st4, EnterBarrier(1), st5);
    var st6 := System([n0.(l := Blocked(n0.l, {0, 1}, map[1 := 1])),
                       n1.(l := Blocked(n1.l, {1}, map[]), readies := map[0 := 2])], sup);
    assert st5.nodes[0].readies - {1} == map[];
    OneStep(c, st5, DeliverReady(0, 1), st6);
    assert st6.nodes[1].readies - {0} == map[];
    OneStep(c, st6, DeliverReady(1, 0), BothReady());
    PathJoin(c, st4, [EnterBarrier(1)], st5, [DeliverReady(0, 1)], st6);
    steps := [EnterBarrier(1)] + [DeliverReady(0, 1)];
    PathJoin(c, st4, steps, st6, [DeliverReady(1, 0)], BothReady());
    steps := steps + [DeliverReady(1, 0)];
  }

  /** Shard 1 ships account 1 while the payment to it is still on its way. */
  function Shipped(): System {
    var st := BothReady();
    System([st.nodes[0].(parcelsIn := map[1 := SHIPPED]),
            st.nodes[1].(l := st.nodes[1].l.(pool := [], stage := Collecting))],
           st.sup)
  }

  /** Then it takes the payment in: no longer its own, and never to be credited. */
  function Misrouted(): System {
    var st := BothReady();
    System([st.nodes[0].(parcelsIn := map[1 := SHIPPED]),
            st.nodes[1].(l := st.nodes[1].l.(pool := [PAID], stage := Collecting, seqIDMap := map[0 := 1]),
                         relays := [[], []])],
           st.sup)
  }

  /** The pool of account 1 goes with the account. */
  lemma QueueMoves()
    ensures var cls := MoveClass(MOVE, map[], 2, 1); Part(cls, QUEUE, 0) == QUEUE && Part(cls, QUEUE, 1) == []
  {
    var cls := MoveClass(MOVE, map[], 2, 1);
    assert HomeShard(1, 2) == 1 && cls(FIRST) == 0 == cls(SECOND);
    assert QUEUE[1..] == [SECOND] && [SECOND][1..] == [];
    assert Part(cls, [SECOND], 0) == [SECOND] + Part(cls, [], 0) && Part(cls, [SECOND], 1) == [] + Part(cls, [], 1);
  }

  lemma ReachMisrouted() returns (steps: seq<Step>)
    ensures Path(TWO, BothReady(), steps, Misrouted())
  {
    PassAtOne();
    OneStep(TWO, Shipped(), DeliverRelay(1, 0), Misrouted());
    PathJoin(TWO, BothReady(), [PassBarrier(1)], Shipped(), [DeliverRelay(1, 0)], Misrouted());
    steps := [PassBarrier(1)] + [DeliverRelay(1, 0)];
  }

  lemma PassAtOne()
    ensures Path(TWO, BothReady(), [PassBarrier(1)], Shipped())
  {
    var l := BothReady().nodes[1].l;
    assert GetPartitionReady(l, 2);
    assert HomeShard(1, 2) == 1;
    QueueMoves();
    assert ParcelFor(l, 2, 0) == SHIPPED;
    OneStep(TWO, BothReady(), PassBarrier(1), Shipped());
  }

  lemma Append(c: Config, a: System, xs: seq<Step>, b: System, step: Step, d: System)
    requires c.n > 0 && Path(c, a, xs, b) && Path(c, b, [step], d)
    ensures Path(c, a, xs + [step], d)
  {
    PathJoin(c, a, xs, b, [step], d);
  }

  const SHIPPED := Parcel(map[1 := INIT_BALANCE], QUEUE)
  const NOTHING := Parcel(map[], [])

  /** Both shards have shipped and collected. */
  function Collected(): System {
    var st := Misrouted();
    System([st.nodes[0].(l := st.nodes[0].l.(stage := Collecting, parcels := map[1 := SHIPPED], collectOver := true),
                         parcelsIn := map[]),
            st.nodes[1].(l := st.nodes[1].l.(parcels := map[0 := NOTHING], collectOver := true))],
           st.sup)
  }

  function BothShipped(): System {
    var st := Misrouted();
    System([st.nodes[0].(l := st.nodes[0].l.(stage := Collecting)), st.nodes[1].(parcelsIn := map[0 := NOTHING])],
           st.sup)
  }

  lemma PassAtZero()
    ensures Path(TWO, Misrouted(), [PassBarrier(0)], BothShipped())
  {
    var l := Misrouted().nodes[0].l;
    assert HomeShard(0, 2) == 0 && HomeShard(1, 2) == 1;
    assert ParcelFor(l, 2, 1) == NOTHING;
    assert Part(MoveClass(MOVE, map[], 2, 0), [], 0) == [];
    OneStep(TWO, Misrouted(), PassBarrier(0), BothShipped());
  }

  lemma ReachCollected() returns (steps: seq<Step>)
    ensures Path(TWO, Misrouted(), steps, Collected())
  {
    var c := TWO;
    var st0, st1 := Misrouted(), BothShipped();
    var n0, n1 := st0.nodes[0], st0.nodes[1];
    PassAtZero();
    var m0 := Collected().nodes[0];
    assert st1.nodes[0].parcelsIn - {1} == map[];
    var st2 := System([m0, n1.(parcelsIn := map[0 := NOTHING])], st0.sup);
    assert |map[1 := SHIPPED]| == 1;
    OneStep(c, st1, DeliverParcel(0, 1), st2);
    assert st2.nodes[1].parcelsIn - {0} == map[];
    assert |map[0 := NOTHING]| == 1;
    OneStep(c, st2, DeliverParcel(1, 0), Collected());
    steps := [PassBarrier(0)];
    Append(c, st0, steps, st1, DeliverParcel(0, 1), st2);
    steps := steps + [DeliverParcel(0, 1)];
    Append(c, st0, steps, st2, DeliverParcel(1, 0), Collected());
    steps := steps + [DeliverParcel(1, 0)];
  }

  /** Both shards have proposed their partition requests. */
  function Asked(): System {
    var st := Collected();
    System([st.nodes[0].(l := st.nodes[0].l.(pool := QUEUE,
                                             stage := PartitionPending(MOVE, map[1 := INIT_BALANCE], 1))),
            st.nodes[1].(l := st.nodes[1].l.(stage := PartitionPending(MOVE, map[], 1)))],
           st.sup)
  }

  lemma CollectedTxs(k: ShardId, p: Parcel)
    requires k < 2
    ensures ParcelTxs(map[k := p], 2) == p.txs
  {
    var ps: map<ShardId, Parcel> := map[k := p];
    assert ParcelTxs(ps, 1) == if k == 0 then p.txs else [];
    assert ParcelTxs(ps, 2) == ParcelTxs(ps, 1) + if k == 1 then p.txs else [];
  }

  /** Shard 0 has proposed its request, shard 1 not yet. */
  function HalfAsked(): System { System([Asked().nodes[0], Collected().nodes[1]], Collected().sup) }

  lemma AskedFirst()
    ensures Path(TWO, Collected(), [StartPartition(0, QUEUE, map[1 := INIT_BALANCE])], HalfAsked())
  {
    var l := Collected().nodes[0].l;
    CollectedTxs(1, SHIPPED);
    assert l.parcels[1].states[1] == INIT_BALANCE;
    assert IsMerge(map[1 := INIT_BALANCE], l.parcels);
    assert l.pool + QUEUE == QUEUE;
    OneStep(TWO, Collected(), StartPartition(0, QUEUE, map[1 := INIT_BALANCE]), HalfAsked());
  }

  lemma AskedSecond()
    ensures Path(TWO, HalfAsked(), [StartPartition(1, [], map[])], Asked())
  {
    CollectedTxs(0, NOTHING);
    OneStep(TWO, HalfAsked(), StartPartition(1, [], map[]), Asked());
  }

  lemma ReachAsked() returns (steps: seq<Step>)
    ensures Path(TWO, Collected(), steps, Asked())
  {
    AskedFirst();
    AskedSecond();
    steps := [StartPartition(0, QUEUE, map[1 := INIT_BALANCE])];
    Append(TWO, Collected(), steps, HalfAsked(), StartPartition(1, [], map[]), Asked());
    steps := steps + [StartPartition(1, [], map[])];
  }

  /** A leader after its partition request. */
  function After(l: Leader, trie: Trie, seqID: nat): Leader {
    l.(pm := MOVE, trie := trie, round := 1, parcels := map[], partitionOn := false, collectOver := false,
       partitionReady := {}, sequenceID := seqID, stage := Idle)
  }

  /** Both have applied them. */
  function Moved(): System {
    var st := Asked();
    System([st.nodes[0].(l := After(st.nodes[0].l, map[0 := INIT_BALANCE - 5, 1 := INIT_BALANCE], 3), applied := [1]),
            st.nodes[1].(l := After(st.nodes[1].l, map[], 2), applied := [1])],
           st.sup.(acksIn := {Ack(0, 0, 1), Ack(1, 0, 1)}))
  }

  lemma ReachMoved() returns (steps: seq<Step>)
    ensures Path(TWO, Asked(), steps, Moved())
  {
    HalfMovedFirst();
    HalfMovedSecond();
    steps := [FinishPartition(0)];
    Append(TWO, Asked(), steps, HalfMoved(), FinishPartition(1), Moved());
    steps := steps + [FinishPartition(1)];
  }

  function HalfMoved(): System {
    System([Moved().nodes[0], Asked().nodes[1]], Asked().sup.(acksIn := {Ack(0, 0, 1)}))
  }

  lemma HalfMovedFirst()
    ensures Path(TWO, Asked(), [FinishPartition(0)], HalfMoved())
  {
    FirstTransfer();
    OneStep(TWO, Asked(), FinishPartition(0), HalfMoved());
  }

  lemma AccountStored()
    ensures AddAccounts(map[0 := INIT_BALANCE - 5], MOVE, 2, 0, map[1 := INIT_BALANCE])
            == map[0 := INIT_BALANCE - 5, 1 := INIT_BALANCE]
  {
    assert Owner(MOVE, 2, 1) == 0;
  }

  lemma FirstTransfer()
    ensures TransferAccounts(Asked().nodes[0].l, 2)
            == After(Asked().nodes[0].l, map[0 := INIT_BALANCE - 5, 1 := INIT_BALANCE], 3)
  {
    AccountStored();
    assert map[] + MOVE == MOVE;
  }

  lemma HalfMovedSecond()
    ensures Path(TWO, HalfMoved(), [FinishPartition(1)], Moved())
  {
    var l := Asked().nodes[1].l;
    assert map[] + MOVE == MOVE;
    assert AddAccounts(map[], MOVE, 2, 1, map[]) == map[];
    assert TransferAccounts(l, 2) == After(l, map[], 2);
    OneStep(TWO, HalfMoved(), FinishPartition(1), Moved());
  }

  /** The migration is over. */
  function Adopted(): System {
    Moved().(sup := Moved().sup.(placement := MOVE, current := None, completed := 1, acks := {(0, 0), (1, 0)},
                                 acksIn := {}))
  }

  lemma ReachAdopted() returns (steps: seq<Step>)
    ensures Path(TWO, Moved(), steps, Adopted())
  {
    var c := TWO;
    var st0 := Moved();
    var st1 := st0.(sup := st0.sup.(acks := {(0, 0)}, acksIn := {Ack(1, 0, 1)}));
    OneStep(c, st0, DeliverAck(Ack(0, 0, 1)), st1);
    var st2 := st0.(sup := st0.sup.(acks := {(0, 0), (1, 0)}, acksIn := {}));
    OneStep(c, st1, DeliverAck(Ack(1, 0, 1)), st2);
    assert |st2.sup.acks| == 2;
    assert map[] + MOVE == MOVE;
    OneStep(c, st2, FinishMigration, Adopted());
    steps := [DeliverAck(Ack(0, 0, 1))];
    Append(c, st0, steps, st1, DeliverAck(Ack(1, 0, 1)), st2);
    steps := steps + [DeliverAck(Ack(1, 0, 1))];
    Append(c, st0, steps, st2, FinishMigration, Adopted());
    steps := steps + [FinishMigration];
  }

  /** Shard 1 has executed a block with the payment, crediting and relaying nothing. */
  function Dropped(): System {
    var st := Adopted();
    System([st.nodes[0].(relays := [[], [Relay(2, [])]]),
            st.nodes[1].(l := st.nodes[1].l.(pool := [], sequenceID := 3))],
           st.sup.(infosIn := [[], []]))
  }

  /** Shard 0 has executed the payments that came with the account. */
  function Lost(): System {
    var st := Dropped();
    System([st.nodes[0].(l := st.nodes[0].l.(pool := [], trie := map[0 := INIT_BALANCE - 3, 1 := INIT_BALANCE - 2],
                                             sequenceID := 4)),
            st.nodes[1].(relays := [[Relay(3, [])], []])],
           st.sup.(done := QUEUE, infosIn := [[], [], QUEUE]))
  }

  lemma QueueExecuted()
    ensures var cls := FateClass(MOVE, 2, 0); Part(cls, QUEUE, 0) == QUEUE && Part(cls, QUEUE, 1) == []
    ensures ExecBlock(map[0 := INIT_BALANCE - 5, 1 := INIT_BALANCE], MOVE, 2, 0, QUEUE)
         == map[0 := INIT_BALANCE - 3, 1 := INIT_BALANCE - 2]
  {
    var cls := FateClass(MOVE, 2, 0);
    assert HomeShard(0, 2) == 0 && cls(FIRST) == 0 == cls(SECOND);
    assert QUEUE[1..] == [SECOND] && [SECOND][1..] == [];
    assert Part(cls, [SECOND], 0) == [SECOND] + Part(cls, [], 0) && Part(cls, [SECOND], 1) == [] + Part(cls, [], 1);
    var t0: Trie := map[0 := INIT_BALANCE - 5, 1 := INIT_BALANCE];
    var t1: Trie := map[0 := INIT_BALANCE - 4, 1 := INIT_BALANCE - 1];
    var t2: Trie := map[0 := INIT_BALANCE - 3, 1 := INIT_BALANCE - 2];
    assert ExecTx(t0, MOVE, 2, 0, FIRST) == t1 && ExecTx(t1, MOVE, 2, 0, SECOND) == t2;
    assert ExecBlock(t1, MOVE, 2, 0, [SECOND]) == ExecBlock(t2, MOVE, 2, 0, []);
  }

  /** The block is in consensus. */
  function Executing(): System {
    var st := Dropped();
    System([st.nodes[0].(l := st.nodes[0].l.(pool := [], stage := BlockPending(QUEUE))), st.nodes[1]], st.sup)
  }

  lemma ReachExecuting()
    ensures Path(TWO, Dropped(), [StartBlock(0, 2)], Executing())
  {
    OneStep(TWO, Dropped(), StartBlock(0, 2), Executing());
  }

  lemma QueueBlock()
    ensures var l := Executing().nodes[0].l;
            CommitBlock(l, 2) == Lost().nodes[0].l && RelayFor(l, 2, 1) == Relay(3, []) && Finals(l, 2) == QUEUE
  {
    QueueExecuted();
    assert Mark([]) == [];
  }

  /** Shard 0 commits its block: nothing goes to shard 1. */
  lemma FinishBlockAtZero(st: System, st': System)
    requires |st.nodes| == 2 == |st'.nodes| && st.nodes[0].l.stage.BlockPending? && |st.nodes[1].relays| == 2
    requires st'.nodes[0] == st.nodes[0].(l := CommitBlock(st.nodes[0].l, 2))
    requires st'.nodes[1] == AddRelay(st.nodes[1], 0, RelayFor(st.nodes[0].l, 2, 1))
    requires var finals := Finals(st.nodes[0].l, 2);
             st'.sup == st.sup.(done := st.sup.done + finals, infosIn := st.sup.infosIn + [finals])
    ensures Path(TWO, st, [FinishBlock(0)], st')
  {
    var x := Apply(TWO, st, FinishBlock(0));
    assert x.nodes == st'.nodes;
    assert [FinishBlock(0)][1..] == [];
    assert Path(TWO, x, [FinishBlock(0)][1..], st');
  }

  lemma FinishLost()
    ensures Path(TWO, Executing(), [FinishBlock(0)], Lost())
  {
    QueueBlock();
    LostSupervisor();
    LostChannel();
    FinishBlockAtZero(Executing(), Lost());
  }

  lemma LostSupervisor()
    ensures var sup := Executing().sup;
            Lost().sup == sup.(done := sup.done + QUEUE, infosIn := sup.infosIn + [QUEUE])
  {}

  lemma LostChannel()
    ensures |Executing().nodes[1].relays| == 2 && Lost().nodes[1] == AddRelay(Executing().nodes[1], 0, Relay(3, []))
  {
    var nd := Executing().nodes[1];
    assert nd.relays == [[], []] && nd.relays[0] + [Relay(3, [])] == [Relay(3, [])];
    assert nd.relays[0 := [Relay(3, [])]] == [[Relay(3, [])], []];
  }

  lemma ReachLost() returns (steps: seq<Step>)
    ensures Path(TWO, Dropped(), steps, Lost())
  {
    ReachExecuting();
    FinishLost();
    steps := [StartBlock(0, 2)];
    Append(TWO, Dropped(), steps, Executing(), FinishBlock(0), Lost());
    steps := steps + [FinishBlock(0)];
  }

  lemma PaymentDropped()
    ensures FateOf(MOVE, 2, 1, PAID) == Incorrect
    ensures var cls := FateClass(MOVE, 2, 1); Part(cls, [PAID], 0) == [] && Part(cls, [PAID], 1) == []
    ensures ExecBlock(map[], MOVE, 2, 1, [PAID]) == map[]
  {
    var cls := FateClass(MOVE, 2, 1);
    assert cls(PAID) == 2;
    assert [PAID][1..] == [];
    assert Part(cls, [PAID], 0) == [] + Part(cls, [], 0) && Part(cls, [PAID], 1) == [] + Part(cls, [], 1);
    assert ExecBlock(map[], MOVE, 2, 1, [PAID]) == ExecBlock(ExecTx(map[], MOVE, 2, 1, PAID), MOVE, 2, 1, []);
  }

  lemma ReachDropped() returns (steps: seq<Step>)
    ensures Path(TWO, Adopted(), steps, Dropped())
  {
    var c := TWO;
    var st0 := Adopted();
    var n1 := st0.nodes[1];
    var st1 := System([st0.nodes[0], n1.(l := n1.l.(pool := [], stage := BlockPending([PAID])))], st0.sup);
    OneStep(c, st0, StartBlock(1, 1), st1);
    PaymentDropped();
    assert Mark([]) == [];
    assert RelayFor(st1.nodes[1].l, 2, 0) == Relay(2, []) && Finals(st1.nodes[1].l, 2) == [];
    OneStep(c, st1, FinishBlock(1), Dropped());
    steps := [StartBlock(1, 1)];
    Append(c, st0, steps, st1, FinishBlock(1), Dropped());
    steps := steps + [FinishBlock(1)];
  }

  predicate EmptyChannel(q: seq<Relay>) { q == [] || (|q| == 1 && q[0].txs == []) }

  lemma NothingLeft(nd: Node)
    requires nd.l.pool == [] && nd.l.stage.Idle? && nd.parcelsIn == map[] && nd.l.parcels == map[] && nd.fromSup == []
    requires |nd.relays| == 2 && forall j | 0 <= j < 2 :: EmptyChannel(nd.relays[j])
    ensures NodeTxs(nd, 2) == []
  {
    forall j | 0 <= j < 2 ensures FlatChannel(nd.relays[j]) == [] {
      assert EmptyChannel(nd.relays[j]);
      var q := nd.relays[j];
      if q != [] { assert FlatChannel(q) == q[0].txs + FlatChannel(q[1..]); }
    }
    assert ParcelTxs(map[], 2) == ParcelTxs(map[], 1) + [] && ParcelTxs(map[], 1) == ParcelTxs(map[], 0) + [];
    assert FlatRelays(nd.relays, 2) == FlatRelays(nd.relays, 1) + FlatChannel(nd.relays[1]);
    assert FlatRelays(nd.relays, 1) == FlatRelays(nd.relays, 0) + FlatChannel(nd.relays[0]);
  }

  lemma LostOutstanding()
    ensures Outstanding(TWO, Lost()) == []
  {
    var st := Lost();
    NothingLeft(st.nodes[0]);
    NothingLeft(st.nodes[1]);
    var ps := Contents(TWO, st);
    assert Concat(ps, 2) == Concat(ps, 1) + ps[1] && Concat(ps, 1) == Concat(ps, 0) + ps[0];
  }

  lemma LostBalances()
    ensures Replayed(ROWS, 1) == INIT_BALANCE + 3 && Balance(Lost().nodes[0].l.trie, 1) == INIT_BALANCE - 2
    ensures Replayed(ROWS, 0) == INIT_BALANCE - 3 && Balance(Lost().nodes[0].l.trie, 0) == INIT_BALANCE - 3
  {
    ReplayIsEffect(ROWS, 0);
    ReplayIsEffect(ROWS, 1);
    assert ROWS[1..] == QUEUE && QUEUE[1..] == [SECOND] && [SECOND][1..] == [];
    assert W(Effect(0), QUEUE) == 1 + W(Effect(0), [SECOND]) == 2;
    assert W(Effect(1), QUEUE) == -1 + W(Effect(1), [SECOND]) == -2;
  }

  /** A migration started before shard 1 has heard from shard 0: the barrier test passes
      although a relay is on its way; shard 1 takes the payment in after shipping the
      account, completes the migration and drops the payment in a later block, while the
      other payments go with the account and finish. The plan is the only one the committee
      can make of these senders with one account to move. */
  lemma ColdMigrationLosesPayment()
    ensures forall a | a in COUNTS :: COUNTS[a] == Committees.Sends(ROWS, a)
    ensures forall plan | Planned(plan) :: plan == MOVE
    ensures exists steps :: Path(TWO, Init(TWO), steps, BothReady())
    ensures GetPartitionReady(BothReady().nodes[1].l, 2) && BothReady().nodes[1].relays[0] != []
    ensures exists steps :: Path(TWO, Init(TWO), steps, Lost())
    ensures LostBadly(Lost())
  {
    var ready := ReachReady();
    var misrouted := ReachMisrouted();
    PathJoin(TWO, Init(TWO), ready, BothReady(), misrouted, Misrouted());
    var adopted := ReachOver(ready + misrouted);
    var lost := ReachEnd(adopted);
    TestPasses();
    LostFacts();
    CountsAreSends();
    forall plan | Planned(plan) ensures plan == MOVE { PlanIsForced(plan); }
  }

  lemma ReachReady() returns (steps: seq<Step>)
    ensures Path(TWO, Init(TWO), steps, BothReady())
  {
    steps := ReachAfterBlock();
    var more := ReachBothReady();
    PathJoin(TWO, Init(TWO), steps, AfterBlock(), more, BothReady());
    steps := steps + more;
  }

  lemma TestPasses()
    ensures GetPartitionReady(BothReady().nodes[1].l, 2) && BothReady().nodes[1].relays[0] != []
  {}

  lemma LostRecord()
    ensures var st := Lost();
            && |st.nodes| == 2 && st.sup.injected == ROWS && st.sup.current.None? && st.sup.done == QUEUE
            && Owner(st.sup.placement, 2, 1) == 0 == Owner(st.sup.placement, 2, 0)
  {
    assert HomeShard(0, 2) == 0;
  }

  lemma LostFacts()
    ensures LostBadly(Lost())
  {
    LostOutstanding();
    LostBalances();
    LostRecord();
  }

  /** Nothing is under way, the payment is not among the finished ones, its sender has
      the replayed balance and its recipient, at the shard that owns it, has not. */
  ghost predicate LostBadly(st: System) {
    && |st.nodes| == 2 && st.sup.injected == ROWS && st.sup.current.None?
    && Outstanding(TWO, st) == [] && st.sup.done == QUEUE
    && Owner(st.sup.placement, 2, 1) == 0 == Owner(st.sup.placement, 2, 0)
    && Balance(st.nodes[0].l.trie, 0) == Replayed(ROWS, 0)
    && Balance(st.nodes[0].l.trie, 1) != Replayed(ROWS, 1)
  }

  lemma ReachOver(xs: seq<Step>) returns (steps: seq<Step>)
    requires Path(TWO, Init(TWO), xs, Misrouted())
    ensures Path(TWO, Init(TWO), steps, Adopted())
  {
    steps := xs;
    var more := ReachCollected();
    PathJoin(TWO, Init(TWO), steps, Misrouted(), more, Collected());
    steps := steps + more;
    more := ReachAsked();
    PathJoin(TWO, Init(TWO), steps, Collected(), more, Asked());
    steps := steps + more;
    more := ReachMoved();
    PathJoin(TWO, Init(TWO), steps, Asked(), more, Moved());
    steps := steps + more;
    more := ReachAdopted();
    PathJoin(TWO, Init(TWO), steps, Moved(), more, Adopted());
    steps := steps + more;
  }

  lemma ReachEnd(xs: seq<Step>) returns (steps: seq<Step>)
    requires Path(TWO, Init(TWO), xs, Adopted())
    ensures Path(TWO, Init(TWO), steps, Lost())
  {
    var more := ReachDropped();
    PathJoin(TWO, Init(TWO), xs, Adopted(), more, Dropped());
    steps := xs + more;
    more := ReachLost();
    PathJoin(TWO, Init(TWO), steps, Dropped(), more, Lost());
    steps := steps + more;
  }
}
