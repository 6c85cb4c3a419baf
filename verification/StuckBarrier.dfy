/** A concrete run: a second migration asked for before the shards commit another block
    leaves a leader in its barrier loop with nothing more to wait for
    (consensus_shard/pbft_all/accountTransfer_module.go). */
module StuckBarrier {
  import opened Collections
  import opened Ledger
  import opened Leaders
  import opened Sharding
  import opened LostPayment

  /** The account that has just moved is sent back. */
  const BACK: PartitionMap := map[1 := 1]

  function Told(l: Leader): Leader { l.(modifiedMap := [MOVE, BACK], partitionOn := true) }

  function Held(l: Leader, heard: set<ShardId>, seqs: map<ShardId, nat>): Leader {
    Told(l).(partitionReady := heard, readySeq := seqs, stage := Waiting)
  }

  function Both(st: System, a: Node, b: Node): System {
    System([a, b], st.sup.(current := Some(BACK), acks := {}))
  }

  /** Both leaders know of the second migration. */
  function Notice(st: System): System
    requires |st.nodes| == 2
  {
    Both(st, st.nodes[0].(l := Told(st.nodes[0].l)), st.nodes[1].(l := Told(st.nodes[1].l)))
  }

  /** Both are in the barrier and have each other's ready message. */
  function Stuck(st: System): System
    requires |st.nodes| == 2
  {
    Both(st, st.nodes[0].(l := Held(st.nodes[0].l, {0, 1}, map[1 := 2])),
         st.nodes[1].(l := Held(st.nodes[1].l, {0, 1}, map[0 := 3])))
  }

  /** Between migrations: what the steps below read. */
  ghost predicate Rests(nd: Node, seqID: nat) {
    && nd.l.stage.Idle? && !nd.l.partitionOn && nd.l.partitionReady == {} && nd.l.modifiedMap == [MOVE]
    && nd.l.sequenceID == seqID && nd.fromSup == [] && nd.readies == map[] && |nd.relays| == 2
  }

  ghost predicate Settled(st: System) {
    && |st.nodes| == 2 && st.sup.current.None?
    && Rests(st.nodes[0], 3) && st.nodes[0].l.id == 0 && st.nodes[0].l.readySeq == map[1 := 1]
    && Rests(st.nodes[1], 2) && st.nodes[1].l.id == 1 && st.nodes[1].l.readySeq == map[0 := 2]
  }

  lemma ReachNotice(st: System) returns (steps: seq<Step>)
    requires Settled(st)
    ensures Path(TWO, st, steps, Notice(st))
  {
    var a, b := st.nodes[0], st.nodes[1];
    var st1 := Both(st, a.(fromSup := [PartitionMsg(BACK)]), b.(fromSup := [PartitionMsg(BACK)]));
    OneStep(TWO, st, StartMigration(BACK), st1);
    var st2 := Both(st, a.(l := Told(a.l)), b.(fromSup := [PartitionMsg(BACK)]));
    assert [MOVE] + [BACK] == [MOVE, BACK];
    OneStep(TWO, st1, DeliverFromSup(0), st2);
    OneStep(TWO, st2, DeliverFromSup(1), Notice(st));
    steps := [StartMigration(BACK)];
    Append(TWO, st, steps, st1, DeliverFromSup(0), st2);
    steps := steps + [DeliverFromSup(0)];
    Append(TWO, st, steps, st2, DeliverFromSup(1), Notice(st));
    steps := steps + [DeliverFromSup(1)];
  }

  /** Both have announced themselves; the messages are on their way. */
  function Announced(st: System): System
    requires |st.nodes| == 2
  {
    var a, b := st.nodes[0], st.nodes[1];
    Both(st, a.(l := Held(a.l, {0}, a.l.readySeq), readies := map[1 := 2]),
         b.(l := Held(b.l, {1}, b.l.readySeq), readies := map[0 := 3]))
  }

  lemma ReachAnnounced(st: System) returns (steps: seq<Step>)
    requires Settled(st)
    ensures Path(TWO, Notice(st), steps, Announced(st))
  {
    var a, b := st.nodes[0], st.nodes[1];
    var st1 := Both(st, a.(l := Held(a.l, {0}, a.l.readySeq)), b.(l := Told(b.l), readies := map[0 := 3]));
    OneStep(TWO, Notice(st), EnterBarrier(0), st1);
    OneStep(TWO, st1, EnterBarrier(1), Announced(st));
    steps := [EnterBarrier(0)];
    Append(TWO, Notice(st), steps, st1, EnterBarrier(1), Announced(st));
    steps := steps + [EnterBarrier(1)];
  }

  lemma ReachStuck(st: System) returns (steps: seq<Step>)
    requires Settled(st)
    ensures Path(TWO, Announced(st), steps, Stuck(st))
  {
    FirstHeard(st);
    SecondHeard(st);
    steps := [DeliverReady(0, 1)];
    Append(TWO, Announced(st), steps, HalfHeard(st), DeliverReady(1, 0), Stuck(st));
    steps := steps + [DeliverReady(1, 0)];
  }

  function HalfHeard(st: System): System
    requires |st.nodes| == 2
  {
    Both(st, Stuck(st).nodes[0], Announced(st).nodes[1])
  }

  lemma FirstHeard(st: System)
    requires Settled(st)
    ensures Path(TWO, Announced(st), [DeliverReady(0, 1)], HalfHeard(st))
  {
    assert Announced(st).nodes[0].readies - {1} == map[];
    OneStep(TWO, Announced(st), DeliverReady(0, 1), HalfHeard(st));
  }

  lemma SecondHeard(st: System)
    requires Settled(st)
    ensures Path(TWO, HalfHeard(st), [DeliverReady(1, 0)], Stuck(st))
  {
    assert HalfHeard(st).nodes[1].readies - {0} == map[];
    OneStep(TWO, HalfHeard(st), DeliverReady(1, 0), Stuck(st));
  }

  lemma AdoptedSettled()
    ensures Settled(Adopted()) && Adopted().nodes[1].l.seqIDMap == map[0 := 1] && Adopted().nodes[1].relays == [[], []]
  {}

  /** Neither shard has committed a block since the first migration. The leader of shard 1
      has handled every relay and every ready message there is, from a shard that is itself
      in the barrier, and its test fails. */
  lemma SecondMigrationStalls()
    ensures exists steps :: Path(TWO, Init(TWO), steps, Stuck(Adopted()))
    ensures Stalled(Stuck(Adopted()))
  {
    var ready := ReachReady();
    var misrouted := ReachMisrouted();
    PathJoin(TWO, Init(TWO), ready, BothReady(), misrouted, Misrouted());
    var first := ReachOver(ready + misrouted);
    AdoptedSettled();
    var second := ReachSecond(Adopted());
    PathJoin(TWO, Init(TWO), first, Adopted(), second, Stuck(Adopted()));
    var l := Stuck(Adopted()).nodes[1].l;
    assert 0 in l.seqIDMap && l.readySeq[0] == 3;
  }

  ghost predicate Stalled(st: System) {
    && |st.nodes| == 2 && st.nodes[0].l.stage.Waiting? && st.nodes[1].l.stage.Waiting?
    && st.nodes[1].relays == [[], []] && st.nodes[1].readies == map[] && st.nodes[1].l.partitionReady == {0, 1}
    && !GetPartitionReady(st.nodes[1].l, 2)
  }

  lemma ReachSecond(st: System) returns (steps: seq<Step>)
    requires Settled(st)
    ensures Path(TWO, st, steps, Stuck(st))
  {
    var told := ReachNotice(st);
    var announced := ReachAnnounced(st);
    PathJoin(TWO, st, told, Notice(st), announced, Announced(st));
    var stuck := ReachStuck(st);
    PathJoin(TWO, st, told + announced, Announced(st), stuck, Stuck(st));
    steps := told + announced + stuck;
  }
}
