/** The waits that module Pbft leaves out. A node keeps a stage; the handlers of
    proposals, prepares and commits wait for stage 1, 2 and 3 unless the message is out
    of date, and the leader proposes at stage 1 (consensus_shard/pbft_all/messageHandle.go).
    Every run with the waits is a run without them, so what holds of all runs holds of
    these; a run that shows something to be possible must be one of these. */
module PbftStages {
  import opened Pbft

  datatype Staged = Staged(s: System, stages: seq<nat>)

  function InitStaged(size: nat): Staged { Staged(Init(size), seq(size, _ => 1)) }

  /** The wait at the head of a handler is over. */
  predicate Passes(n: Node, stage: nat, m: Msg) {
    match m
    case PrePrepare(_, _, q) => stage >= 1 || q < n.sequenceID
    case Prepare(_, q, _) => stage >= 2 || q < n.sequenceID
    case Commit(_, q, _) => stage >= 3 || q < n.sequenceID
    case _ => true
  }

  /** Preparing and committing advance the stage, a decision returns it to 1. */
  function StageAfter(n: Node, f: nat, stage: nat, m: Msg): nat {
    match m
    case PrePrepare(r, d, q) => if HandlePrePrepare(n, r, d, q).sent != {} then stage + 1 else stage
    case Prepare(d, q, j) => if HandlePrepare(n, f, d, q, j).sent != {} then stage + 1 else stage
    case Commit(d, q, j) => if Decides(n, f, d, q, j) then 1 else stage
    case _ => stage
  }

  predicate StagedEnabled(x: Staged, step: Step) {
    && |x.stages| == |x.s.nodes| && Enabled(x.s, step)
    && match step
       case DoPropose(_, _) => x.stages[0] == 1
       case DoHandle(i, m) => Passes(x.s.nodes[i], x.stages[i], m)
  }

  function StagedApply(x: Staged, step: Step): Staged
    requires StagedEnabled(x, step)
  {
    Staged(Apply(x.s, step),
           match step
           case DoPropose(_, _) => x.stages[0 := 2]
           case DoHandle(i, m) => x.stages[i := StageAfter(x.s.nodes[i], Faults(|x.s.nodes|), x.stages[i], m)])
  }

  ghost predicate StagedNext(x: Staged, x': Staged) {
    exists step :: StagedEnabled(x, step) && x' == StagedApply(x, step)
  }

  ghost predicate StagedNextAt(run: seq<Staged>, k: nat)
    requires 0 < k < |run|
  {
    StagedNext(run[k - 1], run[k])
  }

  ghost predicate StagedRun(size: nat, run: seq<Staged>) {
    && |run| > 0 && run[0] == InitStaged(size)
    && forall k | 0 < k < |run| :: StagedNextAt(run, k)
  }

  /** The run without its stages. */
  function Plain(run: seq<Staged>): seq<System> { seq(|run|, k requires 0 <= k < |run| => run[k].s) }

  lemma StagedIsRun(size: nat, run: seq<Staged>)
    requires StagedRun(size, run)
    ensures Run(size, Plain(run))
  {
    forall k | 0 < k < |run| ensures NextAt(Plain(run), k) {
      assert StagedNextAt(run, k);
      PlainNext(run[k - 1], run[k]);
    }
  }

  lemma PlainNext(x: Staged, x': Staged)
    requires StagedNext(x, x')
    ensures Next(x.s, x'.s)
  {
    var step :| StagedEnabled(x, step) && x' == StagedApply(x, step);
    assert Enabled(x.s, step) && x'.s == Apply(x.s, step);
  }

  // ------------------------------------------------ building runs

  ghost predicate Ends(size: nat, run: seq<Staged>, x: Staged) {
    StagedRun(size, run) && run[|run| - 1] == x
  }

  lemma Then(size: nat, run: seq<Staged>, x: Staged, step: Step) returns (run': seq<Staged>)
    requires Ends(size, run, x) && StagedEnabled(x, step)
    ensures Ends(size, run', StagedApply(x, step))
  {
    run' := run + [StagedApply(x, step)];
    forall k | 0 < k < |run'| ensures StagedNextAt(run', k) {
      if k < |run| {
        assert StagedNextAt(run, k);
        assert run'[k - 1] == run[k - 1] && run'[k] == run[k];
      } else {
        assert run'[k - 1] == x && run'[k] == StagedApply(x, step);
      }
    }
  }
}
