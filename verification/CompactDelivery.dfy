/** The other half of the refinement: whatever a leader proposes, compact or in full,
    every node can still be brought to hand on. */
module CompactDelivery {
  import opened Collections
  import opened Compact

  function Last(run: seq<System>): System
    requires run != []
  {
    run[|run| - 1]
  }

  /** run' continues run. */
  ghost predicate Continues(size: nat, run: seq<System>, run': seq<System>) {
    Run(size, run') && |run| <= |run'| && run'[..|run|] == run
  }

  lemma Then(size: nat, run: seq<System>, step: Step) returns (run': seq<System>)
    requires Run(size, run) && Enabled(Last(run), step)
    ensures Continues(size, run, run') && Last(run') == Apply(Last(run), step)
  {
    run' := run + [Apply(Last(run), step)];
    forall k | 0 < k < |run'| ensures NextAt(run', k) {
      if k < |run| { assert NextAt(run, k); }
    }
  }

  lemma ContinuesOn(size: nat, a: seq<System>, b: seq<System>, c: seq<System>)
    requires Continues(size, a, b) && Continues(size, b, c)
    ensures Continues(size, a, c)
  {
    assert c[..|a|] == c[..|b|][..|a|];
  }

  // ------------------------------------------------ single steps

  /** A finished recovery hands on the proposal it was started for. */
  lemma FinishDelivers(s: System, i: nat, j: Job, pp: PrePrepare)
    requires Inv(s) && Enabled(s, DoFinish(i, j)) && Stands(j.proposal, pp)
    ensures i < |Apply(s, DoFinish(i, j)).nodes| && pp in Apply(s, DoFinish(i, j)).nodes[i].delivered
  {
    assert NodeOk(s.nodes[i], s.nodes, s.proposed) && JobOk(j, s.nodes, s.proposed);
    RebuildIsOriginal(j, pp);
  }

  lemma FullDelivers(s: System, i: nat, m: Msg)
    requires Enabled(s, DoDeliverFull(i, m))
    ensures m.prePrepare in Apply(s, DoDeliverFull(i, m)).nodes[i].delivered
  {
  }

  /** A recovery with its bodies in the cache takes the next one. */
  lemma TakeNext(s: System, i: nat, j: Job) returns (j': Job)
    requires Inv(s) && i < |s.nodes| && j in s.nodes[i].jobs && Holds(s.nodes[i].cache, j.proposal.keys)
    requires |j.got| < |j.proposal.keys|
    ensures Enabled(s, DoTake(i, j))
    ensures var n := Apply(s, DoTake(i, j)).nodes[i];
            && j' in n.jobs && j'.proposal == j.proposal && |j'.got| == |j.got| + 1
            && n.cache == s.nodes[i].cache
  {
    var n, cp, l := s.nodes[i], j.proposal, |j.got|;
    assert cp.keys[l] in n.cache;
    assert NodeOk(n, s.nodes, s.proposed) && JobOk(j, s.nodes, s.proposed);
    var pp :| pp in s.proposed && Stands(cp, pp);
    var tx := pp.request.content.block.body[l];
    assert cp.keys[l] == Key(TxBytes(tx)) && n.cache[cp.keys[l]] == TxBytes(tx);
    j' := j.(got := j.got + [tx]);
  }

  /** With all its bodies cached a recovery can run to the end. */
  lemma {:induction false} RecoveryEnds(size: nat, run: seq<System>, i: nat, j: Job, pp: PrePrepare)
    returns (run': seq<System>)
    requires Run(size, run) && i < size && i < |Last(run).nodes| && j in Last(run).nodes[i].jobs
    requires Holds(Last(run).nodes[i].cache, j.proposal.keys) && Stands(j.proposal, pp)
    ensures Continues(size, run, run') && i < |Last(run').nodes| && pp in Last(run').nodes[i].delivered
    decreases |j.proposal.keys| - |j.got|
  {
    RunInv(size, run, |run| - 1);
    var s := Last(run);
    assert NodeOk(s.nodes[i], s.nodes, s.proposed) && JobOk(j, s.nodes, s.proposed);
    if |j.got| == |j.proposal.keys| {
      FinishDelivers(s, i, j, pp);
      run' := Then(size, run, DoFinish(i, j));
    } else {
      var j' := TakeNext(s, i, j);
      var run1 := Then(size, run, DoTake(i, j));
      run' := RecoveryEnds(size, run1, i, j', pp);
      ContinuesOn(size, run, run1, run');
    }
  }

  // ------------------------------------------------ fetching what is lacking

  /** A recovery that lacks nothing has its keys; one that lacks some asks its leader. */
  lemma StartAsks(s: System, i: nat, m: Msg)
    requires Inv(s) && Enabled(s, DoStart(i, m))
    ensures var s' := Apply(s, DoStart(i, m)); var cp := m.proposal; var lacking := Lacking(s.nodes[i].cache, cp.keys);
            && i < |s'.nodes| && Job(cp, lacking, []) in s'.nodes[i].jobs && s'.nodes[i].cache == s.nodes[i].cache
            && (lacking == [] ==> Holds(s'.nodes[i].cache, cp.keys))
            && (lacking != [] ==> Missing(lacking, i, cp.leader) in s'.net)
  {
    var cache, keys := s.nodes[i].cache, m.proposal.keys;
    if Lacking(cache, keys) == [] {
      forall k | 0 <= k < |keys| ensures keys[k] in cache { LackingIs(cache, keys, keys[k]); }
    }
  }

  /** The leader's answer, once cached, completes the keys. */
  lemma AnswerFills(size: nat, run: seq<System>, i: nat, m: Msg, cp: Proposal, before: Cache)
    returns (run': seq<System>)
    requires Run(size, run) && i < size && i < |Last(run).nodes| && m in Last(run).net
    requires ProposalOk(cp, Last(run).nodes, Last(run).proposed)
    requires m == Missing(Lacking(before, cp.keys), i, cp.leader) && before.Keys <= Last(run).nodes[i].cache.Keys
    ensures Continues(size, run, run') && i < |Last(run').nodes| && Holds(Last(run').nodes[i].cache, cp.keys)
    ensures Last(run').nodes[i].jobs == Last(run).nodes[i].jobs
  {
    RunInv(size, run, |run| - 1);
    var s := Last(run);
    assert MsgOk(m, s.nodes, s.proposed);
    AnswerKeeps(s, cp.leader, m);
    var bodies := Lookup(s.nodes[cp.leader].cache, m.keys).value;
    var run1 := Then(size, run, DoAnswer(cp.leader, m));
    var s1 := Last(run1);
    assert s1.nodes == s.nodes && Bodies(bodies, i) in s1.net;
    run' := Then(size, run1, DoCache(i, Bodies(bodies, i)));
    ContinuesOn(size, run, run1, run');
    assert NodeOk(s.nodes[cp.leader], s.nodes, s.proposed) && NodeOk(s.nodes[i], s.nodes, s.proposed);
    RecoveryCompletes(s.nodes[cp.leader].cache, before, s.nodes[i].cache, cp.keys);
  }

  /** From every state of every run, any compact proposal under way can be handed on by
      any node: it starts a recovery, asks for what it lacks, gets it and finishes. */
  lemma CompactDeliverable(size: nat, run: seq<System>, i: nat, m: Msg, pp: PrePrepare) returns (run': seq<System>)
    requires Run(size, run) && i < size && m in Last(run).net && m.Compacted? && Stands(m.proposal, pp)
    ensures Continues(size, run, run') && i < |Last(run').nodes| && pp in Last(run').nodes[i].delivered
  {
    RunInv(size, run, |run| - 1);
    var s, cp := Last(run), m.proposal;
    var before := s.nodes[i].cache;
    var job := Job(cp, Lacking(before, cp.keys), []);
    StartAsks(s, i, m);
    var run1 := Then(size, run, DoStart(i, m));
    var run2 := run1;
    if job.lacking != [] {
      RunInv(size, run1, |run1| - 1);
      var s1 := Last(run1);
      assert NodeOk(s1.nodes[i], s1.nodes, s1.proposed) && JobOk(job, s1.nodes, s1.proposed);
      run2 := AnswerFills(size, run1, i, Missing(job.lacking, i, cp.leader), cp, before);
    }
    ContinuesOn(size, run, run1, run2);
    run' := RecoveryEnds(size, run2, i, job, pp);
    ContinuesOn(size, run, run2, run');
  }

  // ------------------------------------------------ every proposal

  ghost predicate Sent(net: set<Msg>, pp: PrePrepare) {
    || Full(pp) in net
    || exists cp :: Compacted(cp) in net && Stands(cp, pp)
  }

  lemma SentStays(net: set<Msg>, net': set<Msg>, pp: PrePrepare)
    requires Sent(net, pp) && net <= net'
    ensures Sent(net', pp)
  {
    if Full(pp) !in net {
      var cp :| Compacted(cp) in net && Stands(cp, pp);
      assert Compacted(cp) in net';
    }
  }

  lemma NextSent(s: System, s': System)
    requires Next(s, s') && forall pp | pp in s.proposed :: Sent(s.net, pp)
    ensures forall pp | pp in s'.proposed :: Sent(s'.net, pp)
  {
    var step :| Enabled(s, step) && s' == Apply(s, step);
    assert s.net <= s'.net;
    forall pp | pp in s'.proposed ensures Sent(s'.net, pp) {
      if pp in s.proposed { SentStays(s.net, s'.net, pp); } else { ProposalSent(s, step, pp); }
    }
  }

  lemma ProposalSent(s: System, step: Step, pp: PrePrepare)
    requires Enabled(s, step) && pp in Apply(s, step).proposed && pp !in s.proposed
    ensures Sent(Apply(s, step).net, pp)
  {
    assert step.DoPropose? && step.pp == pp;
    if pp.request.kind == BlockRequest {
      var cp := CompactOf(pp, step.node);
      assert Stands(cp, pp) && Compacted(cp) in Apply(s, step).net;
    }
  }

  lemma {:induction false} RunSent(size: nat, run: seq<System>, k: nat)
    requires Run(size, run) && k < |run|
    ensures forall pp | pp in run[k].proposed :: Sent(run[k].net, pp)
  {
    if k > 0 {
      RunSent(size, run, k - 1);
      assert NextAt(run, k);
      NextSent(run[k - 1], run[k]);
    }
  }

  /** The refinement in the other direction: from every state of every run, everything a
      leader has proposed can still be handed on by every node. */
  lemma EveryProposalDeliverable(size: nat, run: seq<System>, i: nat, pp: PrePrepare) returns (run': seq<System>)
    requires Run(size, run) && i < size && pp in Last(run).proposed
    ensures Continues(size, run, run') && i < |Last(run').nodes| && pp in Last(run').nodes[i].delivered
  {
    RunSent(size, run, |run| - 1);
    RunInv(size, run, |run| - 1);
    if Full(pp) in Last(run).net {
      run' := Then(size, run, DoDeliverFull(i, Full(pp)));
    } else {
      var cp :| Compacted(cp) in Last(run).net && Stands(cp, pp);
      run' := CompactDeliverable(size, run, i, Compacted(cp), pp);
    }
  }

  /** No message carries a block in full, and a compact proposal carries no content. */
  ghost predicate Light(net: set<Msg>) {
    forall m | m in net ::
      && (m.Full? ==> m.prePrepare.request.kind == PartitionReq)
      && (m.Compacted? ==> m.proposal.prePrepare.request.content == NoContent)
  }

  lemma {:induction false} BlocksTravelCompact(size: nat, run: seq<System>, k: nat)
    requires Run(size, run) && k < |run|
    ensures Light(run[k].net)
  {
    if k > 0 {
      BlocksTravelCompact(size, run, k - 1);
      assert NextAt(run, k);
      NextLight(run[k - 1], run[k]);
    }
  }

  lemma NextLight(s: System, s': System)
    requires Next(s, s') && Light(s.net)
    ensures Light(s'.net)
  {
    var step :| Enabled(s, step) && s' == Apply(s, step);
  }
}
