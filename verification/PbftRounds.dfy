/** Rounds can be completed: whenever the leader and enough other nodes are level, the next
    proposal can be brought through by them alone, within the waits of the handlers. */
module PbftRounds {
  import Collections
  import opened Pbft
  import opened PbftSafety
  import opened PbftProgress
  import opened PbftStages

  function Last(run: seq<Staged>): Staged
    requires run != []
  {
    run[|run| - 1]
  }

  ghost predicate Continues(size: nat, run: seq<Staged>, run': seq<Staged>) {
    StagedRun(size, run') && |run| <= |run'| && run'[..|run|] == run
  }

  lemma ContinuesOn(size: nat, a: seq<Staged>, b: seq<Staged>, c: seq<Staged>)
    requires Continues(size, a, b) && Continues(size, b, c)
    ensures Continues(size, a, c)
  {
    assert c[..|a|] == c[..|b|][..|a|];
  }

  lemma Step1(size: nat, run: seq<Staged>, step: Step) returns (run': seq<Staged>)
    requires StagedRun(size, run) && StagedEnabled(Last(run), step)
    ensures Continues(size, run, run') && Last(run') == StagedApply(Last(run), step)
  {
    run' := run + [StagedApply(Last(run), step)];
    forall k | 0 < k < |run'| ensures StagedNextAt(run', k) {
      if k < |run| { assert StagedNextAt(run, k); }
    }
  }

  /** What holds of every run holds where this one stands. */
  lemma Here(size: nat, run: seq<Staged>)
    requires size > 0 && StagedRun(size, run)
    ensures Run(size, Plain(run)) && |Plain(run)| == |run| && Plain(run)[|run| - 1] == Last(run).s
    ensures Inv(Last(run).s) && |Last(run).s.nodes| == size
  {
    StagedIsRun(size, run);
    RunInv(size, Plain(run), |run| - 1);
  }

  /** Only node i has changed, and messages have been added. */
  ghost predicate Only(x: Staged, x': Staged, i: nat) {
    && |x'.s.nodes| == |x.s.nodes| == |x'.stages| == |x.stages| && x.s.net <= x'.s.net && x'.s.issued == x.s.issued
    && forall j | 0 <= j < |x.s.nodes| && j != i :: x'.s.nodes[j] == x.s.nodes[j] && x'.stages[j] == x.stages[j]
  }

  ghost predicate Sized(size: nat, x: Staged) { |x.s.nodes| == |x.stages| == size > 0 }

  // ------------------------------------------------ one node in the round of r

  /** The node is at height h, has not decided r, and its stage shows whether it has
      committed to r. */
  ghost predicate Fresh(n: Node, stage: nat, r: Request, h: nat) {
    n.sequenceID == h && |n.chain| == h && r !in n.isReply && stage >= 1 && (r in n.isCommitBroadcast ==> stage >= 3)
  }

  ghost predicate FreshAt(x: Staged, i: nat, r: Request, h: nat)
    requires i < |x.s.nodes| == |x.stages|
  {
    Fresh(x.s.nodes[i], x.stages[i], r, h)
  }

  ghost predicate Decided(n: Node, stage: nat, r: Request, h: nat) {
    n.sequenceID == h + 1 && |n.chain| == h + 1 && r in n.applied && stage == 1
  }

  /** It takes the proposal and prepares it. */
  lemma Prepares(size: nat, run: seq<Staged>, i: nat, r: Request, h: nat) returns (run': seq<Staged>)
    requires StagedRun(size, run) && Sized(size, Last(run)) && i < size
    requires PrePrepare(r, r, h) in Last(run).s.net && IsProposal(Last(run).s.issued, r, h)
    requires FreshAt(Last(run), i, r, h)
    ensures Continues(size, run, run') && Only(Last(run), Last(run'), i) && FreshAt(Last(run'), i, r, h)
    ensures var x := Last(run');
            r in x.s.nodes[i].requestPool && Prepare(r, h, i) in x.s.net && x.stages[i] >= 2
  {
    Here(size, run);
    var s := Last(run).s;
    assert NodeInv(s.nodes[i], i, Faults(size), s.net, s.issued);
    ValidProposal(s.nodes[i], s.issued, r, h);
    run' := Step1(size, run, DoHandle(i, PrePrepare(r, r, h)));
  }

  /** Ready to count prepares. */
  ghost predicate Counting(n: Node, stage: nat, r: Request, h: nat) {
    Fresh(n, stage, r, h) && r in n.requestPool && stage >= 2
  }

  lemma CountPrepare(n: Node, f: nat, stage: nat, r: Request, h: nat, j: nat)
    requires Counting(n, stage, r, h)
    ensures var n' := HandlePrepare(n, f, r, h, j).node;
            && Counting(n', StageAfter(n, f, stage, Prepare(r, h, j)), r, h)
            && VotesFor(n'.prepares, r) == VotesFor(n.prepares, r) + {j}
  {
  }

  /** It counts the prepares of all of q. */
  lemma {:induction false} CountsPrepares(size: nat, run: seq<Staged>, i: nat, r: Request, h: nat, q: set<nat>,
                                          todo: set<nat>) returns (run': seq<Staged>)
    requires StagedRun(size, run) && Sized(size, Last(run)) && i < size && todo <= q
    requires forall j | j in q :: Prepare(r, h, j) in Last(run).s.net
    requires Counting(Last(run).s.nodes[i], Last(run).stages[i], r, h)
    requires q - todo <= VotesFor(Last(run).s.nodes[i].prepares, r)
    ensures Continues(size, run, run') && Only(Last(run), Last(run'), i)
    ensures Counting(Last(run').s.nodes[i], Last(run').stages[i], r, h)
    ensures q <= VotesFor(Last(run').s.nodes[i].prepares, r)
    decreases todo
  {
    if todo == {} {
      run' := run;
      assert q - todo == q;
    } else {
      var j :| j in todo;
      var x := Last(run);
      CountPrepare(x.s.nodes[i], Faults(size), x.stages[i], r, h, j);
      var run1 := Step1(size, run, DoHandle(i, Prepare(r, h, j)));
      run' := CountsPrepares(size, run1, i, r, h, q, todo - {j});
      ContinuesOn(size, run, run1, run');
    }
  }

  /** It commits once it has them. */
  lemma Commits(size: nat, run: seq<Staged>, i: nat, r: Request, h: nat, q: set<nat>) returns (run': seq<Staged>)
    requires StagedRun(size, run) && Sized(size, Last(run)) && i < size && |q| >= 2 * Faults(size) + 1
    requires IsProposal(Last(run).s.issued, r, h) && forall j | j in q :: Prepare(r, h, j) in Last(run).s.net
    requires Counting(Last(run).s.nodes[i], Last(run).stages[i], r, h)
    ensures Continues(size, run, run') && Only(Last(run), Last(run'), i)
    ensures var x := Last(run');
            Counting(x.s.nodes[i], x.stages[i], r, h) && x.stages[i] >= 3 && Commit(r, h, i) in x.s.net
  {
    run' := CountsPrepares(size, run, i, r, h, q, q);
    EnoughToCommit(size, run', i, r, h, q);
  }

  lemma EnoughToCommit(size: nat, run: seq<Staged>, i: nat, r: Request, h: nat, q: set<nat>)
    requires StagedRun(size, run) && Sized(size, Last(run)) && i < size && |q| >= 2 * Faults(size) + 1
    requires IsProposal(Last(run).s.issued, r, h) && q <= VotesFor(Last(run).s.nodes[i].prepares, r)
    ensures Commit(r, h, i) in Last(run).s.net && r in Last(run).s.nodes[i].isCommitBroadcast
  {
    Here(size, run);
    ProposalAt(Last(run).s.issued, r, h);
    Collections.SubsetSize(q, VotesFor(Last(run).s.nodes[i].prepares, r));
    QuorumsAreEnough(size, Plain(run), |run| - 1, i, r);
    assert SentCommit(Last(run).s.net, r, i);
    RunActs(size, Plain(run), |run| - 1);
    assert Acts(Last(run).s.nodes[i], Faults(size), Last(run).s.net);
  }

  /** Ready to count commits. */
  ghost predicate Voting(n: Node, stage: nat, r: Request, h: nat) {
    Counting(n, stage, r, h) && stage >= 3
  }

  /** A counted commit decides or leaves the node as it was. */
  lemma CountCommit(n: Node, f: nat, stage: nat, issued: seq<Request>, r: Request, h: nat, j: nat)
    requires Linked(issued) && ChainOk(n.chain, issued) && IsProposal(issued, r, h) && Voting(n, stage, r, h)
    ensures var n', stage' := HandleCommit(n, f, r, h, j).node, StageAfter(n, f, stage, Commit(r, h, j));
            || Decided(n', stage', r, h)
            || (Voting(n', stage', r, h) && VotesFor(n'.commits, r) == VotesFor(n.commits, r) + {j})
  {
    if Decides(n, f, r, h, j) {
      DecisionAdds(n.(commits := AddVote(n.commits, r, j)), issued, r, h);
    } else {
      assert HandleCommit(n, f, r, h, j).node == n.(commits := AddVote(n.commits, r, j));
    }
  }

  lemma DecisionAdds(n: Node, issued: seq<Request>, r: Request, h: nat)
    requires Linked(issued) && ChainOk(n.chain, issued) && IsProposal(issued, r, h)
    requires n.sequenceID == h && |n.chain| == h && r in n.requestPool
    ensures Decided(Decide(n, r, h).node, 1, r, h)
  {
    AddProposal(n.(isReply := n.isReply + {r}, locked := if n.id == 0 then false else n.locked), issued, r, h);
  }

  lemma AnsweredByNow(size: nat, run: seq<Staged>, i: nat, r: Request, q: set<nat>)
    requires StagedRun(size, run) && Sized(size, Last(run)) && i < size && |q| >= 2 * Faults(size) + 1
    requires q <= VotesFor(Last(run).s.nodes[i].commits, r)
    ensures r in Last(run).s.nodes[i].isReply
  {
    Here(size, run);
    Collections.SubsetSize(q, VotesFor(Last(run).s.nodes[i].commits, r));
    QuorumsAreEnough(size, Plain(run), |run| - 1, i, r);
  }

  lemma OneCommit(size: nat, run: seq<Staged>, i: nat, r: Request, h: nat, j: nat) returns (run': seq<Staged>)
    requires StagedRun(size, run) && Sized(size, Last(run)) && i < size
    requires Commit(r, h, j) in Last(run).s.net && IsProposal(Last(run).s.issued, r, h)
    requires Voting(Last(run).s.nodes[i], Last(run).stages[i], r, h)
    ensures Continues(size, run, run') && Only(Last(run), Last(run'), i)
    ensures var n, n', stage' := Last(run).s.nodes[i], Last(run').s.nodes[i], Last(run').stages[i];
            || Decided(n', stage', r, h)
            || (Voting(n', stage', r, h) && VotesFor(n'.commits, r) == VotesFor(n.commits, r) + {j})
  {
    var x := Last(run);
    Here(size, run);
    assert NodeInv(x.s.nodes[i], i, Faults(size), x.s.net, x.s.issued);
    CountCommit(x.s.nodes[i], Faults(size), x.stages[i], x.s.issued, r, h, j);
    run' := Step1(size, run, DoHandle(i, Commit(r, h, j)));
  }

  /** It counts the commits of q until it has decided. */
  lemma {:induction false} CountsCommits(size: nat, run: seq<Staged>, i: nat, r: Request, h: nat, q: set<nat>,
                                         todo: set<nat>) returns (run': seq<Staged>)
    requires StagedRun(size, run) && Sized(size, Last(run)) && i < size && todo <= q
    requires |q| >= 2 * Faults(size) + 1 && IsProposal(Last(run).s.issued, r, h)
    requires forall j | j in q :: Commit(r, h, j) in Last(run).s.net
    requires Voting(Last(run).s.nodes[i], Last(run).stages[i], r, h)
    requires q - todo <= VotesFor(Last(run).s.nodes[i].commits, r)
    ensures Continues(size, run, run') && Only(Last(run), Last(run'), i)
    ensures Decided(Last(run').s.nodes[i], Last(run').stages[i], r, h)
    decreases todo
  {
    if todo == {} {
      assert q - todo == q;
      AnsweredByNow(size, run, i, r, q);
      assert false;
    } else {
      var j :| j in todo;
      var run1 := OneCommit(size, run, i, r, h, j);
      run' := run1;
      if !Decided(Last(run1).s.nodes[i], Last(run1).stages[i], r, h) {
        run' := CountsCommits(size, run1, i, r, h, q, todo - {j});
        ContinuesOn(size, run, run1, run');
      }
    }
  }

  // ------------------------------------------------ all of q

  datatype Phase = Preparing | Committing | Deciding

  /** What a phase has reached at the nodes that are done with it. */
  ghost predicate At(x: Staged, i: nat, r: Request, h: nat, phase: Phase)
    requires i < |x.s.nodes| == |x.stages|
  {
    var n, stage := x.s.nodes[i], x.stages[i];
    match phase
    case Preparing => Counting(n, stage, r, h) && Prepare(r, h, i) in x.s.net
    case Committing => Voting(n, stage, r, h) && Commit(r, h, i) in x.s.net
    case Deciding => Decided(n, stage, r, h)
  }

  /** What it needs at the nodes that are not. */
  ghost predicate Before(x: Staged, i: nat, r: Request, h: nat, phase: Phase)
    requires i < |x.s.nodes| == |x.stages|
  {
    var n, stage := x.s.nodes[i], x.stages[i];
    match phase
    case Preparing => Fresh(n, stage, r, h)
    case Committing => Counting(n, stage, r, h)
    case Deciding => Voting(n, stage, r, h)
  }

  /** What every node of q has sent in the phase before. */
  ghost predicate Inputs(net: set<Msg>, q: set<nat>, r: Request, h: nat, phase: Phase) {
    match phase
    case Preparing => PrePrepare(r, r, h) in net
    case Committing => forall j | j in q :: Prepare(r, h, j) in net
    case Deciding => forall j | j in q :: Commit(r, h, j) in net
  }

  ghost predicate Partway(size: nat, x: Staged, q: set<nat>, todo: set<nat>, r: Request, h: nat, phase: Phase) {
    && Sized(size, x) && todo <= q && (forall i | i in q :: i < size) && |q| >= 2 * Faults(size) + 1
    && IsProposal(x.s.issued, r, h) && Inputs(x.s.net, q, r, h, phase)
    && (forall i | i in todo :: Before(x, i, r, h, phase)) && forall i | i in q && i !in todo :: At(x, i, r, h, phase)
  }

  lemma OneNode(size: nat, run: seq<Staged>, i: nat, r: Request, h: nat, q: set<nat>, phase: Phase)
    returns (run': seq<Staged>)
    requires StagedRun(size, run) && Sized(size, Last(run)) && i < size && |q| >= 2 * Faults(size) + 1
    requires IsProposal(Last(run).s.issued, r, h) && Inputs(Last(run).s.net, q, r, h, phase)
    requires Before(Last(run), i, r, h, phase)
    ensures Continues(size, run, run') && Only(Last(run), Last(run'), i) && At(Last(run'), i, r, h, phase)
  {
    match phase
    case Preparing => run' := Prepares(size, run, i, r, h);
    case Committing => run' := Commits(size, run, i, r, h, q);
    case Deciding => run' := CountsCommits(size, run, i, r, h, q, q);
  }

  lemma PartwayNext(size: nat, x: Staged, x': Staged, q: set<nat>, todo: set<nat>, r: Request, h: nat, phase: Phase,
                    i: nat)
    requires Partway(size, x, q, todo, r, h, phase) && i in todo && Only(x, x', i) && At(x', i, r, h, phase)
    ensures Partway(size, x', q, todo - {i}, r, h, phase)
  {
    forall k | k in todo - {i} ensures Before(x', k, r, h, phase) { assert Before(x, k, r, h, phase); }
    forall k | k in q && k !in todo - {i} ensures At(x', k, r, h, phase) {
      if k != i { assert At(x, k, r, h, phase); }
    }
    assert Inputs(x'.s.net, q, r, h, phase);
  }

  lemma {:induction false} AllNodes(size: nat, run: seq<Staged>, q: set<nat>, todo: set<nat>, r: Request, h: nat,
                                    phase: Phase) returns (run': seq<Staged>)
    requires StagedRun(size, run) && Partway(size, Last(run), q, todo, r, h, phase)
    ensures Continues(size, run, run') && Partway(size, Last(run'), q, {}, r, h, phase)
    ensures Last(run').s.issued == Last(run).s.issued
    decreases todo
  {
    if todo == {} {
      run' := run;
    } else {
      var i :| i in todo;
      assert Before(Last(run), i, r, h, phase);
      var run1 := OneNode(size, run, i, r, h, q, phase);
      PartwayNext(size, Last(run), Last(run1), q, todo, r, h, phase, i);
      run' := AllNodes(size, run1, q, todo - {i}, r, h, phase);
      ContinuesOn(size, run, run1, run');
    }
  }

  lemma NextPhase(size: nat, x: Staged, q: set<nat>, r: Request, h: nat, phase: Phase)
    requires Partway(size, x, q, {}, r, h, phase) && !phase.Deciding?
    ensures Partway(size, x, q, q, r, h, if phase.Preparing? then Committing else Deciding)
  {
    forall i | i in q ensures At(x, i, r, h, phase) {}
  }

  // ------------------------------------------------ the round

  /** The leader has no proposal outstanding, and every node of q has all blocks and is at
      the first stage. */
  ghost predicate Level(size: nat, x: Staged, q: set<nat>) {
    && Sized(size, x) && !x.s.nodes[0].locked && (forall i | i in q :: i < size)
    && forall i | i in q :: x.s.nodes[i].sequenceID == |x.s.nodes[i].chain| == |x.s.issued| + 1 && x.stages[i] == 1
  }

  /** A new proposal is new to everybody. */
  lemma ProposalIsNew(size: nat, run: seq<Staged>, body: nat, time: nat, i: nat)
    requires StagedRun(size, run) && Sized(size, Last(run)) && i < size && !Last(run).s.nodes[0].locked
    ensures var r, n := Request(NextBlock(Last(run).s.nodes[0].Head(), body), time), Last(run).s.nodes[i];
            r !in n.isReply && r !in n.isCommitBroadcast
  {
    var s := Last(run).s;
    var r := Request(NextBlock(s.nodes[0].Head(), body), time);
    Here(size, run);
    NotIssued(s, r);
    QuorumsAreEnough(size, Plain(run), |run| - 1, i, r);
    RunActs(size, Plain(run), |run| - 1);
    assert Acts(s.nodes[i], Faults(size), s.net);
    NoVotes(s, i, r);
    RunFetched(size, Plain(run), |run| - 1);
    FetchedIsIssued(s, i, r);
  }

  lemma NotIssued(s: System, r: Request)
    requires Inv(s) && !s.nodes[0].locked && r.block.number == s.nodes[0].Head().number + 1
    ensures r !in s.issued
  {
    assert NodeInv(s.nodes[0], 0, Faults(|s.nodes|), s.net, s.issued) && LeaderInv(s.nodes[0], s.issued);
    HeadNumber(s.nodes[0], s.issued);
  }

  lemma NoVotes(s: System, i: nat, r: Request)
    requires Inv(s) && i < |s.nodes| && r !in s.issued
    ensures VotesFor(s.nodes[i].commits, r) == {} && VotesFor(s.nodes[i].prepares, r) == {}
  {
    if VotesFor(s.nodes[i].commits, r) != {} { CommitIsForIssued(s, i, r); }
    if VotesFor(s.nodes[i].prepares, r) != {} { PrepareIsForIssued(s, i, r); }
  }

  lemma CommitIsForIssued(s: System, i: nat, r: Request)
    requires Inv(s) && i < |s.nodes| && VotesFor(s.nodes[i].commits, r) != {}
    ensures r in s.issued
  {
    var j :| j in VotesFor(s.nodes[i].commits, r);
    assert NodeInv(s.nodes[i], i, Faults(|s.nodes|), s.net, s.issued);
    assert SentCommit(s.net, r, j);
    assert MsgInv(Commit(r, r.block.number, j), s.nodes, s.issued);
  }

  lemma PrepareIsForIssued(s: System, i: nat, r: Request)
    requires Inv(s) && i < |s.nodes| && VotesFor(s.nodes[i].prepares, r) != {}
    ensures r in s.issued
  {
    var j :| j in VotesFor(s.nodes[i].prepares, r);
    assert NodeInv(s.nodes[i], i, Faults(|s.nodes|), s.net, s.issued);
    assert SentPrepare(s.net, r, j);
    assert MsgInv(Prepare(r, r.block.number, j), s.nodes, s.issued);
  }

  /** What a node has fetched it holds. */
  ghost predicate FetchedHeld(s: System) {
    forall i | 0 <= i < |s.nodes| :: s.nodes[i].fetched <= s.nodes[i].requestPool
  }

  lemma FetchedIsIssued(s: System, i: nat, r: Request)
    requires Inv(s) && i < |s.nodes| && FetchedHeld(s)
    ensures r in s.nodes[i].fetched ==> r in s.issued
  {
    assert NodeInv(s.nodes[i], i, Faults(|s.nodes|), s.net, s.issued) && PoolOk(s.nodes[i].requestPool, s.issued);
    assert s.nodes[i].fetched <= s.nodes[i].requestPool;
  }

  lemma {:induction false} RememberOldHolds(n: Node, first: nat, reqs: seq<Request>)
    requires n.fetched <= n.requestPool
    ensures RememberOld(n, first, reqs).fetched <= RememberOld(n, first, reqs).requestPool
  {
    if reqs != [] { RememberOldHolds(n, first, reqs[..|reqs| - 1]); }
  }

  lemma HandleHolds(n: Node, f: nat, m: Msg)
    requires n.fetched <= n.requestPool
    ensures Handle(n, f, m).node.fetched <= Handle(n, f, m).node.requestPool
  {
    if m.SendOld? {
      AddBlocksQuiet(n, m.reqs);
      RememberOldHolds(if m.last - m.first + 1 != |m.reqs| then n else AddBlocks(n, m.reqs), m.first, m.reqs);
    }
  }

  lemma NextFetched(s: System, s': System)
    requires FetchedHeld(s) && Next(s, s')
    ensures FetchedHeld(s')
  {
    var step :| Enabled(s, step) && s' == Apply(s, step);
    if step.DoHandle? { HandleHolds(s.nodes[step.node], Faults(|s.nodes|), step.msg); }
  }

  lemma {:induction false} RunFetched(size: nat, run: seq<System>, k: nat)
    requires Run(size, run) && k < |run|
    ensures FetchedHeld(run[k])
  {
    if k > 0 {
      RunFetched(size, run, k - 1);
      assert NextAt(run, k);
      NextFetched(run[k - 1], run[k]);
    }
  }

  /** The proposal of a level leader opens the round. */
  lemma Opens(size: nat, run: seq<Staged>, q: set<nat>, body: nat, time: nat) returns (run': seq<Staged>, r: Request)
    requires StagedRun(size, run) && Level(size, Last(run), q) && 0 in q && |q| >= 2 * Faults(size) + 1
    ensures Continues(size, run, run') && Last(run').s.issued == Last(run).s.issued + [r]
    ensures r.block.body == body && r.time == time
    ensures Partway(size, Last(run'), q, q, r, |Last(run).s.issued| + 1, Preparing)
  {
    var x := Last(run);
    r := Request(NextBlock(x.s.nodes[0].Head(), body), time);
    var h := |x.s.issued| + 1;
    forall i | i in q ensures r !in x.s.nodes[i].isReply && r !in x.s.nodes[i].isCommitBroadcast {
      ProposalIsNew(size, run, body, time, i);
    }
    run' := Step1(size, run, DoPropose(body, time));
    var x' := Last(run');
    assert x'.s.issued[h - 1] == r && x.s.nodes[0].sequenceID == h;
    forall i | i in q ensures Before(x', i, r, h, Preparing) {
      assert x.s.nodes[i].sequenceID == |x.s.nodes[i].chain| == h;
    }
  }

  /** A leader with every block has nothing outstanding. */
  lemma Closed(size: nat, run: seq<Staged>, q: set<nat>, r: Request, h: nat)
    requires StagedRun(size, run) && 0 in q && |Last(run).s.issued| == h
    requires Partway(size, Last(run), q, {}, r, h, Deciding)
    ensures Level(size, Last(run), q) && forall i | i in q :: r in Last(run).s.nodes[i].applied
  {
    Here(size, run);
    forall i | i in q ensures Decided(Last(run).s.nodes[i], Last(run).stages[i], r, h) {
      assert At(Last(run), i, r, h, Deciding);
    }
    assert LeaderInv(Last(run).s.nodes[0], Last(run).s.issued);
  }

  /** Any 2f+1 nodes that include the leader and are level can complete a round by
      themselves: the rest may be silent. All of them apply the proposal, and they are
      level again. */
  lemma RoundCompletes(size: nat, run: seq<Staged>, q: set<nat>, body: nat, time: nat)
    returns (run': seq<Staged>, r: Request)
    requires StagedRun(size, run) && Level(size, Last(run), q) && 0 in q && |q| >= 2 * Faults(size) + 1
    ensures Continues(size, run, run') && Last(run').s.issued == Last(run).s.issued + [r]
    ensures r.block.body == body && r.time == time
    ensures Level(size, Last(run'), q) && forall i | i in q :: r in Last(run').s.nodes[i].applied
  {
    var h := |Last(run).s.issued| + 1;
    var run1, run2, run3;
    run1, r := Opens(size, run, q, body, time);
    run2 := AllNodes(size, run1, q, q, r, h, Preparing);
    NextPhase(size, Last(run2), q, r, h, Preparing);
    ContinuesOn(size, run, run1, run2);
    run3 := AllNodes(size, run2, q, q, r, h, Committing);
    NextPhase(size, Last(run3), q, r, h, Committing);
    ContinuesOn(size, run, run2, run3);
    run' := AllNodes(size, run3, q, q, r, h, Deciding);
    ContinuesOn(size, run, run3, run');
    Closed(size, run', q, r, h);
  }

  lemma StartLevel(size: nat, q: set<nat>)
    requires size > 0 && forall i | i in q :: i < size
    ensures StagedRun(size, [InitStaged(size)]) && Level(size, InitStaged(size), q)
  {
  }

  /** So every list of payloads can become the log that those nodes hold. */
  lemma {:induction false} EveryLogIsReachable(size: nat, q: set<nat>, bodies: seq<nat>) returns (run: seq<Staged>)
    requires size > 0 && 0 in q && |q| >= 2 * Faults(size) + 1 && forall i | i in q :: i < size
    ensures StagedRun(size, run) && Level(size, Last(run), q) && |Last(run).s.issued| == |bodies|
    ensures forall k | 0 <= k < |bodies| :: Last(run).s.issued[k].block.body == bodies[k]
    decreases |bodies|
  {
    if bodies == [] {
      StartLevel(size, q);
      run := [InitStaged(size)];
    } else {
      var run0 := EveryLogIsReachable(size, q, bodies[..|bodies| - 1]);
      var r;
      run, r := RoundCompletes(size, run0, q, bodies[|bodies| - 1], 0);
    }
  }
}
