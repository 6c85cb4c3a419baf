/** Where the protocol falls short of the simplest laws: runs that break them, with
    every wait of the code respected, and the exact conditions under which they hold
    (consensus_shard/pbft_all/messageHandle.go). */
module PbftLimits {
  import opened Pbft
  import opened PbftSafety
  import opened PbftStages

  // Two nodes, so f = 0 and one vote is a quorum.

  const B1 := NextBlock(GENESIS, 0)
  const B2 := NextBlock(B1, 0)
  const R1 := Request(B1, 0)
  const R2 := Request(B2, 0)

  /** The leader before, during and after its first round alone, and in its second. */
  function Leader0(): Node { NewNode(0) }
  function Leader1(): Node { Leader0().(requestPool := {R1}, height2Digest := map[1 := R1], locked := true) }
  function Leader2(): Node { Leader1().(prepares := map[R1 := {0}], isCommitBroadcast := {R1}) }
  function Leader3(): Node {
    Leader2().(commits := map[R1 := {0}], isReply := {R1}, locked := false, chain := [GENESIS, B1], sequenceID := 2,
               applied := [R1])
  }
  function Leader4(): Node {
    Leader3().(requestPool := {R1, R2}, height2Digest := map[1 := R1, 2 := R2], locked := true)
  }
  function Leader5(): Node {
    Leader4().(prepares := map[R1 := {0}, R2 := {0}], isCommitBroadcast := {R1, R2})
  }

  const PP1 := PrePrepare(R1, R1, 1)
  const PP2 := PrePrepare(R2, R2, 2)

  lemma OneVote(d: Digest, j: nat, votes: Votes)
    requires d !in votes
    ensures AddVote(votes, d, j) == votes[d := {j}] && |VotesFor(AddVote(votes, d, j), d)| == 1
  {
    assert {} + {j} == {j};
  }

  /** The first proposal. */
  lemma RunProposed() returns (run: seq<Staged>)
    ensures Ends(2, run, Staged(System([Leader1(), NewNode(1)], {PP1}, [R1]), [2, 1]))
  {
    var x0 := InitStaged(2);
    assert x0.s.nodes == [NewNode(0), NewNode(1)] && x0.stages == [1, 1];
    run := [x0];
    run := Then(2, run, x0, DoPropose(0, 0));
    assert Propose(NewNode(0), 0, 0) == Outcome(Leader1(), {PP1});
    assert StagedApply(x0, DoPropose(0, 0)) == Staged(System([Leader1(), NewNode(1)], {PP1}, [R1]), [2, 1]);
  }

  // ------------------------------------------------ a replica ahead of the leader

  function Ahead1(): Node { NewNode(1).(requestPool := {R1}, height2Digest := map[1 := R1]) }
  function Ahead2(): Node { Ahead1().(prepares := map[R1 := {1}], isCommitBroadcast := {R1}) }
  function Ahead3(): Node {
    Ahead2().(commits := map[R1 := {1}], isReply := {R1}, chain := [GENESIS, B1], sequenceID := 2, applied := [R1])
  }

  /** Node 1 prepares the first proposal and commits it, by itself. */
  lemma RunFollowed() returns (run: seq<Staged>, net: set<Msg>)
    ensures Ends(2, run, Staged(System([Leader1(), Ahead2()], net, [R1]), [2, 3]))
    ensures net == {PP1, Prepare(R1, 1, 1), Commit(R1, 1, 1)}
  {
    run := RunProposed();
    var x1 := Staged(System([Leader1(), NewNode(1)], {PP1}, [R1]), [2, 1]);
    var x2 := Staged(System([Leader1(), Ahead1()], {PP1, Prepare(R1, 1, 1)}, [R1]), [2, 2]);
    run := Then(2, run, x1, DoHandle(1, PP1));
    assert HandlePrePrepare(NewNode(1), R1, R1, 1) == Outcome(Ahead1(), {Prepare(R1, 1, 1)});
    assert StagedApply(x1, DoHandle(1, PP1)) == x2;
    run := Then(2, run, x2, DoHandle(1, Prepare(R1, 1, 1)));
    OneVote(R1, 1, map[]);
    assert HandlePrepare(Ahead1(), 0, R1, 1, 1) == Outcome(Ahead2(), {Commit(R1, 1, 1)});
    net := {PP1, Prepare(R1, 1, 1), Commit(R1, 1, 1)};
    assert StagedApply(x2, DoHandle(1, Prepare(R1, 1, 1))) == Staged(System([Leader1(), Ahead2()], net, [R1]), [2, 3]);
  }

  /** A run in which node 1 prepares, commits and applies the leader's proposal before
      the leader has handled any message: its chain is not a prefix of the leader's. */
  lemma ReplicaAheadOfLeader() returns (run: seq<Staged>)
    ensures StagedRun(2, run)
    ensures var s := run[|run| - 1].s;
            |s.nodes| == 2 && s.nodes[0].chain == [GENESIS] && s.nodes[1].chain == [GENESIS, B1]
            && !Prefix(s.nodes[1].chain, s.nodes[0].chain)
  {
    var net;
    run, net := RunFollowed();
    var x3 := Staged(System([Leader1(), Ahead2()], net, [R1]), [2, 3]);
    run := Then(2, run, x3, DoHandle(1, Commit(R1, 1, 1)));
    OneVote(R1, 1, map[]);
    assert HandleCommit(Ahead2(), 0, R1, 1, 1) == Outcome(Ahead3(), {});
    assert StagedApply(x3, DoHandle(1, Commit(R1, 1, 1))).s == System([Leader1(), Ahead3()], net, [R1]);
  }

  /** A block is at its height or not in the chain at all. */
  lemma ChainHolds(chain: seq<Block>, issued: seq<Request>, q: nat)
    requires Linked(issued) && ChainOk(chain, issued) && 0 < q <= |issued|
    ensures issued[q - 1].block in chain <==> q < |chain|
  {
    if issued[q - 1].block in chain {
      var k :| 0 <= k < |chain| && chain[k] == issued[q - 1].block;
      LogAt(issued, k);
      assert chain[k] == Log(issued)[k];
    }
    if q < |chain| { assert chain[q] == Log(issued)[q]; }
  }

  /** Exactly when a chain is a prefix of the leader's: unless a proposal is outstanding
      and the node already holds its block. */
  lemma PrefixOfLeaderIff(size: nat, run: seq<System>, k: nat, i: nat)
    requires size > 0 && Run(size, run) && k < |run| && i < size
    ensures |run[k].nodes| == size && (run[k].nodes[0].locked ==> |run[k].issued| > 0)
    ensures var s := run[k];
            Prefix(s.nodes[i].chain, s.nodes[0].chain)
            <==> !(s.nodes[0].locked && s.issued[|s.issued| - 1].block in s.nodes[i].chain)
  {
    RunInv(size, run, k);
    var s := run[k];
    assert NodeInv(s.nodes[i], i, Faults(size), s.net, s.issued)
           && NodeInv(s.nodes[0], 0, Faults(size), s.net, s.issued);
    if s.nodes[0].locked { ChainHolds(s.nodes[i].chain, s.issued, |s.issued|); }
    PrefixByLength(s.nodes[i].chain, s.nodes[0].chain, Log(s.issued));
  }

  lemma PrefixByLength(a: seq<Block>, b: seq<Block>, log: seq<Block>)
    requires Prefix(a, log) && Prefix(b, log)
    ensures Prefix(a, b) <==> |a| <= |b|
  {
  }

  // ------------------------------------------------ a sequence number ahead of the chain

  /** Meanwhile the leader prepares and commits its first proposal by itself. */
  lemma RunLeaderCommitted() returns (run: seq<Staged>, net: set<Msg>)
    ensures Ends(2, run, Staged(System([Leader2(), Ahead2()], net, [R1]), [4, 3])) && Commit(R1, 1, 0) in net
  {
    run, net := RunFollowed();
    var x3 := Staged(System([Leader1(), Ahead2()], net, [R1]), [2, 3]);
    run := Then(2, run, x3, DoHandle(0, PP1));
    assert HandlePrePrepare(Leader1(), R1, R1, 1) == Outcome(Leader1(), {Prepare(R1, 1, 0)});
    net := net + {Prepare(R1, 1, 0)};
    var x4 := Staged(System([Leader1(), Ahead2()], net, [R1]), [3, 3]);
    assert StagedApply(x3, DoHandle(0, PP1)) == x4;
    run := Then(2, run, x4, DoHandle(0, Prepare(R1, 1, 0)));
    OneVote(R1, 0, map[]);
    assert HandlePrepare(Leader1(), 0, R1, 1, 0) == Outcome(Leader2(), {Commit(R1, 1, 0)});
    net := net + {Commit(R1, 1, 0)};
    assert StagedApply(x4, DoHandle(0, Prepare(R1, 1, 0))) == Staged(System([Leader2(), Ahead2()], net, [R1]), [4, 3]);
  }

  /** It decides and proposes the second request. */
  lemma RunSecondProposed() returns (run: seq<Staged>, net: set<Msg>)
    ensures Ends(2, run, Staged(System([Leader4(), Ahead2()], net, [R1, R2]), [2, 3])) && PP2 in net
  {
    run, net := RunLeaderCommitted();
    var x5 := Staged(System([Leader2(), Ahead2()], net, [R1]), [4, 3]);
    run := Then(2, run, x5, DoHandle(0, Commit(R1, 1, 0)));
    OneVote(R1, 0, map[]);
    assert HandleCommit(Leader2(), 0, R1, 1, 0) == Outcome(Leader3(), {});
    var x6 := Staged(System([Leader3(), Ahead2()], net, [R1]), [1, 3]);
    assert StagedApply(x5, DoHandle(0, Commit(R1, 1, 0))) == x6;
    run := Then(2, run, x6, DoPropose(0, 0));
    assert Propose(Leader3(), 0, 0) == Outcome(Leader4(), {PP2});
    net := net + {PP2};
    assert StagedApply(x6, DoPropose(0, 0)) == Staged(System([Leader4(), Ahead2()], net, [R1, R2]), [2, 3]);
  }

  /** It prepares and commits that too, while node 1 has yet to decide the first. */
  lemma RunSecondCommitted() returns (run: seq<Staged>, net: set<Msg>)
    ensures Ends(2, run, Staged(System([Leader5(), Ahead2()], net, [R1, R2]), [4, 3]))
    ensures PP2 in net && Commit(R2, 2, 0) in net
  {
    run, net := RunSecondProposed();
    var x7 := Staged(System([Leader4(), Ahead2()], net, [R1, R2]), [2, 3]);
    run := Then(2, run, x7, DoHandle(0, PP2));
    assert HandlePrePrepare(Leader4(), R2, R2, 2) == Outcome(Leader4(), {Prepare(R2, 2, 0)});
    net := net + {Prepare(R2, 2, 0)};
    var x8 := Staged(System([Leader4(), Ahead2()], net, [R1, R2]), [3, 3]);
    assert StagedApply(x7, DoHandle(0, PP2)) == x8;
    run := Then(2, run, x8, DoHandle(0, Prepare(R2, 2, 0)));
    OneVote(R2, 0, Leader4().prepares);
    assert HandlePrepare(Leader4(), 0, R2, 2, 0) == Outcome(Leader5(), {Commit(R2, 2, 0)});
    net := net + {Commit(R2, 2, 0)};
    assert StagedApply(x8, DoHandle(0, Prepare(R2, 2, 0)))
           == Staged(System([Leader5(), Ahead2()], net, [R1, R2]), [4, 3]);
  }

  function Late1(): Node { Ahead2().(requestPool := {R1, R2}, height2Digest := map[1 := R1, 2 := R2]) }
  function Late2(): Node { Late1().(commits := map[R2 := {0}], isReply := {R2}, sequenceID := 2, applied := [R2]) }

  /** A run in which node 1, at the commit stage of the first request, decides the second
      before it: AddBlock drops the block, and the sequence number moves on without the
      chain. */
  lemma SequenceAheadOfChain() returns (run: seq<Staged>)
    ensures StagedRun(2, run)
    ensures var n := run[|run| - 1].s.nodes;
            |n| == 2 && n[1].chain == [GENESIS] && n[1].sequenceID == 2 && n[1].applied == [R2]
  {
    var net;
    run, net := RunSecondCommitted();
    var x9 := Staged(System([Leader5(), Ahead2()], net, [R1, R2]), [4, 3]);
    run := Then(2, run, x9, DoHandle(1, PP2));
    assert HandlePrePrepare(Ahead2(), R2, R2, 2) == Outcome(Late1(), {});
    var x10 := Staged(System([Leader5(), Late1()], net, [R1, R2]), [4, 3]);
    assert StagedApply(x9, DoHandle(1, PP2)) == x10;
    run := Then(2, run, x10, DoHandle(1, Commit(R2, 2, 0)));
    OneVote(R2, 0, map[]);
    assert HandleCommit(Late1(), 0, R2, 2, 0) == Outcome(Late2(), {});
    assert StagedApply(x10, DoHandle(1, Commit(R2, 2, 0))).s == System([Leader5(), Late2()], net, [R1, R2]);
  }

  /** In step: the sequence number is the height of the next block. */
  predicate InStep(n: Node) { n.sequenceID == |n.chain| }

  /** Deciding a known request keeps a node in step exactly when it is the next block. */
  lemma DecisionInStepIff(size: nat, run: seq<System>, k: nat, i: nat, d: Digest, q: nat, j: nat)
    requires size > 0 && Run(size, run) && k < |run| && i < size && |run[k].nodes| == size
    requires Commit(d, q, j) in run[k].net && Decides(run[k].nodes[i], Faults(size), d, q, j)
    requires d in run[k].nodes[i].requestPool && InStep(run[k].nodes[i])
    ensures InStep(HandleCommit(run[k].nodes[i], Faults(size), d, q, j).node)
            <==> d.block.number == |run[k].nodes[i].chain|
  {
    RunInv(size, run, k);
    var s := run[k];
    var n := s.nodes[i];
    assert NodeInv(n, i, Faults(size), s.net, s.issued);
    assert MsgInv(Commit(d, q, j), s.nodes, s.issued);
    assert s.issued[q - 1].block.number == q;
    var n1 := n.(commits := AddVote(n.commits, d, j));
    AddProposal(n1.(isReply := n.isReply + {d}, locked := if n.id == 0 then false else n.locked), s.issued, d, q);
  }

  // ------------------------------------------------ fetching old requests

  /** How far a reply with old requests takes the chain. */
  lemma {:induction false} AddBlocksLength(n: Node, issued: seq<Request>, first: nat, reqs: seq<Request>)
    requires Linked(issued) && ChainOk(n.chain, issued) && Proposals(issued, first, reqs)
    ensures ChainOk(AddBlocks(n, reqs).chain, issued)
    ensures |AddBlocks(n, reqs).chain| == Reached(|n.chain|, first, |reqs|)
    decreases |reqs|
  {
    if reqs != [] {
      var init := reqs[..|reqs| - 1];
      ProposalsSplit(issued, first, reqs);
      AddBlocksLength(n, issued, first, init);
      LastLength(n, issued, first, reqs);
      ReachedNext(|n.chain|, first, |init|);
    }
  }

  /** The length of a chain after the blocks of k heights from first on. */
  function Reached(length: nat, first: nat, k: nat): nat {
    if first <= length < first + k then first + k else length
  }

  lemma ReachedNext(length: nat, first: nat, k: nat)
    ensures Reached(length, first, k + 1)
         == Reached(length, first, k) + if first + k == Reached(length, first, k) then 1 else 0
  {}

  lemma LastLength(n: Node, issued: seq<Request>, first: nat, reqs: seq<Request>)
    requires Linked(issued) && reqs != [] && Proposals(issued, first, reqs)
    requires ChainOk(AddBlocks(n, reqs[..|reqs| - 1]).chain, issued)
    ensures var before, after := AddBlocks(n, reqs[..|reqs| - 1]).chain, AddBlocks(n, reqs).chain;
            ChainOk(after, issued) && |after| == |before| + if first + |reqs| - 1 == |before| then 1 else 0
  {
    ProposalsSplit(issued, first, reqs);
    AddBlocksLast(n, reqs);
    OneMoreLength(AddBlocks(n, reqs[..|reqs| - 1]), issued, reqs[|reqs| - 1], first + |reqs| - 1);
  }

  lemma OneMoreLength(n: Node, issued: seq<Request>, r: Request, q: nat)
    requires Linked(issued) && ChainOk(n.chain, issued) && IsProposal(issued, r, q)
    ensures ChainOk(AddBlock(n, r.block).chain, issued)
    ensures |AddBlock(n, r.block).chain| == |n.chain| + if q == |n.chain| then 1 else 0
  {
    AddProposal(n, issued, r, q);
  }

  /** A reply leaves a node in step exactly when it is complete and starts at or below
      the node's next block without ending before it, or ends just where its chain does. */
  lemma CatchUpInStepIff(size: nat, run: seq<System>, k: nat, i: nat, m: Msg)
    requires size > 0 && Run(size, run) && k < |run| && i < size && |run[k].nodes| == size
    requires m in run[k].net && m.SendOld? && m.receiver == i
    ensures var n := run[k].nodes[i];
            InStep(HandleSendOld(n, m.first, m.last, m.reqs).node)
            <==> (m.last - m.first + 1 == |m.reqs| && m.first <= |n.chain| <= m.last) || |n.chain| == m.last + 1
  {
    RunInv(size, run, k);
    var s := run[k];
    var n := s.nodes[i];
    assert NodeInv(n, i, Faults(size), s.net, s.issued);
    assert MsgInv(m, s.nodes, s.issued);
    assert Proposals(s.issued, m.first, m.reqs);
    AddBlocksLength(n, s.issued, m.first, m.reqs);
    var n1 := if m.last - m.first + 1 != |m.reqs| then n else AddBlocks(n, m.reqs);
    AddBlocksKeeps(n, s.issued, m.first, m.reqs);
    RememberOldKeeps(n1, s.issued, m.first, m.reqs);
  }

  /** A node asks from the height after its sequence number on, so in step it asks above
      its next block. */
  lemma AsksAboveNext(n: Node, d: Digest, q: nat)
    requires InStep(n) && d !in n.requestPool
    ensures Decide(n, d, q).sent == {RequestOld(|n.chain| + 1, q, n.id)}
  {}

  /** In every run: a reply that starts there adds nothing to a node still in step, and
      the node stays in step only if the reply ends where its chain does. */
  lemma AskingInStepAddsNothing(size: nat, run: seq<System>, k: nat, i: nat, m: Msg)
    requires size > 0 && Run(size, run) && k < |run| && i < size && |run[k].nodes| == size
    requires m in run[k].net && m.SendOld? && m.receiver == i
    requires InStep(run[k].nodes[i]) && m.first == run[k].nodes[i].sequenceID + 1
    ensures var n := run[k].nodes[i];
            var n' := HandleSendOld(n, m.first, m.last, m.reqs).node;
            n'.chain == n.chain && n'.sequenceID == m.last + 1
  {
    RunInv(size, run, k);
    var s := run[k];
    var n := s.nodes[i];
    assert NodeInv(n, i, Faults(size), s.net, s.issued);
    assert MsgInv(m, s.nodes, s.issued);
    assert Proposals(s.issued, m.first, m.reqs);
    AddBlocksLength(n, s.issued, m.first, m.reqs);
    AddBlocksKeeps(n, s.issued, m.first, m.reqs);
    AddedNothing(n.chain, AddBlocks(n, m.reqs).chain, Elements(m.reqs));
    var n1 := if m.last - m.first + 1 != |m.reqs| then n else AddBlocks(n, m.reqs);
    RememberOldKeeps(n1, s.issued, m.first, m.reqs);
  }

  lemma AddedNothing(chain: seq<Block>, chain': seq<Block>, reqs: set<Request>)
    requires AddedFrom(chain, chain', reqs) && |chain'| == |chain|
    ensures chain' == chain
  {}

  function Behind1(): Node { Ahead2().(commits := map[R2 := {0}], isReply := {R2}) }
  function Behind2(): Node {
    Behind1().(requestPool := {R1, R2}, height2Digest := map[1 := R1, 2 := R2], fetched := {R2}, sequenceID := 3)
  }

  /** A run in which node 1, at the commit stage of the first request, hears the commit of
      the second before its proposal, asks for old blocks and gets all it asked for: the
      reply starts above the missing block, so nothing is added, and the sequence number
      moves past both. */
  lemma CatchUpSkipsTheBlock() returns (run: seq<Staged>)
    ensures StagedRun(2, run)
    ensures var n := run[|run| - 1].s.nodes;
            |n| == 2 && n[1].chain == [GENESIS] && n[1].sequenceID == 3 && R1 !in n[1].fetched && n[1].applied == []
  {
    var net;
    run, net := RunSecondCommitted();
    var x9 := Staged(System([Leader5(), Ahead2()], net, [R1, R2]), [4, 3]);
    run := Then(2, run, x9, DoHandle(1, Commit(R2, 2, 0)));
    OneVote(R2, 0, map[]);
    assert HandleCommit(Ahead2(), 0, R2, 2, 0) == Outcome(Behind1(), {RequestOld(2, 2, 1)});
    net := net + {RequestOld(2, 2, 1)};
    var x10 := Staged(System([Leader5(), Behind1()], net, [R1, R2]), [4, 1]);
    assert StagedApply(x9, DoHandle(1, Commit(R2, 2, 0))) == x10;
    run := CatchUpRest(run, net);
  }

  lemma CatchUpRest(run: seq<Staged>, net: set<Msg>) returns (run': seq<Staged>)
    requires RequestOld(2, 2, 1) in net
    requires Ends(2, run, Staged(System([Leader5(), Behind1()], net, [R1, R2]), [4, 1]))
    ensures StagedRun(2, run') && run'[|run'| - 1].s.nodes == [Leader5(), Behind2()]
  {
    var x10 := Staged(System([Leader5(), Behind1()], net, [R1, R2]), [4, 1]);
    run' := Then(2, run, x10, DoHandle(0, RequestOld(2, 2, 1)));
    var reply := SendOld(2, 2, [R2], 1);
    assert Leader5().height2Digest[2] == R2 && R2 in Leader5().requestPool;
    assert OldRequests(Leader5(), 3, 2) == [];
    assert OldRequests(Leader5(), 2, 2) == [R2] + OldRequests(Leader5(), 3, 2) == [R2];
    assert HandleRequestOld(Leader5(), 2, 2, 1) == Outcome(Leader5(), {reply});
    var x11 := Staged(System([Leader5(), Behind1()], net + {reply}, [R1, R2]), [4, 1]);
    assert StagedApply(x10, DoHandle(0, RequestOld(2, 2, 1))) == x11;
    run' := Then(2, run', x11, DoHandle(1, reply));
    ReplyDropped();
    assert StagedApply(x11, DoHandle(1, reply)).s == System([Leader5(), Behind2()], net + {reply}, [R1, R2]);
  }

  lemma ReplyDropped()
    ensures HandleSendOld(Behind1(), 2, 2, [R2]) == Outcome(Behind2(), {})
  {
    assert [R2][..0] == [];
    assert AddBlocks(Behind1(), [R2]) == AddBlock(AddBlocks(Behind1(), []), B2) == Behind1();
    assert RememberOld(Behind1(), 2, []) == Behind1();
  }
}
