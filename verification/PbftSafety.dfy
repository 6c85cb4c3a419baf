/** What every run of the normal-case protocol keeps. */
module PbftSafety {
  import opened Collections
  import opened Pbft

  // ------------------------------------------------ the log of proposals

  /** The blocks of the proposals, after the genesis block. */
  function Log(issued: seq<Request>): seq<Block> {
    [GENESIS] + seq(|issued|, k requires 0 <= k < |issued| => issued[k].block)
  }

  /** Proposal k has height k + 1 and extends proposal k - 1. */
  ghost predicate Linked(issued: seq<Request>) {
    forall k | 0 <= k < |issued| :: issued[k].block.number == k + 1 && issued[k].block.parent == HashOf(Log(issued)[k])
  }

  ghost predicate Prefix<T>(xs: seq<T>, ys: seq<T>) {
    |xs| <= |ys| && forall k | 0 <= k < |xs| :: xs[k] == ys[k]
  }

  /** d is the proposal of height q. */
  ghost predicate IsProposal(issued: seq<Request>, d: Digest, q: nat) {
    0 < q <= |issued| && issued[q - 1] == d
  }

  // ------------------------------------------------ the invariant

  ghost predicate SentPrepare(net: set<Msg>, d: Digest, j: nat) { Prepare(d, d.block.number, j) in net }

  ghost predicate SentCommit(net: set<Msg>, d: Digest, j: nat) { Commit(d, d.block.number, j) in net }

  /** Counted votes are real messages. */
  ghost predicate PreparesReal(votes: Votes, net: set<Msg>) {
    forall d: Digest, j: nat | j in VotesFor(votes, d) :: SentPrepare(net, d, j)
  }

  ghost predicate CommitsReal(votes: Votes, net: set<Msg>) {
    forall d: Digest, j: nat | j in VotesFor(votes, d) :: SentCommit(net, d, j)
  }

  ghost predicate ChainOk(chain: seq<Block>, issued: seq<Request>) {
    |chain| > 0 && Prefix(chain, Log(issued))
  }

  ghost predicate PoolOk(pool: set<Request>, issued: seq<Request>) {
    forall r | r in pool :: r in issued
  }

  ghost predicate HeightsOk(heights: map<nat, Digest>, issued: seq<Request>) {
    forall q | q in heights :: IsProposal(issued, heights[q], q)
  }

  /** Every digest applied once, on a quorum of commits. */
  ghost predicate AppliedOk(applied: seq<Digest>, isReply: set<Digest>, commits: Votes, f: nat) {
    && (forall d | d in applied :: d in isReply && |VotesFor(commits, d)| >= 2 * f + 1)
    && (forall k, l | 0 <= k < l < |applied| :: applied[k] != applied[l])
  }

  /** Block b was applied through a commit or fetched. */
  ghost predicate Obtained(b: Block, applied: seq<Digest>, fetched: set<Request>) {
    (exists r :: r in applied && r.block == b) || (exists r :: r in fetched && r.block == b)
  }

  ghost predicate BlocksFrom(chain: seq<Block>, applied: seq<Digest>, fetched: set<Request>) {
    forall k | 0 < k < |chain| :: Obtained(chain[k], applied, fetched)
  }

  ghost predicate NodeInv(n: Node, i: nat, f: nat, net: set<Msg>, issued: seq<Request>) {
    && n.id == i && ChainOk(n.chain, issued) && PoolOk(n.requestPool, issued) && HeightsOk(n.height2Digest, issued)
    && PreparesReal(n.prepares, net) && CommitsReal(n.commits, net)
    && AppliedOk(n.applied, n.isReply, n.commits, f) && BlocksFrom(n.chain, n.applied, n.fetched)
  }

  /** The leader has decided all proposals but the outstanding one. */
  ghost predicate LeaderInv(n: Node, issued: seq<Request>) {
    var c := |n.applied|;
    && |issued| == c + (if n.locked then 1 else 0)
    && n.applied == issued[..c] && |n.chain| == c + 1 && n.sequenceID == c + 1
    && (forall r :: r in n.isReply <==> r in issued[..c])
    && (forall r | r in issued :: r in n.requestPool)
    && n.fetched == {}
  }

  ghost predicate MsgInv(m: Msg, nodes: seq<Node>, issued: seq<Request>) {
    match m
    case PrePrepare(r, d, q) => r == d && IsProposal(issued, d, q)
    case Prepare(d, q, j) => IsProposal(issued, d, q) && j < |nodes| && |nodes[j].chain| >= q
    case Commit(d, q, j) =>
      IsProposal(issued, d, q) && j < |nodes| && |VotesFor(nodes[j].prepares, d)| >= 2 * Faults(|nodes|) + 1
    case RequestOld(a, _, j) => 0 < j && a > 0
    case SendOld(a, _, reqs, j) => 0 < j && a > 0 && forall k | 0 <= k < |reqs| :: IsProposal(issued, reqs[k], a + k)
  }

  ghost predicate NetInv(s: System) {
    forall m | m in s.net :: MsgInv(m, s.nodes, s.issued)
  }

  ghost predicate Inv(s: System) {
    && |s.nodes| > 0 && Linked(s.issued)
    && (forall i | 0 <= i < |s.nodes| :: NodeInv(s.nodes[i], i, Faults(|s.nodes|), s.net, s.issued))
    && LeaderInv(s.nodes[0], s.issued)
    && NetInv(s)
  }

  lemma InitInv(size: nat)
    requires size > 0
    ensures Inv(Init(size))
  {
  }

  // ------------------------------------------------ adding blocks

  lemma LogAt(issued: seq<Request>, k: nat)
    requires Linked(issued) && k <= |issued|
    ensures Log(issued)[k].number == k
  {
  }

  lemma HeadNumber(n: Node, issued: seq<Request>)
    requires Linked(issued) && ChainOk(n.chain, issued)
    ensures n.Head() == Log(issued)[|n.chain| - 1] && n.Head().number == |n.chain| - 1
  {
    LogAt(issued, |n.chain| - 1);
  }

  /** A proposal is added exactly when it is the next one. */
  lemma AddProposal(n: Node, issued: seq<Request>, d: Digest, q: nat)
    requires Linked(issued) && ChainOk(n.chain, issued) && IsProposal(issued, d, q)
    ensures ChainOk(AddBlock(n, d.block).chain, issued)
    ensures AddBlock(n, d.block) == if q == |n.chain| then n.(chain := n.chain + [d.block]) else n
  {
    HeadNumber(n, issued);
    ProposalAt(issued, d, q);
    if q == |n.chain| { ChainGrows(n.chain, issued, d, q); }
  }

  lemma ProposalAt(issued: seq<Request>, d: Digest, q: nat)
    requires Linked(issued) && IsProposal(issued, d, q)
    ensures d.block.number == q && d.block.parent == HashOf(Log(issued)[q - 1]) && Log(issued)[q] == d.block
  {
    assert issued[q - 1].block.number == q;
  }

  lemma ChainGrows(chain: seq<Block>, issued: seq<Request>, d: Digest, q: nat)
    requires ChainOk(chain, issued) && q == |chain| <= |issued| && Log(issued)[q] == d.block
    ensures ChainOk(chain + [d.block], issued)
  {
  }

  /** A proposal passes the parent check exactly at nodes that hold all before it and no more. */
  lemma ValidProposal(n: Node, issued: seq<Request>, d: Digest, q: nat)
    requires Linked(issued) && ChainOk(n.chain, issued) && IsProposal(issued, d, q)
    ensures IsValidBlock(n, d.block) <==> |n.chain| == q
  {
    HeadNumber(n, issued);
    LogAt(issued, q - 1);
    assert issued[q - 1].block.parent == HashOf(Log(issued)[q - 1]);
  }

  // ------------------------------------------------ frames

  ghost predicate Grows(n: Node, n': Node) {
    n'.id == n.id && |n.chain| <= |n'.chain| && VotesGrow(n.prepares, n'.prepares)
  }

  ghost predicate VotesGrow(votes: Votes, votes': Votes) {
    forall d: Digest :: |VotesFor(votes, d)| <= |VotesFor(votes', d)|
  }

  lemma LogExtends(issued: seq<Request>, r: Request)
    requires Linked(issued) && r.block == NextBlock(Log(issued)[|issued|], r.block.body)
    ensures Linked(issued + [r]) && Prefix(Log(issued), Log(issued + [r]))
  {
    LogAt(issued, |issued|);
    forall k | 0 <= k < |issued + [r]|
      ensures (issued + [r])[k].block.number == k + 1 && (issued + [r])[k].block.parent == HashOf(Log(issued + [r])[k])
    {
      if k < |issued| {
        assert (issued + [r])[k] == issued[k];
        assert Log(issued + [r])[k] == Log(issued)[k];
      } else {
        assert Log(issued + [r])[k] == Log(issued)[k];
      }
    }
  }

  lemma MemoryFrame(pool: set<Request>, heights: map<nat, Digest>, issued: seq<Request>, issued': seq<Request>)
    requires PoolOk(pool, issued) && HeightsOk(heights, issued) && Prefix(issued, issued')
    ensures PoolOk(pool, issued') && HeightsOk(heights, issued')
  {
    forall r | r in pool ensures r in issued' {
      var k :| 0 <= k < |issued| && issued[k] == r;
      assert issued'[k] == r;
    }
    forall q | q in heights ensures IsProposal(issued', heights[q], q) {
      assert IsProposal(issued, heights[q], q);
    }
  }

  lemma ChainFrame(chain: seq<Block>, issued: seq<Request>, issued': seq<Request>)
    requires ChainOk(chain, issued) && Prefix(issued, issued')
    ensures ChainOk(chain, issued')
  {
    forall k | 0 <= k < |chain| ensures chain[k] == Log(issued')[k] { assert chain[k] == Log(issued)[k]; }
  }

  lemma NodeFrame(n: Node, i: nat, f: nat, net: set<Msg>, net': set<Msg>, issued: seq<Request>, issued': seq<Request>)
    requires NodeInv(n, i, f, net, issued) && net <= net' && Prefix(issued, issued')
    ensures NodeInv(n, i, f, net', issued')
  {
    ChainFrame(n.chain, issued, issued');
    MemoryFrame(n.requestPool, n.height2Digest, issued, issued');
  }

  lemma MsgFrame(m: Msg, nodes: seq<Node>, nodes': seq<Node>, issued: seq<Request>, issued': seq<Request>)
    requires MsgInv(m, nodes, issued) && |nodes| == |nodes'| && Prefix(issued, issued')
    requires forall i | 0 <= i < |nodes| :: Grows(nodes[i], nodes'[i])
    ensures MsgInv(m, nodes', issued')
  {
    match m {
      case SendOld(a, _, reqs, _) =>
        forall k | 0 <= k < |reqs| ensures IsProposal(issued', reqs[k], a + k)
        { assert IsProposal(issued, reqs[k], a + k); }
      case Prepare(_, _, j) => assert Grows(nodes[j], nodes'[j]);
      case Commit(_, _, j) => assert Grows(nodes[j], nodes'[j]);
      case _ =>
    }
  }

  // ------------------------------------------------ the handlers keep the invariant

  lemma RememberKeeps(n: Node, i: nat, f: nat, net: set<Msg>, issued: seq<Request>, d: Digest, q: nat)
    requires NodeInv(n, i, f, net, issued) && IsProposal(issued, d, q)
    ensures NodeInv(Remember(n, d, q), i, f, net, issued)
  {
    assert issued[q - 1] == d;
    assert PoolOk(n.requestPool + {d}, issued);
    assert HeightsOk(n.height2Digest[q := d], issued);
  }

  lemma PrePrepareKeeps(n: Node, i: nat, f: nat, net: set<Msg>, issued: seq<Request>, d: Digest, q: nat)
    requires Linked(issued) && NodeInv(n, i, f, net, issued) && IsProposal(issued, d, q)
    ensures var o := HandlePrePrepare(n, d, d, q);
            && NodeInv(o.node, i, f, net + o.sent, issued) && Grows(n, o.node)
            && forall m | m in o.sent :: m == Prepare(d, q, i) && |n.chain| >= q
  {
    var o := HandlePrePrepare(n, d, d, q);
    ValidProposal(n, issued, d, q);
    RememberKeeps(n, i, f, net, issued, d, q);
    NodeFrame(o.node, i, f, net, net + o.sent, issued, issued);
  }

  lemma VotesAdded(votes: Votes, d: Digest, j: nat)
    ensures VotesGrow(votes, AddVote(votes, d, j))
    ensures forall e: Digest :: VotesFor(AddVote(votes, d, j), e) == VotesFor(votes, e) + (if e == d then {j} else {})
  {
    forall e: Digest ensures |VotesFor(votes, e)| <= |VotesFor(AddVote(votes, d, j), e)| {
      SubsetSize(VotesFor(votes, e), VotesFor(AddVote(votes, d, j), e));
    }
  }

  lemma PrepareVoteKeeps(n: Node, i: nat, f: nat, net: set<Msg>, issued: seq<Request>, d: Digest, j: nat)
    requires NodeInv(n, i, f, net, issued) && SentPrepare(net, d, j)
    ensures NodeInv(n.(prepares := AddVote(n.prepares, d, j)), i, f, net, issued)
  {
    VotesAdded(n.prepares, d, j);
    assert PreparesReal(AddVote(n.prepares, d, j), net);
  }

  lemma PrepareKeeps(n: Node, i: nat, f: nat, net: set<Msg>, issued: seq<Request>, d: Digest, q: nat, j: nat)
    requires Linked(issued) && NodeInv(n, i, f, net, issued) && IsProposal(issued, d, q) && Prepare(d, q, j) in net
    ensures var o := HandlePrepare(n, f, d, q, j);
            && NodeInv(o.node, i, f, net + o.sent, issued) && Grows(n, o.node)
            && forall m | m in o.sent :: m == Commit(d, q, i) && |VotesFor(o.node.prepares, d)| >= 2 * f + 1
  {
    var o := HandlePrepare(n, f, d, q, j);
    assert issued[q - 1].block.number == q;
    VotesAdded(n.prepares, d, j);
    PrepareVoteKeeps(n, i, f, net, issued, d, j);
    assert NodeInv(o.node, i, f, net, issued);
    NodeFrame(o.node, i, f, net, net + o.sent, issued, issued);
  }

  lemma CommitVoteKeeps(n: Node, i: nat, f: nat, net: set<Msg>, issued: seq<Request>, d: Digest, j: nat)
    requires NodeInv(n, i, f, net, issued) && SentCommit(net, d, j)
    ensures NodeInv(n.(commits := AddVote(n.commits, d, j)), i, f, net, issued)
  {
    var commits := AddVote(n.commits, d, j);
    VotesAdded(n.commits, d, j);
    assert CommitsReal(commits, net);
    forall e | e in n.applied ensures |VotesFor(commits, e)| >= 2 * f + 1 {
      assert |VotesFor(n.commits, e)| <= |VotesFor(commits, e)|;
    }
  }

  lemma ObtainedMore(b: Block, applied: seq<Digest>, fetched: set<Request>, applied': seq<Digest>,
                     fetched': set<Request>)
    requires Obtained(b, applied, fetched)
    requires (forall r | r in applied :: r in applied') && fetched <= fetched'
    ensures Obtained(b, applied', fetched')
  {
  }

  lemma BlocksFromMore(chain: seq<Block>, chain': seq<Block>, applied: seq<Digest>, fetched: set<Request>,
                       applied': seq<Digest>, fetched': set<Request>)
    requires BlocksFrom(chain, applied, fetched) && |chain| > 0 && Prefix(chain, chain')
    requires (forall r | r in applied :: r in applied') && fetched <= fetched'
    requires forall k | |chain| <= k < |chain'| :: Obtained(chain'[k], applied', fetched')
    ensures BlocksFrom(chain', applied', fetched')
  {
    forall k | 0 < k < |chain'| ensures Obtained(chain'[k], applied', fetched') {
      if k < |chain| {
        assert chain'[k] == chain[k];
        ObtainedMore(chain[k], applied, fetched, applied', fetched');
      }
    }
  }

  lemma DecideKeeps(n: Node, i: nat, f: nat, net: set<Msg>, issued: seq<Request>, d: Digest, q: nat)
    requires Linked(issued) && NodeInv(n, i, f, net, issued) && IsProposal(issued, d, q)
    requires d !in n.isReply && |VotesFor(n.commits, d)| >= 2 * f + 1
    ensures var o := Decide(n, d, q);
            && NodeInv(o.node, i, f, net + o.sent, issued) && Grows(n, o.node)
            && forall m | m in o.sent :: m == RequestOld(n.sequenceID + 1, q, i) && d !in n.requestPool
  {
    var o := Decide(n, d, q);
    var replied := n.(isReply := n.isReply + {d}, locked := if n.id == 0 then false else n.locked);
    AddProposal(replied, issued, d, q);
    assert d in n.applied + [d];
    BlocksFromMore(n.chain, o.node.chain, n.applied, n.fetched, o.node.applied, n.fetched);
    assert AppliedOk(o.node.applied, o.node.isReply, n.commits, f);
    assert NodeInv(o.node, i, f, net, issued);
    NodeFrame(o.node, i, f, net, net + o.sent, issued, issued);
  }

  lemma CommitKeeps(n: Node, i: nat, f: nat, net: set<Msg>, issued: seq<Request>, d: Digest, q: nat, j: nat)
    requires Linked(issued) && NodeInv(n, i, f, net, issued) && IsProposal(issued, d, q) && Commit(d, q, j) in net
    ensures var o := HandleCommit(n, f, d, q, j);
            && NodeInv(o.node, i, f, net + o.sent, issued) && Grows(n, o.node)
            && forall m | m in o.sent ::
               m == RequestOld(n.sequenceID + 1, q, i) && Decides(n, f, d, q, j) && d !in n.requestPool
  {
    var n1 := n.(commits := AddVote(n.commits, d, j));
    assert issued[q - 1].block.number == q;
    CommitVoteKeeps(n, i, f, net, issued, d, j);
    assert net + {} == net;
    if Decides(n, f, d, q, j) {
      DecideKeeps(n1, i, f, net, issued, d, q);
    }
  }

  // ------------------------------------------------ old requests

  lemma {:induction false} OldRequestsOk(n: Node, issued: seq<Request>, first: nat, last: nat, k: nat)
    requires HeightsOk(n.height2Digest, issued) && k < |OldRequests(n, first, last)|
    ensures IsProposal(issued, OldRequests(n, first, last)[k], first + k)
    decreases k
  {
    if k > 0 { OldRequestsOk(n, issued, first + 1, last, k - 1); }
  }

  ghost predicate Proposals(issued: seq<Request>, first: nat, reqs: seq<Request>) {
    forall k | 0 <= k < |reqs| :: IsProposal(issued, reqs[k], first + k)
  }

  /** Every new block of the chain belongs to one of the requests. */
  ghost predicate AddedFrom(chain: seq<Block>, chain': seq<Block>, reqs: set<Request>) {
    Prefix(chain, chain') && forall k | |chain| <= k < |chain'| :: Obtained(chain'[k], [], reqs)
  }

  function Elements(reqs: seq<Request>): set<Request> { set r | r in reqs }

  lemma AddBlocksStep(n: Node, n1: Node, issued: seq<Request>, r: Request, q: nat, init: set<Request>,
                      reqs: set<Request>)
    requires Linked(issued) && ChainOk(n1.chain, issued) && AddedFrom(n.chain, n1.chain, init)
             && n1 == n.(chain := n1.chain)
    requires IsProposal(issued, r, q) && init <= reqs && r in reqs
    ensures var n' := AddBlock(n1, r.block);
            ChainOk(n'.chain, issued) && AddedFrom(n.chain, n'.chain, reqs) && n' == n.(chain := n'.chain)
  {
    AddProposal(n1, issued, r, q);
    AddedNext(n.chain, n1.chain, AddBlock(n1, r.block).chain, init, reqs, r);
  }

  lemma {:induction false} AddBlocksKeeps(n: Node, issued: seq<Request>, first: nat, reqs: seq<Request>)
    requires Linked(issued) && ChainOk(n.chain, issued) && Proposals(issued, first, reqs)
    ensures var n' := AddBlocks(n, reqs);
            ChainOk(n'.chain, issued) && AddedFrom(n.chain, n'.chain, Elements(reqs)) && n' == n.(chain := n'.chain)
    decreases |reqs|
  {
    if reqs != [] {
      var init, r := reqs[..|reqs| - 1], reqs[|reqs| - 1];
      ProposalsSplit(issued, first, reqs);
      AddBlocksKeeps(n, issued, first, init);
      AddBlocksStep(n, AddBlocks(n, init), issued, r, first + |init|, Elements(init), Elements(reqs));
      AddBlocksLast(n, reqs);
    }
  }

  lemma ProposalsSplit(issued: seq<Request>, first: nat, reqs: seq<Request>)
    requires reqs != [] && Proposals(issued, first, reqs)
    ensures Proposals(issued, first, reqs[..|reqs| - 1]) && IsProposal(issued, reqs[|reqs| - 1], first + |reqs| - 1)
    ensures Elements(reqs[..|reqs| - 1]) <= Elements(reqs) && reqs[|reqs| - 1] in Elements(reqs)
  {
    var init := reqs[..|reqs| - 1];
    forall l | 0 <= l < |init| ensures IsProposal(issued, init[l], first + l)
    { assert IsProposal(issued, reqs[l], first + l); }
  }

  lemma AddBlocksLast(n: Node, reqs: seq<Request>)
    requires reqs != []
    ensures AddBlocks(n, reqs) == AddBlock(AddBlocks(n, reqs[..|reqs| - 1]), reqs[|reqs| - 1].block)
  {
  }

  lemma AddedNext(chain: seq<Block>, chain1: seq<Block>, chain2: seq<Block>, init: set<Request>, reqs: set<Request>,
                  r: Request)
    requires AddedFrom(chain, chain1, init) && (chain2 == chain1 || chain2 == chain1 + [r.block]) && init <= reqs
             && r in reqs
    ensures AddedFrom(chain, chain2, reqs)
  {
    forall k | |chain| <= k < |chain2| ensures Obtained(chain2[k], [], reqs) {
      if k < |chain1| { ObtainedMore(chain1[k], [], init, [], reqs); }
    }
  }

  /** What remembering the requests changes. */
  lemma {:induction false} RememberOldKeeps(n: Node, issued: seq<Request>, first: nat, reqs: seq<Request>)
    requires PoolOk(n.requestPool, issued) && HeightsOk(n.height2Digest, issued) && Proposals(issued, first, reqs)
    ensures var n' := RememberOld(n, first, reqs);
            && PoolOk(n'.requestPool, issued) && HeightsOk(n'.height2Digest, issued)
            && n' == n.(requestPool := n'.requestPool, height2Digest := n'.height2Digest, isReply := n'.isReply,
                        fetched := n'.fetched)
            && n.isReply <= n'.isReply && n'.fetched == n.fetched + Elements(reqs)
    decreases |reqs|
  {
    if reqs != [] {
      var k := |reqs| - 1;
      var init := reqs[..k];
      assert Proposals(issued, first, init) by { assert forall l | 0 <= l < k :: init[l] == reqs[l]; }
      RememberOldKeeps(n, issued, first, init);
      assert IsProposal(issued, reqs[k], first + k);
      assert init + [reqs[k]] == reqs;
    }
  }

  lemma CatchUpKeeps(n: Node, i: nat, f: nat, net: set<Msg>, issued: seq<Request>, first: nat, last: nat,
                     reqs: seq<Request>)
    requires Linked(issued) && NodeInv(n, i, f, net, issued) && Proposals(issued, first, reqs)
    ensures var n' := CatchUp(n, first, last, reqs); NodeInv(n', i, f, net, issued) && Grows(n, n')
  {
    var n' := CatchUp(n, first, last, reqs);
    var n1 := if last - first + 1 != |reqs| then n else AddBlocks(n, reqs);
    AddBlocksKeeps(n, issued, first, reqs);
    RememberOldKeeps(n1, issued, first, reqs);
    SendOldBlocks(n, n', reqs);
  }

  lemma SendOldKeeps(n: Node, i: nat, f: nat, net: set<Msg>, issued: seq<Request>, first: nat, last: nat,
                     reqs: seq<Request>)
    requires Linked(issued) && NodeInv(n, i, f, net, issued) && Proposals(issued, first, reqs)
    ensures var o := HandleSendOld(n, first, last, reqs);
            && NodeInv(o.node, i, f, net + o.sent, issued) && Grows(n, o.node)
            && forall m | m in o.sent ::
                 m.Prepare? && m.sender == i && IsProposal(issued, m.digest, m.seqID) && |o.node.chain| >= m.seqID
  {
    var n', o := CatchUp(n, first, last, reqs), HandleSendOld(n, first, last, reqs);
    CatchUpKeeps(n, i, f, net, issued, first, last, reqs);
    NodeFrame(n', i, f, net, net + o.sent, issued, issued);
    if last + 1 in n'.height2Digest {
      var d := n'.height2Digest[last + 1];
      assert IsProposal(issued, d, last + 1);
      ValidProposal(n', issued, d, last + 1);
    }
  }

  lemma SendOldBlocks(n: Node, n': Node, reqs: seq<Request>)
    requires BlocksFrom(n.chain, n.applied, n.fetched) && |n.chain| > 0
    requires AddedFrom(n.chain, n'.chain, Elements(reqs)) || n'.chain == n.chain
    requires n'.applied == n.applied && n'.fetched == n.fetched + Elements(reqs)
    ensures BlocksFrom(n'.chain, n'.applied, n'.fetched)
  {
    forall k | |n.chain| <= k < |n'.chain| ensures Obtained(n'.chain[k], n'.applied, n'.fetched) {
      ObtainedMore(n'.chain[k], [], Elements(reqs), n'.applied, n'.fetched);
    }
    BlocksFromMore(n.chain, n'.chain, n.applied, n.fetched, n'.applied, n'.fetched);
  }

  // ------------------------------------------------ the leader's round

  /** The leader decides only its outstanding proposal, while it holds the lock. */
  lemma LeaderDecides(n: Node, f: nat, issued: seq<Request>, d: Digest, q: nat, j: nat)
    requires LeaderInv(n, issued) && IsProposal(issued, d, q) && Decides(n, f, d, q, j)
    ensures n.locked && q == |issued| == |n.applied| + 1 && d in n.requestPool
  {
    var c := |n.applied|;
    assert forall k | 0 <= k < c :: issued[..c][k] == issued[k];
    assert d == issued[q - 1];
  }

  lemma LeaderCommit(n: Node, f: nat, issued: seq<Request>, d: Digest, q: nat, j: nat)
    requires Linked(issued) && n.id == 0 && ChainOk(n.chain, issued)
    requires LeaderInv(n, issued) && IsProposal(issued, d, q)
    ensures LeaderInv(HandleCommit(n, f, d, q, j).node, issued)
    ensures HandleCommit(n, f, d, q, j).sent == {}
  {
    if q >= n.sequenceID && Decides(n, f, d, q, j) {
      LeaderDecides(n, f, issued, d, q, j);
      LeaderDecided(n.(commits := AddVote(n.commits, d, j)), issued, d, q);
    }
  }

  lemma LeaderDecided(n: Node, issued: seq<Request>, d: Digest, q: nat)
    requires Linked(issued) && n.id == 0 && ChainOk(n.chain, issued) && LeaderInv(n, issued)
    requires IsProposal(issued, d, q) && n.locked && q == |issued| && d in n.requestPool
    ensures var o := Decide(n, d, q); LeaderInv(o.node, issued) && o.sent == {}
  {
    var c := |n.applied|;
    AddProposal(n.(isReply := n.isReply + {d}, locked := false), issued, d, q);
    assert issued[..c + 1] == issued[..c] + [d];
  }

  lemma LeaderPropose(n: Node, f: nat, net: set<Msg>, issued: seq<Request>, body: nat, time: nat)
    requires Linked(issued) && NodeInv(n, 0, f, net, issued) && LeaderInv(n, issued) && !n.locked
    ensures var o, r := Propose(n, body, time), Request(NextBlock(n.Head(), body), time);
            var issued' := issued + [r];
            && Linked(issued') && Prefix(issued, issued') && LeaderInv(o.node, issued')
            && NodeInv(o.node, 0, f, net + o.sent, issued') && IsProposal(issued', r, n.sequenceID)
            && o.sent == {PrePrepare(r, r, n.sequenceID)} && Grows(n, o.node)
  {
    var o, r := Propose(n, body, time), Request(NextBlock(n.Head(), body), time);
    var issued' := issued + [r];
    HeadNumber(n, issued);
    LogExtends(issued, r);
    NodeFrame(n, 0, f, net, net + o.sent, issued, issued');
    RememberKeeps(n, 0, f, net + o.sent, issued', r, n.sequenceID);
    assert issued'[..|issued|] == issued;
  }

  // ------------------------------------------------ every step, every run

  lemma SentOk(o: Outcome, nodes: seq<Node>, issued: seq<Request>, i: nat, m: Msg)
    requires i < |nodes| && HeightsOk(nodes[i].height2Digest, issued) && nodes[i].id == i
    requires m.RequestOld? && MsgInv(m, nodes, issued) && o == HandleRequestOld(nodes[i], m.first, m.last, m.sender)
    ensures forall x | x in o.sent :: MsgInv(x, nodes, issued)
  {
    forall k | 0 <= k < |OldRequests(nodes[i], m.first, m.last)|
      ensures IsProposal(issued, OldRequests(nodes[i], m.first, m.last)[k], m.first + k)
    {
      OldRequestsOk(nodes[i], issued, m.first, m.last, k);
    }
  }

  /** One handler at one node: the node, the leader's record and what is sent. */
  lemma HandleKeeps(s: System, i: nat, m: Msg)
    requires Inv(s) && Enabled(s, DoHandle(i, m))
    ensures Kept(s, i, Handle(s.nodes[i], Faults(|s.nodes|), m))
  {
    match m
    case PrePrepare(r, d, q) => HandlePrePrepareKeeps(s, i, m);
    case Prepare(d, q, j) => HandlePrepareKeeps(s, i, m);
    case Commit(d, q, j) => HandleCommitKeeps(s, i, m);
    case RequestOld(a, b, j) => HandleRequestOldKeeps(s, i, m);
    case SendOld(a, b, reqs, j) => HandleSendOldKeeps(s, i, m);
  }

  ghost predicate Kept(s: System, i: nat, o: Outcome)
    requires i < |s.nodes|
  {
    && NodeInv(o.node, i, Faults(|s.nodes|), s.net + o.sent, s.issued) && Grows(s.nodes[i], o.node)
    && (i == 0 ==> LeaderInv(o.node, s.issued))
    && forall x | x in o.sent :: MsgInv(x, s.nodes[i := o.node], s.issued)
  }

  lemma HandlePrePrepareKeeps(s: System, i: nat, m: Msg)
    requires Inv(s) && i < |s.nodes| && m in s.net && m.PrePrepare?
    ensures Kept(s, i, Handle(s.nodes[i], Faults(|s.nodes|), m))
  {
    assert MsgInv(m, s.nodes, s.issued);
    var n := s.nodes[i];
    PrePrepareKeeps(n, i, Faults(|s.nodes|), s.net, s.issued, m.digest, m.seqID);
    if i == 0 { LeaderPrePrepare(n, s.issued, m.digest, m.seqID); }
  }

  lemma LeaderPrePrepare(n: Node, issued: seq<Request>, d: Digest, q: nat)
    requires LeaderInv(n, issued)
    ensures LeaderInv(HandlePrePrepare(n, d, d, q).node, issued)
  {
  }

  lemma HandlePrepareKeeps(s: System, i: nat, m: Msg)
    requires Inv(s) && i < |s.nodes| && m in s.net && m.Prepare?
    ensures Kept(s, i, Handle(s.nodes[i], Faults(|s.nodes|), m))
  {
    assert MsgInv(m, s.nodes, s.issued);
    var n, f := s.nodes[i], Faults(|s.nodes|);
    PrepareKeeps(n, i, f, s.net, s.issued, m.digest, m.seqID, m.sender);
    if i == 0 { LeaderPrepare(n, f, s.issued, m.digest, m.seqID, m.sender); }
  }

  lemma LeaderPrepare(n: Node, f: nat, issued: seq<Request>, d: Digest, q: nat, j: nat)
    requires LeaderInv(n, issued)
    ensures LeaderInv(HandlePrepare(n, f, d, q, j).node, issued)
  {
  }

  lemma HandleCommitKeeps(s: System, i: nat, m: Msg)
    requires Inv(s) && i < |s.nodes| && m in s.net && m.Commit?
    ensures Kept(s, i, Handle(s.nodes[i], Faults(|s.nodes|), m))
  {
    assert MsgInv(m, s.nodes, s.issued);
    CommitKeeps(s.nodes[i], i, Faults(|s.nodes|), s.net, s.issued, m.digest, m.seqID, m.sender);
    if i == 0 { LeaderCommit(s.nodes[0], Faults(|s.nodes|), s.issued, m.digest, m.seqID, m.sender); }
  }

  lemma HandleRequestOldKeeps(s: System, i: nat, m: Msg)
    requires Inv(s) && i < |s.nodes| && m in s.net && m.RequestOld?
    ensures Kept(s, i, Handle(s.nodes[i], Faults(|s.nodes|), m))
  {
    var n := s.nodes[i];
    var o := HandleRequestOld(n, m.first, m.last, m.sender);
    assert MsgInv(m, s.nodes, s.issued);
    SentOk(o, s.nodes, s.issued, i, m);
    assert s.nodes[i := n] == s.nodes;
    NodeFrame(n, i, Faults(|s.nodes|), s.net, s.net + o.sent, s.issued, s.issued);
  }

  lemma HandleSendOldKeeps(s: System, i: nat, m: Msg)
    requires Inv(s) && i < |s.nodes| && m in s.net && m.SendOld? && m.receiver == i
    ensures Kept(s, i, Handle(s.nodes[i], Faults(|s.nodes|), m))
  {
    assert MsgInv(m, s.nodes, s.issued);
    SendOldKeeps(s.nodes[i], i, Faults(|s.nodes|), s.net, s.issued, m.first, m.last, m.reqs);
  }

  lemma Assemble(s: System, i: nat, n': Node, sent: set<Msg>, issued': seq<Request>)
    requires Inv(s) && i < |s.nodes| && Linked(issued') && Prefix(s.issued, issued')
    requires NodeInv(n', i, Faults(|s.nodes|), s.net + sent, issued') && Grows(s.nodes[i], n')
    requires LeaderInv(if i == 0 then n' else s.nodes[0], issued')
    requires forall x | x in sent :: MsgInv(x, s.nodes[i := n'], issued')
    ensures Inv(System(s.nodes[i := n'], s.net + sent, issued'))
  {
    var nodes' := s.nodes[i := n'];
    forall k | 0 <= k < |nodes'| ensures NodeInv(nodes'[k], k, Faults(|nodes'|), s.net + sent, issued') {
      if k != i { NodeFrame(s.nodes[k], k, Faults(|s.nodes|), s.net, s.net + sent, s.issued, issued'); }
    }
    forall m | m in s.net + sent ensures MsgInv(m, nodes', issued') {
      if m !in sent { MsgFrame(m, s.nodes, nodes', s.issued, issued'); }
    }
  }

  lemma StepKeeps(s: System, step: Step)
    requires Inv(s) && Enabled(s, step)
    ensures Inv(Apply(s, step))
  {
    match step
    case DoPropose(body, time) => ProposeKeeps(s, body, time);
    case DoHandle(i, m) =>
      HandleKeeps(s, i, m);
      var o := Handle(s.nodes[i], Faults(|s.nodes|), m);
      Assemble(s, i, o.node, o.sent, s.issued);
  }

  lemma ProposeKeeps(s: System, body: nat, time: nat)
    requires Inv(s) && Enabled(s, DoPropose(body, time))
    ensures Inv(Apply(s, DoPropose(body, time)))
  {
    var n := s.nodes[0];
    LeaderPropose(n, Faults(|s.nodes|), s.net, s.issued, body, time);
    var o, r := Propose(n, body, time), Request(NextBlock(n.Head(), body), time);
    ProposalSent(s, o, r, s.issued + [r]);
    Assemble(s, 0, o.node, o.sent, s.issued + [r]);
  }

  lemma ProposalSent(s: System, o: Outcome, r: Request, issued: seq<Request>)
    requires |s.nodes| > 0 && o.sent == {PrePrepare(r, r, s.nodes[0].sequenceID)}
             && IsProposal(issued, r, s.nodes[0].sequenceID)
    ensures forall x | x in o.sent :: MsgInv(x, s.nodes[0 := o.node], issued)
  {}

  lemma {:induction false} RunInv(size: nat, run: seq<System>, k: nat)
    requires size > 0 && Run(size, run) && k < |run|
    ensures Inv(run[k]) && |run[k].nodes| == size
  {
    if k == 0 {
      InitInv(size);
    } else {
      RunInv(size, run, k - 1);
      assert NextAt(run, k);
      NextKeeps(run[k - 1], run[k]);
    }
  }

  lemma NextKeeps(s: System, s': System)
    requires Inv(s) && Next(s, s')
    ensures Inv(s') && |s'.nodes| == |s.nodes|
  {
    var step :| Enabled(s, step) && s' == Apply(s, step);
    StepKeeps(s, step);
  }

  // ------------------------------------------------ the theorems

  /** Agreement: every chain is a prefix of the leader's log, which the leader's own
      chain reaches up to the one outstanding proposal; so any two chains agree
      wherever both have a block, and none is more than a block ahead of the leader. */
  lemma ChainsArePrefixes(size: nat, run: seq<System>, k: nat, i: nat, j: nat)
    requires size > 0 && Run(size, run) && k < |run| && i < size && j < size
    ensures var s := run[k]; var log := Log(s.issued);
            && |s.nodes| == size
            && Prefix(s.nodes[i].chain, log) && |s.nodes[i].chain| > 0
            && |log| == |s.nodes[0].chain| + (if s.nodes[0].locked then 1 else 0)
            && (Prefix(s.nodes[i].chain, s.nodes[j].chain) || Prefix(s.nodes[j].chain, s.nodes[i].chain))
  {
    RunInv(size, run, k);
    var s := run[k];
    assert ChainOk(s.nodes[i].chain, s.issued) && ChainOk(s.nodes[j].chain, s.issued);
  }

  /** Node j counted 2f+1 prepares for d, each sent by a node that holds every block before d. */
  ghost predicate Prepared(s: System, j: nat, d: Digest) {
    && j < |s.nodes| && |VotesFor(s.nodes[j].prepares, d)| >= 2 * Faults(|s.nodes|) + 1
    && forall h | h in VotesFor(s.nodes[j].prepares, d) ::
         h < |s.nodes| && SentPrepare(s.net, d, h) && |s.nodes[h].chain| >= d.block.number
  }

  /** Every request a node has applied through handleCommit carries 2f+1 commit votes
      of distinct nodes, each of which had itself prepared it; and every block of its
      chain was so applied or came in a reply to its request for old blocks. */
  lemma AppliedHasQuorums(size: nat, run: seq<System>, k: nat, i: nat)
    requires size > 0 && Run(size, run) && k < |run| && i < size
    ensures |run[k].nodes| == size
    ensures var s := run[k]; var n := s.nodes[i];
            && (forall d | d in n.applied ::
                  && |VotesFor(n.commits, d)| >= 2 * Faults(size) + 1
                  && forall j | j in VotesFor(n.commits, d) :: SentCommit(s.net, d, j) && Prepared(s, j, d))
            && (forall l | 0 < l < |n.chain| :: Obtained(n.chain[l], n.applied, n.fetched))
  {
    RunInv(size, run, k);
    var s := run[k];
    var n := s.nodes[i];
    assert NodeInv(n, i, Faults(size), s.net, s.issued);
    forall d, j | d in n.applied && j in VotesFor(n.commits, d)
      ensures SentCommit(s.net, d, j) && Prepared(s, j, d)
    {
      assert SentCommit(s.net, d, j);
      assert MsgInv(Commit(d, d.block.number, j), s.nodes, s.issued);
      PreparedBy(s, j, d);
    }
  }

  lemma PreparedBy(s: System, j: nat, d: Digest)
    requires Inv(s) && j < |s.nodes| && |VotesFor(s.nodes[j].prepares, d)| >= 2 * Faults(|s.nodes|) + 1
    ensures Prepared(s, j, d)
  {
    forall h | h in VotesFor(s.nodes[j].prepares, d)
      ensures h < |s.nodes| && SentPrepare(s.net, d, h) && |s.nodes[h].chain| >= d.block.number
    {
      assert NodeInv(s.nodes[j], j, Faults(|s.nodes|), s.net, s.issued);
      assert SentPrepare(s.net, d, h);
      assert MsgInv(Prepare(d, d.block.number, h), s.nodes, s.issued);
    }
  }

  /** Round discipline: the leader has at most one proposal outstanding, exactly
      while it holds the lock; its sequence number counts the completed rounds; it has
      decided its proposals in order; and no node applies a digest twice. */
  lemma RoundDiscipline(size: nat, run: seq<System>, k: nat, i: nat)
    requires size > 0 && Run(size, run) && k < |run| && i < size
    ensures |run[k].nodes| == size
    ensures var s := run[k]; var leader := s.nodes[0];
            && |s.issued| == |leader.applied| + (if leader.locked then 1 else 0)
            && leader.applied == s.issued[..|leader.applied|]
            && leader.sequenceID == |leader.applied| + 1
            && forall a, b | 0 <= a < b < |s.nodes[i].applied| :: s.nodes[i].applied[a] != s.nodes[i].applied[b]
  {
    RunInv(size, run, k);
    assert NodeInv(run[k].nodes[i], i, Faults(size), run[k].net, run[k].issued);
  }

  /** A leader's commit handler that reaches the unlock does so with the lock held,
      for its outstanding proposal, which it has in its pool: it never asks for old
      blocks. */
  lemma UnlockOnlyWhileHeld(size: nat, run: seq<System>, k: nat, d: Digest, q: nat, j: nat)
    requires size > 0 && Run(size, run) && k < |run| && |run[k].nodes| == size
    requires Commit(d, q, j) in run[k].net && Decides(run[k].nodes[0], Faults(size), d, q, j)
    ensures var s := run[k];
            && |s.issued| > 0 && s.nodes[0].locked && d == s.issued[|s.issued| - 1] && d in s.nodes[0].requestPool
            && !HandleCommit(s.nodes[0], Faults(size), d, q, j).node.locked
  {
    RunInv(size, run, k);
    assert MsgInv(Commit(d, q, j), run[k].nodes, run[k].issued);
    LeaderDecides(run[k].nodes[0], Faults(size), run[k].issued, d, q, j);
  }
}
