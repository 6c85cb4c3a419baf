/** That 2f+1 votes are enough: what a node has done once it has counted them. */
module PbftProgress {
  import opened Pbft
  import opened PbftSafety

  ghost predicate Asked(net: set<Msg>, i: nat) { exists a: nat, b: nat :: RequestOld(a, b, i) in net }

  /** A digest is answered on a quorum of commits or on its arrival in a reply, and at no
      other time. */
  ghost predicate RepliesExact(n: Node, f: nat) {
    forall d: Digest :: d in n.isReply <==> |VotesFor(n.commits, d)| >= 2 * f + 1 || d in n.fetched
  }

  ghost predicate BroadcastsExact(n: Node, f: nat, net: set<Msg>) {
    forall d: Digest :: (d in n.isCommitBroadcast <==> |VotesFor(n.prepares, d)| >= 2 * f + 1)
                     && (d in n.isCommitBroadcast ==> SentCommit(net, d, n.id))
  }

  /** What was answered was applied, or fetched, or asked for. */
  ghost predicate Served(n: Node, net: set<Msg>) {
    forall d: Digest | d in n.isReply :: d in n.applied || d in n.fetched || Asked(net, n.id)
  }

  ghost predicate Acts(n: Node, f: nat, net: set<Msg>) {
    RepliesExact(n, f) && BroadcastsExact(n, f, net) && Served(n, net)
  }

  ghost predicate AllAct(s: System) {
    forall i | 0 <= i < |s.nodes| :: Acts(s.nodes[i], Faults(|s.nodes|), s.net)
  }

  // ------------------------------------------------ every step keeps it

  lemma ActsFrame(n: Node, f: nat, net: set<Msg>, net': set<Msg>)
    requires Acts(n, f, net) && net <= net'
    ensures Acts(n, f, net')
  {
    forall d: Digest | d in n.isReply ensures d in n.applied || d in n.fetched || Asked(net', n.id) {
      if Asked(net, n.id) {
        var a: nat, b: nat :| RequestOld(a, b, n.id) in net;
        assert RequestOld(a, b, n.id) in net';
      }
    }
  }

  /** A handler that leaves votes and answers alone. */
  lemma QuietActs(n: Node, n': Node, f: nat, net: set<Msg>)
    requires Acts(n, f, net) && n'.id == n.id && n'.prepares == n.prepares && n'.commits == n.commits
    requires n'.isReply == n.isReply && n'.isCommitBroadcast == n.isCommitBroadcast
    requires n'.applied == n.applied && n'.fetched == n.fetched
    ensures Acts(n', f, net)
  {
  }

  lemma PrepareActs(n: Node, f: nat, net: set<Msg>, d: Digest, q: nat, j: nat)
    requires Acts(n, f, net) && d.block.number == q
    ensures var o := HandlePrepare(n, f, d, q, j); Acts(o.node, f, net + o.sent)
  {
    var o := HandlePrepare(n, f, d, q, j);
    ActsFrame(n, f, net, net + o.sent);
    VotesAdded(n.prepares, d, j);
    var n' := o.node;
    if n' != n {
      forall e: Digest ensures (e in n'.isCommitBroadcast <==> |VotesFor(n'.prepares, e)| >= 2 * f + 1)
                            && (e in n'.isCommitBroadcast ==> SentCommit(net + o.sent, e, n'.id))
      {
        if e != d { assert VotesFor(n'.prepares, e) == VotesFor(n.prepares, e); }
        else { VotesMore(n.prepares, d, j); }
      }
      assert BroadcastsExact(n', f, net + o.sent);
    }
  }

  lemma VotesMore(votes: Votes, d: Digest, j: nat)
    ensures |VotesFor(AddVote(votes, d, j), d)| >= |VotesFor(votes, d)|
  {
    if j in VotesFor(votes, d) { assert VotesFor(votes, d) + {j} == VotesFor(votes, d); }
  }

  lemma CommitActs(n: Node, f: nat, net: set<Msg>, d: Digest, q: nat, j: nat)
    requires Acts(n, f, net)
    ensures var o := HandleCommit(n, f, d, q, j); Acts(o.node, f, net + o.sent)
  {
    CommitReplies(n, f, d, q, j);
    CommitServed(n, f, net, d, q, j);
    CommitBroadcasts(n, f, net, d, q, j);
  }

  lemma CommitBroadcasts(n: Node, f: nat, net: set<Msg>, d: Digest, q: nat, j: nat)
    requires BroadcastsExact(n, f, net)
    ensures var o := HandleCommit(n, f, d, q, j); BroadcastsExact(o.node, f, net + o.sent)
  {
    var n' := HandleCommit(n, f, d, q, j).node;
    assert n'.prepares == n.prepares && n'.isCommitBroadcast == n.isCommitBroadcast && n'.id == n.id;
  }

  lemma CommitReplies(n: Node, f: nat, d: Digest, q: nat, j: nat)
    requires RepliesExact(n, f)
    ensures RepliesExact(HandleCommit(n, f, d, q, j).node, f)
  {
    var n' := HandleCommit(n, f, d, q, j).node;
    if q >= n.sequenceID {
      VotesMore(n.commits, d, j);
      assert n'.commits == AddVote(n.commits, d, j) && n'.fetched == n.fetched;
      forall e: Digest
        ensures e in n'.isReply <==> |VotesFor(n'.commits, e)| >= 2 * f + 1 || e in n'.fetched
      {
        if e != d { assert VotesFor(n'.commits, e) == VotesFor(n.commits, e); }
      }
    }
  }

  lemma CommitServed(n: Node, f: nat, net: set<Msg>, d: Digest, q: nat, j: nat)
    requires Served(n, net)
    ensures var o := HandleCommit(n, f, d, q, j); Served(o.node, net + o.sent)
  {
    var o := HandleCommit(n, f, d, q, j);
    forall e: Digest | e in o.node.isReply
      ensures e in o.node.applied || e in o.node.fetched || Asked(net + o.sent, n.id)
    {
      if e in n.isReply {
        if Asked(net, n.id) {
          var a: nat, b: nat :| RequestOld(a, b, n.id) in net;
          assert RequestOld(a, b, n.id) in net + o.sent;
        }
      } else if d !in n.requestPool {
        assert RequestOld(n.sequenceID + 1, q, n.id) in net + o.sent;
      }
    }
  }

  lemma {:induction false} AddBlocksQuiet(n: Node, reqs: seq<Request>)
    ensures AddBlocks(n, reqs) == n.(chain := AddBlocks(n, reqs).chain)
  {
    if reqs != [] { AddBlocksQuiet(n, reqs[..|reqs| - 1]); }
  }

  lemma {:induction false} RememberOldActs(n: Node, first: nat, reqs: seq<Request>, f: nat, net: set<Msg>)
    requires Acts(n, f, net)
    ensures Acts(RememberOld(n, first, reqs), f, net)
    ensures RememberOld(n, first, reqs).sequenceID == n.sequenceID
  {
    if reqs != [] { RememberOldActs(n, first, reqs[..|reqs| - 1], f, net); }
  }

  lemma SendOldActs(n: Node, first: nat, last: nat, reqs: seq<Request>, f: nat, net: set<Msg>)
    requires Acts(n, f, net)
    ensures var o := HandleSendOld(n, first, last, reqs); Acts(o.node, f, net + o.sent)
  {
    var o := HandleSendOld(n, first, last, reqs);
    var n1 := if last - first + 1 != |reqs| then n else AddBlocks(n, reqs);
    AddBlocksQuiet(n, reqs);
    QuietActs(n, n1, f, net);
    RememberOldActs(n1, first, reqs, f, net);
    QuietActs(RememberOld(n1, first, reqs), o.node, f, net);
    ActsFrame(o.node, f, net, net + o.sent);
  }

  lemma HandleActs(s: System, i: nat, m: Msg)
    requires Inv(s) && AllAct(s) && i < |s.nodes| && m in s.net
    ensures var o := Handle(s.nodes[i], Faults(|s.nodes|), m); Acts(o.node, Faults(|s.nodes|), s.net + o.sent)
  {
    assert Acts(s.nodes[i], Faults(|s.nodes|), s.net);
    if m.Prepare? { PrepareNumber(s, m); }
    MessageActs(s.nodes[i], Faults(|s.nodes|), s.net, m);
  }

  lemma PrepareNumber(s: System, m: Msg)
    requires Inv(s) && m in s.net && m.Prepare?
    ensures m.digest.block.number == m.seqID
  {
    assert MsgInv(m, s.nodes, s.issued);
    ProposalAt(s.issued, m.digest, m.seqID);
  }

  lemma MessageActs(n: Node, f: nat, net: set<Msg>, m: Msg)
    requires Acts(n, f, net) && (m.Prepare? ==> m.digest.block.number == m.seqID)
    ensures var o := Handle(n, f, m); Acts(o.node, f, net + o.sent)
  {
    match m
    case PrePrepare(r, d, q) => PrePrepareActs(n, f, net, r, d, q);
    case Prepare(d, q, j) => PrepareActs(n, f, net, d, q, j);
    case Commit(d, q, j) => CommitActs(n, f, net, d, q, j);
    case RequestOld(a, b, j) => ActsFrame(n, f, net, net + HandleRequestOld(n, a, b, j).sent);
    case SendOld(a, b, reqs, _) => SendOldActs(n, a, b, reqs, f, net);
  }

  lemma PrePrepareActs(n: Node, f: nat, net: set<Msg>, r: Request, d: Digest, q: nat)
    requires Acts(n, f, net)
    ensures var o := HandlePrePrepare(n, r, d, q); Acts(o.node, f, net + o.sent)
  {
    var o := HandlePrePrepare(n, r, d, q);
    QuietActs(n, o.node, f, net);
    ActsFrame(o.node, f, net, net + o.sent);
  }

  lemma StepActs(s: System, step: Step)
    requires Inv(s) && AllAct(s) && Enabled(s, step)
    ensures AllAct(Apply(s, step))
  {
    var s', f := Apply(s, step), Faults(|s.nodes|);
    forall i | 0 <= i < |s'.nodes| ensures Acts(s'.nodes[i], Faults(|s'.nodes|), s'.net) {
      assert Acts(s.nodes[i], f, s.net);
      match step
      case DoPropose(body, time) =>
        if i == 0 { QuietActs(s.nodes[0], s'.nodes[0], f, s.net); }
        ActsFrame(s'.nodes[i], f, s.net, s'.net);
      case DoHandle(k, m) =>
        if i == k { HandleActs(s, k, m); } else { ActsFrame(s.nodes[i], f, s.net, s'.net); }
    }
  }

  lemma InitActs(size: nat)
    ensures AllAct(Init(size))
  {
    forall i | 0 <= i < size ensures Acts(Init(size).nodes[i], Faults(size), Init(size).net) {
      assert Init(size).nodes[i] == NewNode(i);
    }
  }

  lemma {:induction false} RunActs(size: nat, run: seq<System>, k: nat)
    requires size > 0 && Run(size, run) && k < |run|
    ensures AllAct(run[k])
  {
    if k == 0 {
      InitActs(size);
    } else {
      RunActs(size, run, k - 1);
      RunNextActs(size, run, k);
    }
  }

  lemma RunNextActs(size: nat, run: seq<System>, k: nat)
    requires size > 0 && Run(size, run) && 0 < k < |run| && AllAct(run[k - 1])
    ensures AllAct(run[k])
  {
    RunInv(size, run, k - 1);
    assert NextAt(run, k);
    NextActs(run[k - 1], run[k]);
  }

  lemma NextActs(s: System, s': System)
    requires Inv(s) && AllAct(s) && Next(s, s')
    ensures AllAct(s')
  {
    var step :| Enabled(s, step) && s' == Apply(s, step);
    StepActs(s, step);
  }

  // ------------------------------------------------ the threshold is exact

  /** In every run, at every node: its commit for a digest is out exactly when it has
      counted 2f+1 prepares; a digest is answered exactly when it has counted 2f+1 commits
      or got the request in a reply; and what was answered was applied, fetched or asked
      for. At the leader, applied and 2f+1 commits are the same thing. */
  lemma QuorumsAreEnough(size: nat, run: seq<System>, k: nat, i: nat, d: Digest)
    requires size > 0 && Run(size, run) && k < |run| && i < size
    ensures |run[k].nodes| == size
    ensures var s := run[k]; var n := s.nodes[i]; var quorum := 2 * Faults(size) + 1;
            && (SentCommit(s.net, d, i) <==> |VotesFor(n.prepares, d)| >= quorum)
            && (d in n.isReply <==> |VotesFor(n.commits, d)| >= quorum || d in n.fetched)
            && (|VotesFor(n.commits, d)| >= quorum ==> d in n.applied || d in n.fetched || Asked(s.net, i))
            && (i == 0 ==> (d in n.applied <==> |VotesFor(n.commits, d)| >= quorum))
  {
    RunInv(size, run, k);
    RunActs(size, run, k);
    var s := run[k];
    var n := s.nodes[i];
    assert NodeInv(n, i, Faults(size), s.net, s.issued) && Acts(n, Faults(size), s.net);
    if SentCommit(s.net, d, i) { assert MsgInv(Commit(d, d.block.number, i), s.nodes, s.issued); }
    if i == 0 { LeaderAnswers(s, d); }
  }

  lemma LeaderAnswers(s: System, d: Digest)
    requires Inv(s) && AllAct(s)
    ensures var n := s.nodes[0]; d in n.applied <==> |VotesFor(n.commits, d)| >= 2 * Faults(|s.nodes|) + 1
  {
    var n := s.nodes[0];
    assert Acts(n, Faults(|s.nodes|), s.net) && LeaderInv(n, s.issued);
    assert n.applied == s.issued[..|n.applied|];
    assert d in n.isReply <==> d in n.applied;
  }

  // ------------------------------------------------ old requests

  predicate Recorded(n: Node, q: nat) { q in n.height2Digest && n.height2Digest[q] in n.requestPool }

  /** The loop stops at the end of what was asked or at the first height not recorded,
      and nowhere else. */
  lemma {:induction false} OldRequestsReach(n: Node, first: nat, last: nat)
    ensures var reqs := OldRequests(n, first, last);
            && (forall q | first <= q < first + |reqs| :: Recorded(n, q) && reqs[q - first] == n.height2Digest[q])
            && (first <= last ==> first + |reqs| <= last + 1)
            && (first + |reqs| > last || !Recorded(n, first + |reqs|))
    decreases last + 1 - first
  {
    if first <= last && Recorded(n, first) {
      OldRequestsReach(n, first + 1, last);
      var rest, reqs := OldRequests(n, first + 1, last), OldRequests(n, first, last);
      assert reqs == [n.height2Digest[first]] + rest;
      forall q | first <= q < first + |reqs| ensures Recorded(n, q) && reqs[q - first] == n.height2Digest[q] {
        if q > first { assert reqs[q - first] == rest[q - (first + 1)]; }
      }
    }
  }

  ghost predicate Records(s: System) {
    |s.nodes| > 0 && forall q: nat | 0 < q <= |s.issued| :: q in s.nodes[0].height2Digest
  }

  lemma {:induction false} RememberOldGrows(n: Node, first: nat, reqs: seq<Request>)
    ensures n.height2Digest.Keys <= RememberOld(n, first, reqs).height2Digest.Keys
  {
    if reqs != [] { RememberOldGrows(n, first, reqs[..|reqs| - 1]); }
  }

  lemma HeightsGrow(n: Node, f: nat, m: Msg)
    ensures n.height2Digest.Keys <= Handle(n, f, m).node.height2Digest.Keys
  {
    if m.SendOld? {
      AddBlocksQuiet(n, m.reqs);
      RememberOldGrows(if m.last - m.first + 1 != |m.reqs| then n else AddBlocks(n, m.reqs), m.first, m.reqs);
    }
  }

  lemma NextRecords(s: System, s': System)
    requires Inv(s) && Records(s) && Next(s, s')
    ensures Records(s')
  {
    assert LeaderInv(s.nodes[0], s.issued);
    StepRecords(s, s');
  }

  lemma StepRecords(s: System, s': System)
    requires Records(s) && Next(s, s') && (!s.nodes[0].locked ==> s.nodes[0].sequenceID == |s.issued| + 1)
    ensures Records(s')
  {
    var step :| Enabled(s, step) && s' == Apply(s, step);
    match step
    case DoPropose(body, time) =>
    case DoHandle(i, m) => HeightsGrow(s.nodes[i], Faults(|s.nodes|), m);
  }

  lemma {:induction false} RunRecords(size: nat, run: seq<System>, k: nat)
    requires size > 0 && Run(size, run) && k < |run|
    ensures Records(run[k])
  {
    if k > 0 {
      RunRecords(size, run, k - 1);
      RunInv(size, run, k - 1);
      assert NextAt(run, k);
      NextRecords(run[k - 1], run[k]);
    }
  }

  /** In every run the leader's reply holds every proposal asked for that there is. */
  lemma LeaderRepliesInFull(size: nat, run: seq<System>, k: nat, first: nat, last: nat)
    requires size > 0 && Run(size, run) && k < |run| && 0 < first
    ensures |run[k].nodes| == size
    ensures var s := run[k];
            var to := if last < |s.issued| then last else |s.issued|;
            OldRequests(s.nodes[0], first, last) == if first <= to then s.issued[first - 1..to] else []
  {
    RunInv(size, run, k);
    RunRecords(size, run, k);
    var s := run[k];
    forall q: nat ensures Recorded(s.nodes[0], q) <==> 0 < q <= |s.issued| { LeaderRecorded(s, q); }
    forall q: nat | 0 < q <= |s.issued| ensures s.nodes[0].height2Digest[q] == s.issued[q - 1] { LeaderRecorded(s, q); }
    FullReply(s.nodes[0], s.issued, first, last);
  }

  lemma FullReply(n: Node, issued: seq<Request>, first: nat, last: nat)
    requires 0 < first && (forall q: nat :: Recorded(n, q) <==> 0 < q <= |issued|)
    requires forall q: nat | 0 < q <= |issued| :: q in n.height2Digest && n.height2Digest[q] == issued[q - 1]
    ensures var to := if last < |issued| then last else |issued|;
            OldRequests(n, first, last) == if first <= to then issued[first - 1..to] else []
  {
    var to := if last < |issued| then last else |issued|;
    var reqs := OldRequests(n, first, last);
    OldRequestsReach(n, first, last);
    if reqs != [] {
      assert Recorded(n, first + |reqs| - 1);
      assert first + |reqs| - 1 == to;
      forall j | 0 <= j < |reqs| ensures reqs[j] == issued[first - 1 + j] { assert Recorded(n, first + j); }
    }
  }

  lemma LeaderRecorded(s: System, q: nat)
    requires Inv(s) && Records(s)
    ensures Recorded(s.nodes[0], q) <==> 0 < q <= |s.issued|
    ensures 0 < q <= |s.issued| ==> s.nodes[0].height2Digest[q] == s.issued[q - 1]
  {
    var n := s.nodes[0];
    assert NodeInv(n, 0, Faults(|s.nodes|), s.net, s.issued) && HeightsOk(n.height2Digest, s.issued);
    if q in n.height2Digest {
      assert IsProposal(s.issued, n.height2Digest[q], q);
      assert s.issued[q - 1] in s.issued;
    }
  }
}
