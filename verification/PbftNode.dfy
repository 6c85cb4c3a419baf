/** The consensus node as the code keeps it, proved against the handlers of
    module Pbft (consensus_shard/pbft_all/messageHandle.go, toolFuncs.go). */
module PbftNodes {
  import opened Collections
  import opened Pbft

  type Lists = map<Digest, seq<nat>>

  function Elems(xs: seq<nat>): set<nat> { set x | x in xs }

  ghost predicate AllDistinct(lists: Lists) { forall d | d in lists :: Distinct(lists[d]) }

  function AsVotes(lists: Lists): Votes { map d | d in lists :: Elems(lists[d]) }

  /** Without repetitions, the length of a vote list is the number of voters. */
  lemma {:induction false} CountDistinct(xs: seq<nat>)
    requires Distinct(xs)
    ensures |Elems(xs)| == |xs|
  {
    if xs != [] {
      var init := xs[..|xs| - 1];
      CountDistinct(init);
      assert Elems(xs) == Elems(init) + {xs[|xs| - 1]};
    }
  }

  /** set2DMap scans the recorded voters and adds the sender only if it is new. */
  method Set2DMap(lists: Lists, d: Digest, sender: nat) returns (lists': Lists)
    requires AllDistinct(lists)
    ensures AllDistinct(lists') && d in lists' && AsVotes(lists') == AddVote(AsVotes(lists), d, sender)
  {
    var voters := if d in lists then lists[d] else [];
    var found := false;
    for i := 0 to |voters|
      invariant found <==> sender in voters[..i]
    {
      if voters[i] == sender { found := true; }
    }
    assert voters[..|voters|] == voters;
    lists' := lists[d := if found then voters else voters + [sender]];
    VotesNow(lists, voters, d, sender, lists'[d]);
  }

  lemma VotesNow(lists: Lists, voters: seq<nat>, d: Digest, sender: nat, now: seq<nat>)
    requires voters == if d in lists then lists[d] else []
    requires now == if sender in voters then voters else voters + [sender]
    ensures AsVotes(lists[d := now]) == AddVote(AsVotes(lists), d, sender)
  {
    assert Elems(now) == Elems(voters) + {sender};
    var left, right := AsVotes(lists[d := now]), AddVote(AsVotes(lists), d, sender);
    assert left.Keys == right.Keys;
    forall e | e in left ensures left[e] == right[e] { }
  }

  class PbftNode {
    const id: nat
    const f: nat
    var chain: seq<Block>
    var sequenceID: nat
    var requestPool: set<Request>
    var height2Digest: map<nat, Digest>
    var cntPrepareConfirm: Lists
    var cntCommitConfirm: Lists
    var isCommitBroadcast: set<Digest>
    var isReply: set<Digest>
    var sequenceLocked: bool
    ghost var applied: seq<Digest>
    ghost var fetched: set<Request>

    ghost predicate Valid()
      reads this
    {
      |chain| > 0 && AllDistinct(cntPrepareConfirm) && AllDistinct(cntCommitConfirm)
    }

    ghost function View(): Node
      reads this
    {
      Node(id, chain, sequenceID, requestPool, height2Digest, AsVotes(cntPrepareConfirm), AsVotes(cntCommitConfirm),
           isCommitBroadcast, isReply, sequenceLocked, applied, fetched)
    }

    constructor (id: nat, f: nat)
      ensures Valid() && View() == NewNode(id) && this.f == f
    {
      this.id, this.f := id, f;
      chain, sequenceID, requestPool, height2Digest := [GENESIS], 1, {}, map[];
      cntPrepareConfirm, cntCommitConfirm, isCommitBroadcast, isReply := map[], map[], {}, {};
      sequenceLocked, applied, fetched := false, [], {};
    }

    /** The proposing round; the caller has found the lock free. */
    method DoPropose(body: nat, time: nat) returns (sent: set<Msg>)
      requires Valid() && !sequenceLocked
      modifies this`sequenceLocked, this`requestPool, this`height2Digest
      ensures Valid() && Outcome(View(), sent) == Propose(old(View()), body, time)
    {
      sequenceLocked := true;
      var r := Request(NextBlock(chain[|chain| - 1], body), time);
      requestPool := requestPool + {r};
      height2Digest := height2Digest[sequenceID := r];
      sent := {PrePrepare(r, r, sequenceID)};
    }

    method OnPrePrepare(r: Request, d: Digest, seqID: nat) returns (sent: set<Msg>)
      requires Valid()
      modifies this`requestPool, this`height2Digest
      ensures Valid() && Outcome(View(), sent) == HandlePrePrepare(old(View()), r, d, seqID)
    {
      sent := {};
      if seqID < sequenceID { return; }
      var flag := false;
      if d != r {
        // refuse to prepare
      } else if sequenceID < seqID {
        requestPool, height2Digest := requestPool + {r}, height2Digest[seqID := r];
      } else {
        flag := r.block.parent == HashOf(chain[|chain| - 1]);
        requestPool, height2Digest := requestPool + {r}, height2Digest[seqID := r];
      }
      if flag { sent := {Prepare(d, seqID, id)}; }
    }

    method OnPrepare(d: Digest, seqID: nat, sender: nat) returns (sent: set<Msg>)
      requires Valid()
      modifies this`cntPrepareConfirm, this`isCommitBroadcast
      ensures Valid() && Outcome(View(), sent) == HandlePrepare(old(View()), f, d, seqID, sender)
    {
      sent := {};
      if seqID < sequenceID { return; }
      if d !in requestPool {
        return;
      } else if sequenceID < seqID {
        return;
      }
      cntPrepareConfirm := Set2DMap(cntPrepareConfirm, d, sender);
      var cnt := |cntPrepareConfirm[d]|;
      CountDistinct(cntPrepareConfirm[d]);
      if cnt >= 2 * f + 1 && d !in isCommitBroadcast {
        sent := {Commit(d, seqID, id)};
        isCommitBroadcast := isCommitBroadcast + {d};
      }
    }

    method AddBlockTo(b: Block)
      requires Valid()
      modifies this`chain
      ensures Valid() && View() == AddBlock(old(View()), b)
    {
      var head := chain[|chain| - 1];
      if b.number != head.number + 1 { return; }
      if b.parent != HashOf(head) { return; }
      chain := chain + [b];
    }

    method OnCommit(d: Digest, seqID: nat, sender: nat) returns (sent: set<Msg>)
      requires Valid()
      modifies this`cntCommitConfirm, this`isReply, this`chain, this`sequenceID, this`sequenceLocked, this`applied
      ensures Valid() && Outcome(View(), sent) == HandleCommit(old(View()), f, d, seqID, sender)
    {
      sent := {};
      if seqID < sequenceID { return; }
      cntCommitConfirm := Set2DMap(cntCommitConfirm, d, sender);
      var cnt := |cntCommitConfirm[d]|;
      CountDistinct(cntCommitConfirm[d]);
      if cnt >= 2 * f + 1 && d !in isReply {
        sent := OnQuorum(d, seqID);
      }
    }

    /** 2f+1 commits for a digest not yet decided. */
    method OnQuorum(d: Digest, seqID: nat) returns (sent: set<Msg>)
      requires Valid()
      modifies this`isReply, this`chain, this`sequenceID, this`sequenceLocked, this`applied
      ensures Valid() && Outcome(View(), sent) == Decide(old(View()), d, seqID)
    {
      sent := {};
      if d !in requestPool {
        isReply := isReply + {d};
        sent := {RequestOld(sequenceID + 1, seqID, id)};
      } else {
        AddBlockTo(d.block);
        applied := applied + [d];
        isReply := isReply + {d};
        sequenceID := sequenceID + 1;
      }
      if id == 0 { sequenceLocked := false; }
    }

    method OnRequestOld(first: nat, last: nat, sender: nat) returns (sent: set<Msg>)
      requires Valid()
      ensures Outcome(View(), sent) == HandleRequestOld(View(), first, last, sender)
    {
      if id != 0 { return {}; }
      var reqs: seq<Request> := [];
      var height := first;
      while height <= last
        invariant OldRequests(View(), first, last) == reqs + OldRequests(View(), height, last)
        decreases last + 1 - height
      {
        if height !in height2Digest { break; }
        if height2Digest[height] !in requestPool { break; }
        reqs := reqs + [height2Digest[height]];
        height := height + 1;
      }
      assert OldRequests(View(), height, last) == [];
      assert OldRequests(View(), first, last) == reqs;
      sent := {SendOld(first, last, reqs, sender)};
    }

    method AddOldBlocks(reqs: seq<Request>)
      requires Valid()
      modifies this`chain
      ensures Valid() && View() == AddBlocks(old(View()), reqs)
    {
      for k := 0 to |reqs|
        invariant Valid() && View() == AddBlocks(old(View()), reqs[..k])
      {
        assert reqs[..k + 1][..k] == reqs[..k];
        AddBlockTo(reqs[k].block);
      }
      assert reqs[..|reqs|] == reqs;
    }

    method RecordOld(first: nat, reqs: seq<Request>)
      requires Valid()
      modifies this`requestPool, this`height2Digest, this`isReply, this`fetched
      ensures Valid() && View() == RememberOld(old(View()), first, reqs)
    {
      for k := 0 to |reqs|
        invariant Valid() && View() == RememberOld(old(View()), first, reqs[..k])
      {
        assert reqs[..k + 1][..k] == reqs[..k];
        RecordOne(first + k, reqs[k]);
      }
      assert reqs[..|reqs|] == reqs;
    }

    method RecordOne(height: nat, r: Request)
      requires Valid()
      modifies this`requestPool, this`height2Digest, this`isReply, this`fetched
      ensures Valid()
      ensures View() == Remember(old(View()), r, height).(isReply := old(isReply) + {r}, fetched := old(fetched) + {r})
    {
      requestPool := requestPool + {r};
      height2Digest := height2Digest[height := r];
      isReply := isReply + {r};
      fetched := fetched + {r};
    }

    method OnSendOld(first: nat, last: nat, reqs: seq<Request>) returns (sent: set<Msg>)
      requires Valid()
      modifies this`chain, this`sequenceID, this`requestPool, this`height2Digest, this`isReply, this`fetched
      ensures Valid() && Outcome(View(), sent) == HandleSendOld(old(View()), first, last, reqs)
    {
      if last - first + 1 == |reqs| { AddOldBlocks(reqs); }
      RecordOld(first, reqs);
      sequenceID := last + 1;
      sent := PrepareNext();
    }

    /** The prepare for a request already recorded at the node's own height. */
    method PrepareNext() returns (sent: set<Msg>)
      requires Valid()
      ensures sent == if sequenceID in height2Digest && height2Digest[sequenceID] in requestPool
                         && IsValidBlock(View(), height2Digest[sequenceID].block)
                      then {Prepare(height2Digest[sequenceID], sequenceID, id)} else {}
    {
      sent := {};
      if sequenceID in height2Digest {
        var d := height2Digest[sequenceID];
        if d in requestPool && d.block.parent == HashOf(chain[|chain| - 1]) {
          sent := {Prepare(d, sequenceID, id)};
        }
      }
    }
  }
}
