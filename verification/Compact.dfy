/** Compact block proposals: transaction bodies are streamed and cached under their
    hash, a proposal carries only keys, and a replica fetches what it lacks from the
    proposer (consensus_shard/pbft_all/overhead.go). Codecs are inverse pairs and
    hashes injective, so both are free constructors; an encoding is a value that the
    later marking of a transaction as relayed cannot change. */
module Compact {
  import opened Collections
  import Ledger

  type Tx = Ledger.Tx

  /** Byte strings: encodings of transactions, or anything else. */
  datatype Bytes = TxBytes(tx: Tx) | OtherBytes(nat)
  datatype Key = Key(bytes: Bytes)

  datatype Block = Block(header: nat, hash: nat, body: seq<Tx>)
  datatype Content = NoContent | BlockContent(block: Block) | PartitionContent(nat)
  datatype Kind = BlockRequest | PartitionReq
  datatype Request = Request(kind: Kind, content: Content, time: nat)
  datatype Digest = Digest(request: Request)
  datatype PrePrepare = PrePrepare(request: Request, digest: Digest, seqID: nat)

  datatype Proposal = Proposal(prePrepare: PrePrepare, header: nat, hash: nat, keys: seq<Key>, leader: nat)

  datatype Msg =
    | Full(prePrepare: PrePrepare)
    | Compacted(proposal: Proposal)
    | Stream(bodies: seq<Bytes>)
    | Missing(keys: seq<Key>, reply: nat, leader: nat)
    | Bodies(bodies: seq<Bytes>, receiver: nat)

  type Cache = map<Key, Bytes>

  // ------------------------------------------------ the pieces of a proposal

  function Encodings(txs: seq<Tx>): seq<Bytes> { seq(|txs|, i requires 0 <= i < |txs| => TxBytes(txs[i])) }

  function Keys(bodies: seq<Bytes>): seq<Key> { seq(|bodies|, i requires 0 <= i < |bodies| => Key(bodies[i])) }

  function CacheBodies(cache: Cache, bodies: seq<Bytes>): Cache {
    if bodies == [] then cache
    else CacheBodies(cache, bodies[..|bodies| - 1])[Key(bodies[|bodies| - 1]) := bodies[|bodies| - 1]]
  }

  /** A proposal as Propose forms it: digested, and a block request carries a block. */
  predicate WellFormed(pp: PrePrepare) {
    pp.digest == Digest(pp.request) && (pp.request.kind == BlockRequest <==> pp.request.content.BlockContent?)
  }

  function CompactOf(pp: PrePrepare, leader: nat): Proposal
    requires WellFormed(pp) && pp.request.kind == BlockRequest
  {
    var b := pp.request.content.block;
    Proposal(pp.(request := pp.request.(content := NoContent)), b.header, b.hash, Keys(Encodings(b.body)), leader)
  }

  /** The proposal put together from its header and decoded bodies. */
  function Rebuild(cp: Proposal, body: seq<Tx>): PrePrepare {
    cp.prePrepare.(request := cp.prePrepare.request.(content := BlockContent(Block(cp.header, cp.hash, body))))
  }

  function Lacking(cache: Cache, keys: seq<Key>): seq<Key> {
    if keys == [] then []
    else Lacking(cache, keys[..|keys| - 1]) + if keys[|keys| - 1] in cache then [] else [keys[|keys| - 1]]
  }

  /** The bodies for a request, or nothing when the handler panics. */
  function Lookup(cache: Cache, keys: seq<Key>): Option<seq<Bytes>> {
    if keys == [] then Some([])
    else
      var init, k := Lookup(cache, keys[..|keys| - 1]), keys[|keys| - 1];
      if init.Some? && k in cache then Some(init.value + [cache[k]]) else None
  }

  // ------------------------------------------------ the shard

  /** A proposal being recovered: the keys found lacking at the start and the bodies
      taken so far. Jobs are only ever added, so each may be resumed at any time. */
  datatype Job = Job(proposal: Proposal, lacking: seq<Key>, got: seq<Tx>)

  datatype Node = Node(cache: Cache, jobs: set<Job>, delivered: set<PrePrepare>, panicked: bool)

  /** proposed records what leaders handed to encodeProposal. */
  datatype System = System(nodes: seq<Node>, net: set<Msg>, proposed: set<PrePrepare>)

  datatype Step =
    | DoStream(node: nat, txs: seq<Tx>)
    | DoPropose(node: nat, pp: PrePrepare)
    | DoDeliverFull(node: nat, msg: Msg)
    | DoCache(node: nat, msg: Msg)
    | DoAnswer(node: nat, msg: Msg)
    | DoStart(node: nat, msg: Msg)
    | DoTake(node: nat, job: Job)
    | DoFinish(node: nat, job: Job)

  function Init(size: nat): System {
    System(seq(size, _ => Node(map[], {}, {}, false)), {}, {})
  }

  predicate Enabled(s: System, step: Step) {
    step.node < |s.nodes| &&
    var n := s.nodes[step.node];
    match step
    case DoStream(_, _) => true
    case DoPropose(_, pp) => WellFormed(pp)
    case DoDeliverFull(_, m) => m in s.net && m.Full?
    case DoCache(i, m) => m in s.net && (m.Stream? || (m.Bodies? && m.receiver == i))
    case DoAnswer(i, m) => m in s.net && m.Missing? && m.leader == i
    case DoStart(_, m) => m in s.net && m.Compacted?
    case DoTake(_, j) => j in n.jobs && |j.got| < |j.proposal.keys| && j.proposal.keys[|j.got|] in n.cache
    case DoFinish(_, j) => j in n.jobs && |j.got| == |j.proposal.keys|
  }

  datatype Encoded = Encoded(cache: Cache, msg: Msg)

  function EncodeProposal(cache: Cache, i: nat, pp: PrePrepare): Encoded
    requires WellFormed(pp)
  {
    if pp.request.kind == BlockRequest then
      Encoded(CacheBodies(cache, Encodings(pp.request.content.block.body)), Compacted(CompactOf(pp, i)))
    else Encoded(cache, Full(pp))
  }

  /** One more body. A cached value that is not a transaction makes the decoder panic. */
  function Take(n: Node, j: Job): Node
    requires |j.got| < |j.proposal.keys| && j.proposal.keys[|j.got|] in n.cache
  {
    match n.cache[j.proposal.keys[|j.got|]]
    case TxBytes(tx) => n.(jobs := n.jobs + {j.(got := j.got + [tx])})
    case OtherBytes(_) => n.(panicked := true)
  }

  /** All bodies there: rebuild, check the digest, hand over. */
  function Finish(n: Node, j: Job): Node {
    var pp := Rebuild(j.proposal, j.got);
    if Digest(pp.request) != pp.digest then n.(panicked := true) else n.(delivered := n.delivered + {pp})
  }

  function With(s: System, i: nat, n: Node, sent: set<Msg>): System
    requires i < |s.nodes|
  {
    s.(nodes := s.nodes[i := n], net := s.net + sent)
  }

  function Apply(s: System, step: Step): System
    requires Enabled(s, step)
  {
    var i := step.node;
    var n := s.nodes[i];
    match step
    case DoStream(_, txs) => With(s, i, n.(cache := CacheBodies(n.cache, Encodings(txs))), {Stream(Encodings(txs))})
    case DoPropose(_, pp) =>
      var e := EncodeProposal(n.cache, i, pp);
      With(s, i, n.(cache := e.cache), {e.msg}).(proposed := s.proposed + {pp})
    case DoDeliverFull(_, m) => With(s, i, n.(delivered := n.delivered + {m.prePrepare}), {})
    case DoCache(_, m) => With(s, i, n.(cache := CacheBodies(n.cache, m.bodies)), {})
    case DoAnswer(_, m) =>
      (match Lookup(n.cache, m.keys)
       case Some(bodies) => With(s, i, n, {Bodies(bodies, m.reply)})
       case None => With(s, i, n.(panicked := true), {}))
    case DoStart(_, m) =>
      var lacking := Lacking(n.cache, m.proposal.keys);
      With(s, i, n.(jobs := n.jobs + {Job(m.proposal, lacking, [])}),
           if lacking == [] then {} else {Missing(lacking, i, m.proposal.leader)})
    case DoTake(_, j) => With(s, i, Take(n, j), {})
    case DoFinish(_, j) => With(s, i, Finish(n, j), {})
  }

  ghost predicate Next(s: System, s': System) {
    exists step :: Enabled(s, step) && s' == Apply(s, step)
  }

  ghost predicate NextAt(run: seq<System>, k: nat)
    requires 0 < k < |run|
  {
    Next(run[k - 1], run[k])
  }

  ghost predicate Run(size: nat, run: seq<System>) {
    && |run| > 0 && run[0] == Init(size)
    && forall k | 0 < k < |run| :: NextAt(run, k)
  }

  // ------------------------------------------------ the cache

  /** Every body is filed under its own hash. */
  ghost predicate CacheOk(cache: Cache) { forall k | k in cache :: k == Key(cache[k]) }

  ghost predicate Holds(cache: Cache, keys: seq<Key>) { forall i | 0 <= i < |keys| :: keys[i] in cache }

  lemma {:induction false} CacheBodiesOk(cache: Cache, bodies: seq<Bytes>)
    requires CacheOk(cache)
    ensures CacheOk(CacheBodies(cache, bodies))
    ensures CacheBodies(cache, bodies).Keys == cache.Keys + set b | b in bodies :: Key(b)
    decreases |bodies|
  {
    if bodies != [] {
      var init := bodies[..|bodies| - 1];
      CacheBodiesOk(cache, init);
      assert bodies == init + [bodies[|bodies| - 1]];
    }
  }

  /** What is asked for is what the cache lacks. */
  lemma {:induction false} LackingIs(cache: Cache, keys: seq<Key>, k: Key)
    ensures k in Lacking(cache, keys) <==> k in keys && k !in cache
  {
    if keys != [] {
      var init := keys[..|keys| - 1];
      LackingIs(cache, init, k);
      assert keys == init + [keys[|keys| - 1]];
    }
  }

  /** A holder of all keys answers with exactly their bodies. */
  lemma {:induction false} LookupIs(cache: Cache, keys: seq<Key>)
    requires CacheOk(cache)
    ensures Lookup(cache, keys).Some? <==> Holds(cache, keys)
    ensures Lookup(cache, keys).Some? ==> Keys(Lookup(cache, keys).value) == keys
  {
    if keys != [] {
      var init := keys[..|keys| - 1];
      LookupIs(cache, init);
      if Holds(cache, keys) { assert Holds(cache, init); }
      if Lookup(cache, keys).Some? {
        assert Holds(cache, init);
        assert keys == init + [keys[|keys| - 1]];
      }
    }
  }

  /** Asking for what is lacking and caching the answer leaves nothing lacking. */
  lemma RecoveryCompletes(leader: Cache, replica: Cache, later: Cache, keys: seq<Key>)
    requires CacheOk(leader) && CacheOk(later) && Holds(leader, keys) && replica.Keys <= later.Keys
    ensures var answer := Lookup(leader, Lacking(replica, keys));
            answer.Some? && Holds(CacheBodies(later, answer.value), keys)
  {
    var lacking := Lacking(replica, keys);
    forall i | 0 <= i < |lacking| ensures lacking[i] in leader {
      LackingIs(replica, keys, lacking[i]);
    }
    LookupIs(leader, lacking);
    var bodies := Lookup(leader, lacking).value;
    CacheBodiesOk(later, bodies);
    forall i | 0 <= i < |keys| ensures keys[i] in CacheBodies(later, bodies) {
      LackingIs(replica, keys, keys[i]);
      if keys[i] in lacking {
        var l :| 0 <= l < |lacking| && lacking[l] == keys[i];
        assert Keys(bodies)[l] == Key(bodies[l]);
        assert bodies[l] in bodies;
      }
    }
  }

  // ------------------------------------------------ the invariant

  /** cp stands for some proposal of its leader, whose cache holds its bodies. */
  ghost predicate ProposalOk(cp: Proposal, nodes: seq<Node>, proposed: set<PrePrepare>) {
    && cp.leader < |nodes| && Holds(nodes[cp.leader].cache, cp.keys)
    && exists pp :: pp in proposed && Stands(cp, pp)
  }

  ghost predicate Stands(cp: Proposal, pp: PrePrepare) {
    WellFormed(pp) && pp.request.kind == BlockRequest && cp == CompactOf(pp, cp.leader)
  }

  ghost predicate MsgOk(m: Msg, nodes: seq<Node>, proposed: set<PrePrepare>) {
    match m
    case Full(pp) => pp in proposed
    case Compacted(cp) => ProposalOk(cp, nodes, proposed)
    case Missing(keys, _, leader) => leader < |nodes| && Holds(nodes[leader].cache, keys)
    case _ => true
  }

  ghost predicate JobOk(j: Job, nodes: seq<Node>, proposed: set<PrePrepare>) {
    && ProposalOk(j.proposal, nodes, proposed)
    && |j.got| <= |j.proposal.keys|
    && forall i | 0 <= i < |j.got| :: j.proposal.keys[i] == Key(TxBytes(j.got[i]))
  }

  /** Every key of a job was asked for at its start or is in the cache. */
  ghost predicate Accounted(j: Job, cache: Cache) {
    forall i | 0 <= i < |j.proposal.keys| :: j.proposal.keys[i] in j.lacking || j.proposal.keys[i] in cache
  }

  ghost predicate NodeOk(n: Node, nodes: seq<Node>, proposed: set<PrePrepare>) {
    && CacheOk(n.cache) && !n.panicked && n.delivered <= proposed
    && forall j | j in n.jobs :: JobOk(j, nodes, proposed) && Accounted(j, n.cache)
  }

  ghost predicate Inv(s: System) {
    && (forall i | 0 <= i < |s.nodes| :: NodeOk(s.nodes[i], s.nodes, s.proposed))
    && (forall m | m in s.net :: MsgOk(m, s.nodes, s.proposed))
  }

  /** Caches only grow. */
  ghost predicate Grown(nodes: seq<Node>, nodes': seq<Node>) {
    |nodes'| == |nodes| && forall i | 0 <= i < |nodes| :: nodes[i].cache.Keys <= nodes'[i].cache.Keys
  }

  lemma ProposalFrame(cp: Proposal, nodes: seq<Node>, nodes': seq<Node>, proposed: set<PrePrepare>,
                      proposed': set<PrePrepare>)
    requires ProposalOk(cp, nodes, proposed) && Grown(nodes, nodes') && proposed <= proposed'
    ensures ProposalOk(cp, nodes', proposed')
  {
    forall i | 0 <= i < |cp.keys| ensures cp.keys[i] in nodes'[cp.leader].cache {
      assert cp.keys[i] in nodes[cp.leader].cache.Keys;
    }
    var pp :| pp in proposed && Stands(cp, pp);
    assert pp in proposed';
  }

  lemma MsgFrame(m: Msg, nodes: seq<Node>, nodes': seq<Node>, proposed: set<PrePrepare>, proposed': set<PrePrepare>)
    requires MsgOk(m, nodes, proposed) && Grown(nodes, nodes') && proposed <= proposed'
    ensures MsgOk(m, nodes', proposed')
  {
    match m {
      case Compacted(cp) => ProposalFrame(cp, nodes, nodes', proposed, proposed');
      case Missing(keys, _, leader) =>
        forall i | 0 <= i < |keys| ensures keys[i] in nodes'[leader].cache {
          assert keys[i] in nodes[leader].cache.Keys;
        }
      case _ =>
    }
  }

  lemma NodeFrame(n: Node, nodes: seq<Node>, nodes': seq<Node>, proposed: set<PrePrepare>, proposed': set<PrePrepare>)
    requires NodeOk(n, nodes, proposed) && Grown(nodes, nodes') && proposed <= proposed'
    ensures NodeOk(n, nodes', proposed')
  {
    forall j | j in n.jobs ensures JobOk(j, nodes', proposed') {
      ProposalFrame(j.proposal, nodes, nodes', proposed, proposed');
    }
  }

  /** A step that keeps its own node and its messages right keeps the whole. */
  lemma Assemble(s: System, i: nat, n: Node, sent: set<Msg>, proposed: set<PrePrepare>)
    requires Inv(s) && i < |s.nodes| && s.nodes[i].cache.Keys <= n.cache.Keys && s.proposed <= proposed
    requires NodeOk(n, s.nodes[i := n], proposed)
    requires forall m | m in sent :: MsgOk(m, s.nodes[i := n], proposed)
    ensures Inv(System(s.nodes[i := n], s.net + sent, proposed))
  {
    var nodes' := s.nodes[i := n];
    forall k | 0 <= k < |nodes'| ensures NodeOk(nodes'[k], nodes', proposed) {
      if k != i { NodeFrame(s.nodes[k], s.nodes, nodes', s.proposed, proposed); }
    }
    forall m | m in s.net + sent ensures MsgOk(m, nodes', proposed) {
      if m !in sent { MsgFrame(m, s.nodes, nodes', s.proposed, proposed); }
    }
  }

  // ------------------------------------------------ the steps keep it

  lemma StepCaching(s: System, i: nat, bodies: seq<Bytes>)
    requires Inv(s) && i < |s.nodes|
    ensures var n := s.nodes[i].(cache := CacheBodies(s.nodes[i].cache, bodies));
            && NodeOk(n, s.nodes[i := n], s.proposed) && Grown(s.nodes, s.nodes[i := n])
            && Holds(n.cache, Keys(bodies))
  {
    var n0 := s.nodes[i];
    var n := n0.(cache := CacheBodies(n0.cache, bodies));
    CacheBodiesOk(n0.cache, bodies);
    assert Grown(s.nodes, s.nodes[i := n]);
    NodeFrame(n0, s.nodes, s.nodes[i := n], s.proposed, s.proposed);
    forall j | j in n0.jobs ensures Accounted(j, n.cache) {
      assert Accounted(j, n0.cache);
      assert forall k | k in n0.cache :: k in n.cache.Keys;
    }
    forall l | 0 <= l < |bodies| ensures Keys(bodies)[l] in n.cache { assert bodies[l] in bodies; }
  }

  lemma StreamKeeps(s: System, i: nat, txs: seq<Tx>)
    requires Inv(s) && Enabled(s, DoStream(i, txs))
    ensures Inv(Apply(s, DoStream(i, txs)))
  {
    var n := s.nodes[i].(cache := CacheBodies(s.nodes[i].cache, Encodings(txs)));
    StepCaching(s, i, Encodings(txs));
    Assemble(s, i, n, {Stream(Encodings(txs))}, s.proposed);
  }

  lemma ProposeKeeps(s: System, i: nat, pp: PrePrepare)
    requires Inv(s) && Enabled(s, DoPropose(i, pp))
    ensures Inv(Apply(s, DoPropose(i, pp)))
  {
    var e := EncodeProposal(s.nodes[i].cache, i, pp);
    var n, m := s.nodes[i].(cache := e.cache), e.msg;
    var proposed := s.proposed + {pp};
    if pp.request.kind == BlockRequest {
      var bodies := Encodings(pp.request.content.block.body);
      StepCaching(s, i, bodies);
      NodeFrame(n, s.nodes[i := n], s.nodes[i := n], s.proposed, proposed);
      assert Stands(CompactOf(pp, i), pp);
      assert MsgOk(m, s.nodes[i := n], proposed);
    } else {
      assert s.nodes[i := n] == s.nodes;
      NodeFrame(n, s.nodes, s.nodes, s.proposed, proposed);
    }
    Assemble(s, i, n, {m}, proposed);
  }

  lemma DeliverFullKeeps(s: System, i: nat, m: Msg)
    requires Inv(s) && Enabled(s, DoDeliverFull(i, m))
    ensures Inv(Apply(s, DoDeliverFull(i, m)))
  {
    var n := s.nodes[i].(delivered := s.nodes[i].delivered + {m.prePrepare});
    assert MsgOk(m, s.nodes, s.proposed);
    NodeFrame(s.nodes[i], s.nodes, s.nodes[i := n], s.proposed, s.proposed);
    Assemble(s, i, n, {}, s.proposed);
  }

  lemma CacheKeeps(s: System, i: nat, m: Msg)
    requires Inv(s) && Enabled(s, DoCache(i, m))
    ensures Inv(Apply(s, DoCache(i, m)))
  {
    var n := s.nodes[i].(cache := CacheBodies(s.nodes[i].cache, m.bodies));
    StepCaching(s, i, m.bodies);
    Assemble(s, i, n, {}, s.proposed);
  }

  /** The leader has every body it is asked for. */
  lemma AnswerKeeps(s: System, i: nat, m: Msg)
    requires Inv(s) && Enabled(s, DoAnswer(i, m))
    ensures Lookup(s.nodes[i].cache, m.keys).Some? && Inv(Apply(s, DoAnswer(i, m)))
  {
    assert MsgOk(m, s.nodes, s.proposed);
    assert NodeOk(s.nodes[i], s.nodes, s.proposed);
    LookupIs(s.nodes[i].cache, m.keys);
    assert s.nodes[i := s.nodes[i]] == s.nodes;
    Assemble(s, i, s.nodes[i], {Bodies(Lookup(s.nodes[i].cache, m.keys).value, m.reply)}, s.proposed);
  }

  lemma StartKeeps(s: System, i: nat, m: Msg)
    requires Inv(s) && Enabled(s, DoStart(i, m))
    ensures Inv(Apply(s, DoStart(i, m)))
  {
    var n0, cp := s.nodes[i], m.proposal;
    var lacking := Lacking(n0.cache, cp.keys);
    var j := Job(cp, lacking, []);
    var n := n0.(jobs := n0.jobs + {j});
    assert Grown(s.nodes, s.nodes[i := n]);
    assert MsgOk(m, s.nodes, s.proposed);
    ProposalFrame(cp, s.nodes, s.nodes[i := n], s.proposed, s.proposed);
    NodeFrame(n0, s.nodes, s.nodes[i := n], s.proposed, s.proposed);
    forall k: Key ensures k in lacking <==> k in cp.keys && k !in n0.cache { LackingIs(n0.cache, cp.keys, k); }
    assert Accounted(j, n0.cache);
    forall l | 0 <= l < |lacking| ensures lacking[l] in s.nodes[i := n][cp.leader].cache {
      assert lacking[l] in cp.keys;
    }
    Assemble(s, i, n, if lacking == [] then {} else {Missing(lacking, i, cp.leader)}, s.proposed);
  }

  /** A cached value under a key of a proposal is that transaction's encoding. */
  lemma TakeKeeps(s: System, i: nat, j: Job)
    requires Inv(s) && Enabled(s, DoTake(i, j))
    ensures Inv(Apply(s, DoTake(i, j)))
  {
    var n0, cp, l := s.nodes[i], j.proposal, |j.got|;
    assert NodeOk(n0, s.nodes, s.proposed) && JobOk(j, s.nodes, s.proposed);
    var pp :| pp in s.proposed && Stands(cp, pp);
    var tx := pp.request.content.block.body[l];
    assert cp.keys[l] == Key(TxBytes(tx));
    var j' := j.(got := j.got + [tx]);
    var n := n0.(jobs := n0.jobs + {j'});
    assert Take(n0, j) == n;
    assert Grown(s.nodes, s.nodes[i := n]);
    ProposalFrame(cp, s.nodes, s.nodes[i := n], s.proposed, s.proposed);
    NodeFrame(n0, s.nodes, s.nodes[i := n], s.proposed, s.proposed);
    assert Accounted(j, n0.cache);
    assert JobOk(j', s.nodes[i := n], s.proposed) && Accounted(j', n0.cache);
    Assemble(s, i, n, {}, s.proposed);
  }

  /** With all bodies the rebuilt proposal is the one that was digested. */
  lemma RebuildIsOriginal(j: Job, pp: PrePrepare)
    requires Stands(j.proposal, pp) && |j.got| == |j.proposal.keys|
    requires forall i | 0 <= i < |j.got| :: j.proposal.keys[i] == Key(TxBytes(j.got[i]))
    ensures Rebuild(j.proposal, j.got) == pp
  {
    var body := pp.request.content.block.body;
    forall i | 0 <= i < |body| ensures j.got[i] == body[i] {
      assert j.proposal.keys[i] == Key(TxBytes(body[i]));
    }
    assert j.got == body;
  }

  lemma FinishKeeps(s: System, i: nat, j: Job)
    requires Inv(s) && Enabled(s, DoFinish(i, j))
    ensures Inv(Apply(s, DoFinish(i, j)))
    ensures Rebuild(j.proposal, j.got) in s.proposed
  {
    var n0 := s.nodes[i];
    assert NodeOk(n0, s.nodes, s.proposed) && JobOk(j, s.nodes, s.proposed);
    var pp :| pp in s.proposed && Stands(j.proposal, pp);
    RebuildIsOriginal(j, pp);
    var n := n0.(delivered := n0.delivered + {pp});
    NodeFrame(n0, s.nodes, s.nodes[i := n], s.proposed, s.proposed);
    Assemble(s, i, n, {}, s.proposed);
  }

  lemma StepKeeps(s: System, step: Step)
    requires Inv(s) && Enabled(s, step)
    ensures Inv(Apply(s, step))
  {
    match step
    case DoStream(i, txs) => StreamKeeps(s, i, txs);
    case DoPropose(i, pp) => ProposeKeeps(s, i, pp);
    case DoDeliverFull(i, m) => DeliverFullKeeps(s, i, m);
    case DoCache(i, m) => CacheKeeps(s, i, m);
    case DoAnswer(i, m) => AnswerKeeps(s, i, m);
    case DoStart(i, m) => StartKeeps(s, i, m);
    case DoTake(i, j) => TakeKeeps(s, i, j);
    case DoFinish(i, j) => FinishKeeps(s, i, j);
  }

  lemma {:induction false} RunInv(size: nat, run: seq<System>, k: nat)
    requires Run(size, run) && k < |run|
    ensures Inv(run[k]) && |run[k].nodes| == size
  {
    if k > 0 {
      RunInv(size, run, k - 1);
      assert NextAt(run, k);
      NextKeeps(run[k - 1], run[k]);
    }
  }

  lemma NextKeeps(s: System, s': System)
    requires Inv(s) && Next(s, s')
    ensures Inv(s') && |s'.nodes| == |s.nodes|
  {
    var step :| Enabled(s, step) && s' == Apply(s, step);
    StepKeeps(s, step);
  }

  // ------------------------------------------------ the theorems

  /** Compact proposals refine full ones: in every run no handler panics, every
      PrePrepare handed on is one a leader proposed, and a recovery that has all its
      bodies rebuilds exactly that proposal, with its digest. */
  lemma CompactRefinesFull(size: nat, run: seq<System>, k: nat, i: nat)
    requires Run(size, run) && k < |run| && i < size
    ensures |run[k].nodes| == size
    ensures var s := run[k]; var n := s.nodes[i];
            && !n.panicked && n.delivered <= s.proposed
            && (forall m | m in s.net && m.Missing? && m.leader == i :: Lookup(n.cache, m.keys).Some?)
            && (forall j | j in n.jobs && |j.got| == |j.proposal.keys| ::
                  var pp := Rebuild(j.proposal, j.got); pp in s.proposed && Digest(pp.request) == pp.digest)
  {
    RunInv(size, run, k);
    var s := run[k];
    var n := s.nodes[i];
    assert NodeOk(n, s.nodes, s.proposed);
    forall m | m in s.net && m.Missing? && m.leader == i ensures Lookup(n.cache, m.keys).Some? {
      AnswerKeeps(s, i, m);
    }
    forall j | j in n.jobs && |j.got| == |j.proposal.keys|
      ensures var pp := Rebuild(j.proposal, j.got); pp in s.proposed && Digest(pp.request) == pp.digest
    {
      var pp :| pp in s.proposed && Stands(j.proposal, pp);
      RebuildIsOriginal(j, pp);
    }
  }

  /** Once what a recovery asked for has arrived it can take its next body, whatever
      it has taken before. */
  lemma NoRecoveryStarves(size: nat, run: seq<System>, k: nat, i: nat, j: Job)
    requires Run(size, run) && k < |run| && i < size && |run[k].nodes| == size
    requires j in run[k].nodes[i].jobs && Holds(run[k].nodes[i].cache, j.lacking)
    ensures Enabled(run[k], DoTake(i, j)) || Enabled(run[k], DoFinish(i, j))
  {
    RunInv(size, run, k);
    var n := run[k].nodes[i];
    assert NodeOk(n, run[k].nodes, run[k].proposed);
    assert JobOk(j, run[k].nodes, run[k].proposed) && Accounted(j, n.cache);
    assert forall x | x in j.lacking :: x in n.cache;
  }

  // ------------------------------------------------ the code's own loops

  class OverheadNode {
    const id: nat
    var bodies: Cache

    constructor (id: nat)
      ensures this.id == id && bodies == map[]
    {
      this.id, bodies := id, map[];
    }

    method Store(list: seq<Bytes>)
      modifies this
      ensures bodies == CacheBodies(old(bodies), list)
    {
      for i := 0 to |list|
        invariant bodies == CacheBodies(old(bodies), list[..i])
      {
        assert list[..i + 1][..i] == list[..i];
        bodies := bodies[Key(list[i]) := list[i]];
      }
      assert list[..|list|] == list;
    }

    method StreamTransactions(txs: seq<Tx>) returns (sent: set<Msg>)
      modifies this
      ensures bodies == CacheBodies(old(bodies), Encodings(txs))
      ensures sent == if txs == [] then {} else {Stream(Encodings(txs))}
    {
      if |txs| == 0 { return {}; }
      var list: seq<Bytes> := [];
      for i := 0 to |txs|
        invariant list == Encodings(txs[..i])
      {
        list := list + [TxBytes(txs[i])];
      }
      assert txs[..|txs|] == txs;
      Store(list);
      sent := {Stream(list)};
    }

    method Encode(pp: PrePrepare) returns (m: Msg)
      requires WellFormed(pp)
      modifies this
      ensures Encoded(bodies, m) == EncodeProposal(old(bodies), id, pp)
    {
      if pp.request.kind == BlockRequest {
        var block := pp.request.content.block;
        var list: seq<Bytes>, keys: seq<Key> := [], [];
        for i := 0 to |block.body|
          invariant list == Encodings(block.body[..i]) && keys == Keys(list)
        {
          list := list + [TxBytes(block.body[i])];
          keys := keys + [Key(list[i])];
        }
        assert block.body[..|block.body|] == block.body;
        Store(list);
        m := Compacted(Proposal(pp.(request := pp.request.(content := NoContent)), block.header, block.hash, keys, id));
      } else {
        m := Full(pp);
      }
    }

    /** The bodies asked for, or None where the code panics. */
    method Answer(keys: seq<Key>) returns (r: Option<seq<Bytes>>)
      ensures r == Lookup(bodies, keys)
    {
      var list: seq<Bytes> := [];
      for i := 0 to |keys|
        invariant Lookup(bodies, keys[..i]) == Some(list)
      {
        assert keys[..i + 1][..i] == keys[..i];
        if keys[i] !in bodies {
          LookupFails(bodies, keys, i);
          return None;
        }
        list := list + [bodies[keys[i]]];
      }
      assert keys[..|keys|] == keys;
      r := Some(list);
    }

    method FindMissing(keys: seq<Key>) returns (missing: seq<Key>)
      ensures missing == Lacking(bodies, keys)
    {
      missing := [];
      for i := 0 to |keys|
        invariant missing == Lacking(bodies, keys[..i])
      {
        assert keys[..i + 1][..i] == keys[..i];
        if keys[i] !in bodies { missing := missing + [keys[i]]; }
      }
      assert keys[..|keys|] == keys;
    }
  }

  lemma {:induction false} LookupFails(cache: Cache, keys: seq<Key>, i: nat)
    requires i < |keys| && keys[i] !in cache
    ensures Lookup(cache, keys) == None
    decreases |keys|
  {
    if i < |keys| - 1 { LookupFails(cache, keys[..|keys| - 1], i); }
  }
}
