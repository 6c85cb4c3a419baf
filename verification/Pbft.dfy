/** Normal-case PBFT of one shard with node 0 as fixed leader, over a network that
    reorders and repeats messages (consensus_shard/pbft_all/messageHandle.go). The
    stage waits are left out, so a handler may run at any time. SHA-256 is taken to
    be collision free: a hash or digest is identified with what was hashed. */
module Pbft {
  datatype Block = Block(number: nat, parent: Hash, body: nat)
  datatype Hash = NoHash | HashOf(block: Block)

  /** A block request with its time stamp. */
  datatype Request = Request(block: Block, time: nat)
  type Digest = Request

  const GENESIS := Block(0, NoHash, 0)

  datatype Msg =
    | PrePrepare(request: Request, digest: Digest, seqID: nat)
    | Prepare(digest: Digest, seqID: nat, sender: nat)
    | Commit(digest: Digest, seqID: nat, sender: nat)
    | RequestOld(first: nat, last: nat, sender: nat)
    | SendOld(first: nat, last: nat, reqs: seq<Request>, receiver: nat)

  type Votes = map<Digest, set<nat>>

  /** applied and fetched record the digests passed to HandleinCommit and those
      that came with an old-request reply. */
  datatype Node = Node(
    id: nat,
    chain: seq<Block>,
    sequenceID: nat,
    requestPool: set<Request>,
    height2Digest: map<nat, Digest>,
    prepares: Votes,
    commits: Votes,
    isCommitBroadcast: set<Digest>,
    isReply: set<Digest>,
    locked: bool,
    applied: seq<Digest>,
    fetched: set<Request>)
  {
    function Head(): Block { if chain == [] then GENESIS else chain[|chain| - 1] }
  }

  datatype Outcome = Outcome(node: Node, sent: set<Msg>)

  function NewNode(id: nat): Node {
    Node(id, [GENESIS], 1, {}, map[], map[], map[], {}, {}, false, [], {})
  }

  function VotesFor(votes: Votes, d: Digest): set<nat> { if d in votes then votes[d] else {} }

  function AddVote(votes: Votes, d: Digest, sender: nat): Votes { votes[d := VotesFor(votes, d) + {sender}] }

  // ------------------------------------------------ the chain

  function NextBlock(head: Block, body: nat): Block { Block(head.number + 1, HashOf(head), body) }

  predicate IsValidBlock(n: Node, b: Block) { b.parent == HashOf(n.Head()) }

  /** AddBlock drops a block of the wrong height or parent. */
  function AddBlock(n: Node, b: Block): Node {
    if b.number != n.Head().number + 1 then n
    else if b.parent != HashOf(n.Head()) then n
    else n.(chain := n.chain + [b])
  }

  // ------------------------------------------------ handlers

  function Remember(n: Node, r: Request, seqID: nat): Node {
    n.(requestPool := n.requestPool + {r}, height2Digest := n.height2Digest[seqID := r])
  }

  function Propose(n: Node, body: nat, time: nat): Outcome {
    var r := Request(NextBlock(n.Head(), body), time);
    Outcome(Remember(n, r, n.sequenceID).(locked := true), {PrePrepare(r, r, n.sequenceID)})
  }

  function HandlePrePrepare(n: Node, r: Request, d: Digest, seqID: nat): Outcome {
    if seqID < n.sequenceID || d != r then Outcome(n, {})
    else if n.sequenceID < seqID then Outcome(Remember(n, r, seqID), {})
    else Outcome(Remember(n, r, seqID), if IsValidBlock(n, r.block) then {Prepare(d, seqID, n.id)} else {})
  }

  function HandlePrepare(n: Node, f: nat, d: Digest, seqID: nat, sender: nat): Outcome {
    if seqID < n.sequenceID || d !in n.requestPool || n.sequenceID < seqID then Outcome(n, {})
    else
      var n1 := n.(prepares := AddVote(n.prepares, d, sender));
      if |VotesFor(n1.prepares, d)| >= 2 * f + 1 && d !in n.isCommitBroadcast
      then Outcome(n1.(isCommitBroadcast := n.isCommitBroadcast + {d}), {Commit(d, seqID, n.id)})
      else Outcome(n1, {})
  }

  /** A quorum of commits: apply the request, or ask for it when it is unknown. */
  function Decide(n: Node, d: Digest, seqID: nat): Outcome {
    var replied := n.(isReply := n.isReply + {d}, locked := if n.id == 0 then false else n.locked);
    if d !in n.requestPool then Outcome(replied, {RequestOld(n.sequenceID + 1, seqID, n.id)})
    else Outcome(AddBlock(replied, d.block).(sequenceID := n.sequenceID + 1, applied := n.applied + [d]), {})
  }

  predicate Decides(n: Node, f: nat, d: Digest, seqID: nat, sender: nat) {
    && seqID >= n.sequenceID && d !in n.isReply
    && |VotesFor(AddVote(n.commits, d, sender), d)| >= 2 * f + 1
  }

  function HandleCommit(n: Node, f: nat, d: Digest, seqID: nat, sender: nat): Outcome {
    if seqID < n.sequenceID then Outcome(n, {})
    else
      var n1 := n.(commits := AddVote(n.commits, d, sender));
      if Decides(n, f, d, seqID, sender) then Decide(n1, d, seqID) else Outcome(n1, {})
  }

  /** The leader's recorded requests from first on, up to last or the first gap. */
  function OldRequests(n: Node, first: nat, last: nat): seq<Request>
    decreases last + 1 - first
  {
    if first > last || first !in n.height2Digest || n.height2Digest[first] !in n.requestPool then []
    else [n.height2Digest[first]] + OldRequests(n, first + 1, last)
  }

  function HandleRequestOld(n: Node, first: nat, last: nat, sender: nat): Outcome {
    Outcome(n, if n.id == 0 then {SendOld(first, last, OldRequests(n, first, last), sender)} else {})
  }

  function AddBlocks(n: Node, reqs: seq<Request>): Node {
    if reqs == [] then n else AddBlock(AddBlocks(n, reqs[..|reqs| - 1]), reqs[|reqs| - 1].block)
  }

  function RememberOld(n: Node, first: nat, reqs: seq<Request>): Node {
    if reqs == [] then n
    else
      var k, r := |reqs| - 1, reqs[|reqs| - 1];
      var n1 := Remember(RememberOld(n, first, reqs[..k]), r, first + k);
      n1.(isReply := n1.isReply + {r}, fetched := n1.fetched + {r})
  }

  /** The reply must hold every height asked for, or its blocks are not added; the
      sequence number jumps either way. */
  function CatchUp(n: Node, first: nat, last: nat, reqs: seq<Request>): Node {
    var n1 := if last - first + 1 != |reqs| then n else AddBlocks(n, reqs);
    RememberOld(n1, first, reqs).(sequenceID := last + 1)
  }

  function HandleSendOld(n: Node, first: nat, last: nat, reqs: seq<Request>): Outcome {
    var n' := CatchUp(n, first, last, reqs);
    Outcome(n',
            if last + 1 in n'.height2Digest && n'.height2Digest[last + 1] in n'.requestPool
               && IsValidBlock(n', n'.height2Digest[last + 1].block)
            then {Prepare(n'.height2Digest[last + 1], last + 1, n.id)}
            else {})
  }

  // ------------------------------------------------ the shard

  /** issued lists the leader's proposals in order. */
  datatype System = System(nodes: seq<Node>, net: set<Msg>, issued: seq<Request>)

  datatype Step =
    | DoPropose(body: nat, time: nat)
    | DoHandle(node: nat, msg: Msg)

  function Init(size: nat): System {
    System(seq(size, i requires 0 <= i < size => NewNode(i)), {}, [])
  }

  /** f of the code, for a shard of the given size. */
  function Faults(size: nat): nat { if size == 0 then 0 else (size - 1) / 3 }

  predicate Enabled(s: System, step: Step) {
    match step
    case DoPropose(_, _) => |s.nodes| > 0 && !s.nodes[0].locked
    case DoHandle(i, m) => i < |s.nodes| && m in s.net && (m.SendOld? ==> m.receiver == i)
  }

  function Handle(n: Node, f: nat, m: Msg): Outcome {
    match m
    case PrePrepare(r, d, q) => HandlePrePrepare(n, r, d, q)
    case Prepare(d, q, j) => HandlePrepare(n, f, d, q, j)
    case Commit(d, q, j) => HandleCommit(n, f, d, q, j)
    case RequestOld(a, b, j) => HandleRequestOld(n, a, b, j)
    case SendOld(a, b, reqs, _) => HandleSendOld(n, a, b, reqs)
  }

  function Apply(s: System, step: Step): (s': System)
    requires Enabled(s, step)
    ensures |s'.nodes| == |s.nodes|
  {
    match step
    case DoPropose(body, time) =>
      var o := Propose(s.nodes[0], body, time);
      System(s.nodes[0 := o.node], s.net + o.sent, s.issued + [Request(NextBlock(s.nodes[0].Head(), body), time)])
    case DoHandle(i, m) =>
      var o := Handle(s.nodes[i], Faults(|s.nodes|), m);
      System(s.nodes[i := o.node], s.net + o.sent, s.issued)
  }

  ghost predicate Next(s: System, s': System) {
    exists step :: Enabled(s, step) && s' == Apply(s, step)
  }

  ghost predicate NextAt(run: seq<System>, k: nat)
    requires 0 < k < |run|
  {
    Next(run[k - 1], run[k])
  }

  /** A run of a shard with the given number of nodes. */
  ghost predicate Run(size: nat, run: seq<System>) {
    && |run| > 0 && run[0] == Init(size)
    && forall k | 0 < k < |run| :: NextAt(run, k)
  }
}
