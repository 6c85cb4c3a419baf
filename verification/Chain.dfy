/** Block production and acceptance on the nodes of one shard over content-addressed
    state stores: a node that finds a block's state root in its store does not execute
    the block, and a partition request makes every node build a block of its own and
    change its account map (chain/blockchain.go). Roots and hashes are identified with
    what they hash. */
module Chain {
  import opened Ledger
  import Leaders
  import LeaderNodes

  datatype Root = Root(trie: Trie)
  datatype Hash = NoHash | HashOf(block: Block)

  /** A mined block carries its time; time 0 marks the block AddAccounts builds, whose
      header has the zero time. */
  datatype Block = Block(number: nat, parent: Hash, time: nat, root: Root, body: seq<Tx>)

  datatype Place = Place(n: nat, s: ShardId)

  /** A partition request: the map changes and the account states received. */
  datatype Transfer = Transfer(modified: PartitionMap, states: Trie)

  /** The partition request agreed on after a block. */
  type Agreed = map<Block, Transfer>

  const GENESIS := Block(0, NoHash, 0, Root(map[]), [])

  // ------------------------------------------------ what a block stands for

  function TransferAt(agreed: Agreed, b: Block): Transfer {
    if b in agreed then agreed[b] else Transfer(map[], map[])
  }

  /** The account map in force after a block. */
  function MapOf(agreed: Agreed, b: Block): PartitionMap {
    match b.parent
    case NoHash => map[]
    case HashOf(p) => if b.time == 0 then MapOf(agreed, p) + TransferAt(agreed, p).modified else MapOf(agreed, p)
  }

  /** The state after a block: its ancestors' bodies executed and transfers applied in
      order, from the start. */
  function StateOf(c: Place, agreed: Agreed, b: Block): Trie
    requires c.n > 0
  {
    match b.parent
    case NoHash => map[]
    case HashOf(p) =>
      if b.time == 0 then Leaders.AddAccounts(StateOf(c, agreed, p), MapOf(agreed, b), c.n, c.s,
                                              TransferAt(agreed, p).states)
      else ExecBlock(StateOf(c, agreed, p), MapOf(agreed, p), c.n, c.s, b.body)
  }

  /** Every transfer among the ancestors has been agreed on. */
  ghost predicate Known(agreed: Agreed, b: Block) {
    match b.parent
    case NoHash => true
    case HashOf(p) => Known(agreed, p) && (b.time == 0 ==> p in agreed)
  }

  // ------------------------------------------------ one node

  datatype Node = Node(store: set<Root>, current: Block, pm: PartitionMap)

  datatype Produced = Produced(node: Node, block: Block)

  function NewNode(): Node { Node({GENESIS.root}, GENESIS, map[]) }

  /** Producing a block commits its state to the store and changes nothing else. */
  function Produce(c: Place, x: Node, txs: seq<Tx>, time: nat): Produced
    requires c.n > 0
  {
    var root := Root(ExecBlock(x.current.root.trie, x.pm, c.n, c.s, txs));
    Produced(x.(store := x.store + {root}), Block(x.current.number + 1, HashOf(x.current), time, root, txs))
  }

  predicate Extends(x: Node, b: Block) { b.number == x.current.number + 1 && b.parent == HashOf(x.current) }

  function Accept(c: Place, x: Node, b: Block): Node
    requires c.n > 0
  {
    if !Extends(x, b) then x
    else if b.root in x.store then x.(current := b)
    else x.(store := x.store + {Root(ExecBlock(x.current.root.trie, x.pm, c.n, c.s, b.body))}, current := b)
  }

  /** accountTransfer_do: the map first, then a block of this node's own. */
  function Migrate(c: Place, x: Node, t: Transfer): Node
    requires c.n > 0
  {
    var pm := x.pm + t.modified;
    var root := Root(Leaders.AddAccounts(x.current.root.trie, pm, c.n, c.s, t.states));
    Node(x.store + {root}, Block(x.current.number + 1, HashOf(x.current), 0, root, []), pm)
  }

  /** The current state can be read, it is what the chain gives, and so is the map. */
  ghost predicate Sound(c: Place, agreed: Agreed, x: Node)
    requires c.n > 0
  {
    && Known(agreed, x.current) && x.current.root in x.store
    && x.current.root == Root(StateOf(c, agreed, x.current)) && x.pm == MapOf(agreed, x.current)
  }

  /** The header root is that of executing the body on the node's own state and map. */
  predicate Honest(c: Place, x: Node, b: Block)
    requires c.n > 0
  {
    b.root == Root(ExecBlock(x.current.root.trie, x.pm, c.n, c.s, b.body))
  }

  /** An accepted mined block keeps a node sound exactly when its header root is the root
      of executing its body, whether the node executes it or finds the root present. */
  lemma AcceptSoundIff(c: Place, agreed: Agreed, x: Node, b: Block)
    requires c.n > 0 && Sound(c, agreed, x) && Extends(x, b) && b.time > 0
    ensures Accept(c, x, b).current == b
    ensures Sound(c, agreed, Accept(c, x, b)) <==> Honest(c, x, b)
  {
  }

  /** AddBlock does not compare roots: a block naming an older root that is still in
      the store is accepted, and the node falls back to that older state. */
  lemma StaleRootRollsBack(c: Place, agreed: Agreed, x: Node, txs: seq<Tx>, time: nat, stale: Root)
    requires c.n > 0 && Sound(c, agreed, x) && time > 0
    requires stale in x.store && stale != Root(ExecBlock(x.current.root.trie, x.pm, c.n, c.s, txs))
    ensures var b := Block(x.current.number + 1, HashOf(x.current), time, stale, txs);
            Accept(c, x, b).current.root == stale && !Sound(c, agreed, Accept(c, x, b))
  {
  }

  // ------------------------------------------------ the shard

  datatype Shard = Shard(nodes: seq<Node>, produced: set<Block>, agreed: Agreed)

  /** Any node may mine a block, which may never be agreed on; any node may receive any
      block that was mined, in any order and any number of times; and a node may execute
      the partition request agreed on at its head. */
  datatype Step =
    | Mine(node: nat, txs: seq<Tx>, time: nat)
    | Receive(node: nat, block: Block)
    | Execute(node: nat, transfer: Transfer)

  function Init(size: nat): Shard { Shard(seq(size, _ => NewNode()), {}, map[]) }

  predicate Enabled(x: Shard, step: Step) {
    step.node < |x.nodes| &&
    match step
    case Mine(_, _, time) => time > 0
    case Receive(_, b) => b in x.produced
    case Execute(i, t) => x.nodes[i].current in x.agreed ==> x.agreed[x.nodes[i].current] == t
  }

  function Apply(c: Place, x: Shard, step: Step): Shard
    requires c.n > 0 && Enabled(x, step)
  {
    match step
    case Mine(i, txs, time) =>
      var p := Produce(c, x.nodes[i], txs, time);
      x.(nodes := x.nodes[i := p.node], produced := x.produced + {p.block})
    case Receive(i, b) => x.(nodes := x.nodes[i := Accept(c, x.nodes[i], b)])
    case Execute(i, t) =>
      x.(nodes := x.nodes[i := Migrate(c, x.nodes[i], t)], agreed := x.agreed[x.nodes[i].current := t])
  }

  ghost predicate Next(c: Place, x: Shard, x': Shard)
    requires c.n > 0
  {
    exists step :: Enabled(x, step) && x' == Apply(c, x, step)
  }

  ghost predicate NextAt(c: Place, run: seq<Shard>, k: nat)
    requires c.n > 0 && 0 < k < |run|
  {
    Next(c, run[k - 1], run[k])
  }

  ghost predicate Run(c: Place, size: nat, run: seq<Shard>) {
    && c.n > 0 && |run| > 0 && run[0] == Init(size)
    && forall k | 0 < k < |run| :: NextAt(c, run, k)
  }

  // ------------------------------------------------ every node is sound

  /** A mined block names the state it stands for. */
  ghost predicate MinedOk(c: Place, agreed: Agreed, b: Block)
    requires c.n > 0
  {
    b.parent.HashOf? && b.time > 0 && Known(agreed, b) && b.root == Root(StateOf(c, agreed, b))
  }

  ghost predicate Inv(c: Place, x: Shard) {
    && c.n > 0 && (forall i | 0 <= i < |x.nodes| :: Sound(c, x.agreed, x.nodes[i]))
    && (forall b | b in x.produced :: MinedOk(c, x.agreed, b))
  }

  /** A mined block is honest because its producer was sound. */
  lemma ProducedIsHonest(c: Place, agreed: Agreed, x: Node, txs: seq<Tx>, time: nat)
    requires c.n > 0 && Sound(c, agreed, x) && time > 0
    ensures var p := Produce(c, x, txs, time);
            MinedOk(c, agreed, p.block) && Honest(c, x, p.block) && Extends(x, p.block) && Sound(c, agreed, p.node)
  {
  }

  /** Wherever a mined block fits, it is honest: its producer had the same head, and so
      the same state and map. */
  lemma MinedIsHonestEverywhere(c: Place, agreed: Agreed, x: Node, b: Block)
    requires c.n > 0 && Sound(c, agreed, x) && MinedOk(c, agreed, b) && Extends(x, b)
    ensures Honest(c, x, b)
  {
  }

  /** Later agreements do not touch what a known block stands for. */
  lemma {:induction false} AgreedGrows(c: Place, agreed: Agreed, agreed': Agreed, b: Block)
    requires c.n > 0 && Known(agreed, b) && forall p | p in agreed :: p in agreed' && agreed'[p] == agreed[p]
    ensures Known(agreed', b) && MapOf(agreed', b) == MapOf(agreed, b)
            && StateOf(c, agreed', b) == StateOf(c, agreed, b)
    decreases b
  {
    match b.parent
    case NoHash =>
    case HashOf(p) => AgreedGrows(c, agreed, agreed', p);
  }

  /** Executing an agreed request keeps a node sound, under the map it changes to. */
  lemma MigrateSound(c: Place, agreed: Agreed, x: Node, t: Transfer)
    requires c.n > 0 && Sound(c, agreed, x) && (x.current in agreed ==> agreed[x.current] == t)
    ensures Sound(c, agreed[x.current := t], Migrate(c, x, t))
  {
    AgreedGrows(c, agreed, agreed[x.current := t], x.current);
  }

  lemma StepKeeps(c: Place, x: Shard, step: Step)
    requires Inv(c, x) && Enabled(x, step)
    ensures Inv(c, Apply(c, x, step))
  {
    match step
    case Mine(i, txs, time) => ProducedIsHonest(c, x.agreed, x.nodes[i], txs, time);
    case Receive(i, b) =>
      if Extends(x.nodes[i], b) {
        MinedIsHonestEverywhere(c, x.agreed, x.nodes[i], b);
        AcceptSoundIff(c, x.agreed, x.nodes[i], b);
      }
    case Execute(i, t) => ExecuteKeeps(c, x, i, t);
  }

  lemma ExecuteKeeps(c: Place, x: Shard, i: nat, t: Transfer)
    requires Inv(c, x) && Enabled(x, Execute(i, t))
    ensures Inv(c, Apply(c, x, Execute(i, t)))
  {
    var x' := Apply(c, x, Execute(i, t));
    MigrateSound(c, x.agreed, x.nodes[i], t);
    forall j | 0 <= j < |x'.nodes| ensures Sound(c, x'.agreed, x'.nodes[j]) {
      if j != i { AgreedGrows(c, x.agreed, x'.agreed, x.nodes[j].current); }
    }
    forall b | b in x'.produced ensures MinedOk(c, x'.agreed, b) { AgreedGrows(c, x.agreed, x'.agreed, b); }
  }

  lemma {:induction false} RunInv(c: Place, size: nat, run: seq<Shard>, k: nat)
    requires Run(c, size, run) && k < |run|
    ensures Inv(c, run[k]) && |run[k].nodes| == size
  {
    if k > 0 {
      RunInv(c, size, run, k - 1);
      assert NextAt(c, run, k);
      NextKeeps(c, run[k - 1], run[k]);
    }
  }

  lemma NextKeeps(c: Place, x: Shard, x': Shard)
    requires Inv(c, x) && Next(c, x, x')
    ensures Inv(c, x') && |x'.nodes| == |x.nodes|
  {
    var step :| Enabled(x, step) && x' == Apply(c, x, step);
    StepKeeps(c, x, step);
  }

  /** Skipping execution is sound: in every run, whatever a node has mined, executed or
      skipped, its state can be read and is the one its chain of bodies and transfers
      gives, and its account map is the one its chain gives. */
  lemma SkippingIsSound(c: Place, size: nat, run: seq<Shard>, k: nat, i: nat)
    requires Run(c, size, run) && k < |run| && i < size
    ensures |run[k].nodes| == size
    ensures var x := run[k].nodes[i];
            && x.current.root in x.store && x.current.root == Root(StateOf(c, run[k].agreed, x.current))
            && x.pm == MapOf(run[k].agreed, x.current)
  {
    RunInv(c, size, run, k);
  }

  /** Two nodes whose heads agree in everything but the root hold the same state and
      the same account map. */
  lemma SameHeadSameState(c: Place, size: nat, run: seq<Shard>, k: nat, i: nat, j: nat)
    requires Run(c, size, run) && k < |run| && i < size && j < size && |run[k].nodes| == size
    requires var a, b := run[k].nodes[i].current, run[k].nodes[j].current;
             a.parent == b.parent && a.time == b.time && a.body == b.body
    ensures run[k].nodes[i].current.root == run[k].nodes[j].current.root && run[k].nodes[i].pm == run[k].nodes[j].pm
  {
    RunInv(c, size, run, k);
    assert Sound(c, run[k].agreed, run[k].nodes[i]) && Sound(c, run[k].agreed, run[k].nodes[j]);
  }

  // ------------------------------------------------ the object

  class BlockChain {
    const c: Place
    var store: set<Root>
    var currentBlock: Block
    var pm: PartitionMap

    ghost predicate Valid()
      reads this
    {
      c.n > 0 && currentBlock.root in store
    }

    function View(): Node
      reads this
    {
      Node(store, currentBlock, pm)
    }

    constructor (c: Place)
      requires c.n > 0
      ensures Valid() && View() == NewNode() && this.c == c
    {
      this.c, store, currentBlock, pm := c, {GENESIS.root}, GENESIS, map[];
    }

    /** Opens the trie of the current root, executes, commits the result. */
    method GetUpdateStatusTrie(txs: seq<Tx>) returns (root: Root)
      requires Valid()
      modifies this`store
      ensures root == Root(ExecBlock(currentBlock.root.trie, pm, c.n, c.s, txs)) && store == old(store) + {root}
      ensures var trie := currentBlock.root.trie;
              forall a: Addr :: Balance(root.trie, a)
                == Balance(trie, a) + W(LocalEffect(pm, c.n, c.s, a), GoThrough(trie, pm, c.n, c.s, txs))
    {
      root := currentBlock.root;
      if |txs| == 0 { return; }
      var st := LeaderNodes.UpdateStatusTrie(currentBlock.root.trie, pm, c.n, c.s, txs);
      root := Root(st);
      store := store + {root};
    }

    method GenerateBlock(txs: seq<Tx>, time: nat) returns (b: Block)
      requires Valid()
      modifies this`store
      ensures Valid() && Produced(View(), b) == Produce(c, old(View()), txs, time) && Honest(c, old(View()), b)
    {
      var root := GetUpdateStatusTrie(txs);
      b := Block(currentBlock.number + 1, HashOf(currentBlock), time, root, txs);
    }

    /** On an honest block the state stays readable; on an accepted dishonest one only
        if its root happens to be in the store. */
    method AddBlock(b: Block)
      requires Valid()
      modifies this`store, this`currentBlock
      ensures View() == Accept(c, old(View()), b)
      ensures Valid() <==> !Extends(old(View()), b) || b.root in old(store) || Honest(c, old(View()), b)
    {
      if b.number != currentBlock.number + 1 { return; }
      if b.parent != HashOf(currentBlock) { return; }
      if b.root !in store {
        var root := GetUpdateStatusTrie(b.body);
      }
      currentBlock := b;
    }

    /** accountTransfer_do: the map entry by entry, then AddAccounts. */
    method TransferAccounts(t: Transfer)
      requires Valid()
      modifies this`store, this`currentBlock, this`pm
      ensures Valid() && View() == Migrate(c, old(View()), t)
    {
      pm := LeaderNodes.OverlayMap(pm, t.modified);
      var st := LeaderNodes.StoreAccounts(currentBlock.root.trie, pm, c.n, c.s, t.states);
      store := store + {Root(st)};
      currentBlock := Block(currentBlock.number + 1, HashOf(currentBlock), 0, Root(st), []);
    }
  }
}
