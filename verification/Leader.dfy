/** The state of one shard leader and what each of its handlers does to it, as
    functions (accountTransfer_module.go, pbftInside_moduleCLPA.go,
    pbftOutside_moduleCLPA.go, dataSupport/clpaData_Extra.go). */
module Leaders {
  import opened Ledger

  datatype Relay = Relay(senderSeq: nat, txs: seq<Tx>)

  /** AccountStateAndTx: the account states and pooled transactions that move. */
  datatype Parcel = Parcel(states: Trie, txs: seq<Tx>)

  /** What the leader's proposing thread is doing while it holds sequenceLock. */
  datatype Stage =
    | Idle
    | BlockPending(body: seq<Tx>)                     // a block is in consensus
    | Waiting                                         // ready sent, in the barrier loop
    | Collecting                                      // accounts sent, in the collect loop
    | PartitionPending(modified: PartitionMap, states: Trie, atid: nat)

  datatype Leader = Leader(
    id: ShardId,
    pm: PartitionMap,
    trie: Trie,
    pool: seq<Tx>,
    sequenceID: nat,
    seqIDMap: map<ShardId, nat>,
    modifiedMap: seq<PartitionMap>,
    round: nat,
    partitionOn: bool,
    partitionReady: set<ShardId>,
    readySeq: map<ShardId, nat>,
    parcels: map<ShardId, Parcel>,
    collectOver: bool,
    stage: Stage)

  function NewLeader(id: ShardId): Leader {
    Leader(id, map[], map[], [], 1, map[], [], 0, false, {}, map[], map[], false, Idle)
  }

  // ------------------------------------------------ messages from outside

  function HandleInject(l: Leader, txs: seq<Tx>): Leader {
    l.(pool := l.pool + txs)
  }

  function HandleRelay(l: Leader, from: ShardId, r: Relay): Leader {
    l.(pool := l.pool + r.txs, seqIDMap := l.seqIDMap[from := r.senderSeq])
  }

  function HandlePartitionMsg(l: Leader, m: PartitionMap): Leader {
    l.(modifiedMap := l.modifiedMap + [m], partitionOn := true)
  }

  function HandleReady(l: Leader, from: ShardId, nowSeq: nat): Leader {
    l.(partitionReady := l.partitionReady + {from}, readySeq := l.readySeq[from := nowSeq])
  }

  function HandleParcel(l: Leader, n: nat, from: ShardId, p: Parcel): Leader {
    var ps := l.parcels[from := p];
    l.(parcels := ps, collectOver := l.collectOver || |ps| + 1 == n)
  }

  // ------------------------------------------------ blocks

  function ProposeBlock(l: Leader, size: nat): Leader
    requires size <= |l.pool|
  {
    l.(pool := l.pool[size..], stage := BlockPending(l.pool[..size]))
  }

  function CommitBlock(l: Leader, n: nat): Leader
    requires n > 0 && l.stage.BlockPending?
  {
    l.(trie := ExecBlock(l.trie, l.pm, n, l.id, l.stage.body),
       sequenceID := l.sequenceID + 1,
       stage := Idle)
  }

  /** The relay that the commit of the pending block sends to shard k. */
  function RelayFor(l: Leader, n: nat, k: ShardId): Relay
    requires n > 0 && l.stage.BlockPending?
  {
    Relay(l.sequenceID, Mark(Part(FateClass(l.pm, n, l.id), l.stage.body, k)))
  }

  /** The transactions the block reports as finished (InnerShardTxs and Relay2Txs). */
  function Finals(l: Leader, n: nat): seq<Tx>
    requires n > 0 && l.stage.BlockPending?
  {
    Part(FateClass(l.pm, n, l.id), l.stage.body, l.id)
  }

  // ------------------------------------------------ migration

  function SendReady(l: Leader): Leader {
    l.(partitionReady := l.partitionReady + {l.id}, stage := Waiting)
  }

  /** getPartitionReady: only shards already present in seqIDMap are compared. */
  predicate GetPartitionReady(l: Leader, n: nat) {
    && |l.partitionReady| == n
    && forall j | j in l.seqIDMap :: j in l.readySeq && l.readySeq[j] == l.seqIDMap[j] + 1
  }

  function LastMap(l: Leader): PartitionMap
    requires l.modifiedMap != []
  {
    l.modifiedMap[|l.modifiedMap| - 1]
  }

  function SendAccounts(l: Leader, n: nat): Leader
    requires n > 0 && l.modifiedMap != []
  {
    l.(pool := Part(MoveClass(LastMap(l), l.pm, n, l.id), l.pool, l.id), stage := Collecting)
  }

  function ParcelFor(l: Leader, n: nat, k: ShardId): Parcel
    requires n > 0 && l.modifiedMap != []
  {
    Parcel(map a | a in LastMap(l) && LastMap(l)[a] == k && k != l.id && Owner(l.pm, n, a) == l.id
             :: Balance(l.trie, a),
           Part(MoveClass(LastMap(l), l.pm, n, l.id), l.pool, k))
  }

  /** All collected transactions, shard by shard. */
  function ParcelTxs(ps: map<ShardId, Parcel>, k: nat): seq<Tx> {
    if k == 0 then []
    else ParcelTxs(ps, k - 1) + if k - 1 in ps then ps[k - 1].txs else []
  }

  /** The union of the collected account states, whatever order they are merged in. */
  ghost predicate IsMerge(states: Trie, ps: map<ShardId, Parcel>) {
    && (forall j, a | j in ps && a in ps[j].states :: a in states)
    && (forall a | a in states :: exists j :: j in ps && a in ps[j].states && states[a] == ps[j].states[a])
  }

  /** The "error tx" test of proposePartition; an absent key reads as shard 0. */
  predicate ErrorTx(l: Leader, tx: Tx)
    requires l.round < |l.modifiedMap|
  {
    var m := l.modifiedMap[l.round];
    (if Key(tx) in m then m[Key(tx)] else 0) != l.id
  }

  /** received and states are the collected transactions and accounts in the order the maps were read. */
  function ProposePartition(l: Leader, received: seq<Tx>, states: Trie): Leader
    requires l.round < |l.modifiedMap|
  {
    l.(pool := l.pool + received,
       stage := PartitionPending(l.modifiedMap[l.round], states, |l.modifiedMap|))
  }

  function AddAccounts(t: Trie, pm: PartitionMap, n: nat, s: ShardId, states: Trie): Trie
    requires n > 0
  {
    t + map a | a in states && Owner(pm, n, a) == s :: states[a]
  }

  /** accountTransfer_do, followed by the end of the consensus round. */
  function TransferAccounts(l: Leader, n: nat): Leader
    requires n > 0 && l.stage.PartitionPending?
  {
    var pm := l.pm + l.stage.modified;
    l.(pm := pm,
       trie := AddAccounts(l.trie, pm, n, l.id, l.stage.states),
       modifiedMap := if |l.modifiedMap| != l.stage.atid then l.modifiedMap + [l.stage.modified] else l.modifiedMap,
       round := l.stage.atid,
       parcels := map[],
       partitionOn := false,
       collectOver := false,
       partitionReady := {},
       sequenceID := l.sequenceID + 1,
       stage := Idle)
  }
}
