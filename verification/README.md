# A verified model of the sharded block emulator

The repository emulates a sharded blockchain: shards execute blocks and relay the
second half of cross-shard transfers, a supervisor moves accounts between shards
while the system runs, partitioning algorithms decide where accounts live, and
PBFT with optional compact proposals orders the requests of each shard. This
project models that logic in Dafny and proves what holds over every run, every
visiting order and every input.

`dafny verify dfyconfig.toml` checks everything.

## What is modelled

**Sharded execution and account migration.** `Ledger` (balances, ownership, block
execution), `Leaders` (what each handler of a shard leader does, as functions),
`LeaderNodes` (the leader as an object whose methods, with the loops of the code,
are proved to do just that), `Sharding` (the whole system: n leaders, r replicas
per shard, channels, supervisor, sixteen steps), `Invariant`, `Preservation`,
`MigrationPreservation` (the inductive invariant and its proof), `Conservation`
and `ShardingTheorems` (the results), `Replication` (the request log of each shard
and the replicas that execute it), `ColdStart` and `LostPayment` (what happens when a
migration starts too early), `IdleShard` and `StuckBarrier` (what happens when one starts
too soon after another), `Progress`, `NoDeadlock` and `Completion` (a migration does not
get stuck and a first one can always be completed), `Committees` (the supervisor's own
loops, following the supervisor of `Sharding`).

**Partitioning.** `Sweeps` (passes that visit everything once), `Graphs`, `Clpa` and
`ClpaRest` (incremental counters, whole runs, coming to rest),
`Greedy` (longest-first allocation and Graham's bound), `Louvain` (weighted cut),
`FinalBalancing` (loads), `ImprovedPLouvain` (the three together), `PLouvain`
(communities, workloads) and `PhaseBalance` (what its placement is worth).

**Consensus.** `Pbft`, `PbftSafety`, `Quorums`, `PbftNodes` (fixed-leader normal case
after section 4.2 of Castro and Liskov, OSDI 1999), `PbftProgress` (what quorums bring
about), `PbftStages` and `PbftRounds` (the waits on the stage of the round, and rounds
completed within them), `PbftLimits` (runs that break the simplest laws and the exact
conditions under which they hold), `Compact` and `CompactDelivery`
(content-addressed proposals), `Chain` (acceptance without execution, over several nodes).

**ExClique.** `BloomFilter` and `Gini`.

## How the code is read

- Each handler or goroutine body is one atomic step. Any enabled step may come next.
- Messages are delivered exactly once between shards. Relays from one shard to
  another arrive in the order sent, and so do the supervisor's messages to one
  leader; ready messages and parcels may overtake relays. Within a shard, PBFT and
  proposal messages may be reordered and repeated at will.
- An address is the number its 40 hexadecimal digits denote. A missing account holds
  the initial balance. Accounts carry balances, not nonces.
- A block takes a prefix of the pool of any length, which covers both packing functions.
- Iteration over a Go map is any order; `sort.Slice` with ties gives any order of the tied.
- Hashes are injective and codecs inverse: a digest, root or key is identified with
  what was hashed. Floating point is exact arithmetic.
- A migration plan maps into the existing shards. Migrations follow one another, each
  closed by an acknowledgement from every replica; the program performs one. Injection
  pauses from the start of a migration to its end.
- Replicas of a shard execute the requests its leader proposes in the order proposed,
  each at its own time, behind the leader or ahead of it (`Replication`).
- A run assumes one thing of the barrier: a leader that passes it has handled a relay from
  every other shard that has ever committed a block. getPartitionReady inspects only the
  shards present in seqIDMap, and this is exactly when its verdict is right
  (`ShardingTheorems.BarrierIsSafe`; `ColdStart.BarrierTestExact` for a first migration
  without the assumption). Starting migrations when every leader has heard from every other
  shard is enough (`ColdStart.WarmStartIsEnough`); without it a payment can be lost
  (`LostPayment.ColdMigrationLosesPayment`).
- A partition request takes a sequence number and sends no relay, so a shard that commits
  no block between two migrations keeps those that have heard from it waiting
  (`IdleShard.TestHoldsIff`, `StuckBarrier.SecondMigrationStalls`).
- The last balancing phase may raise the heaviest load
  (`FinalBalancing.NoHeavierIff`, `FinalBalancing.BalancingRaisesTheHeaviestLoad`).
- Balances are conserved for funded senders (all a sender sends is within the initial
  balance): execution skips an uncovered debit but the commit handler relays the
  transfer all the same. `Ledger.TxConservesIff` has the exact condition.
- `changeShardRecompute` treats a self-loop of the mover as a neighbour already in the
  new shard. `Clpa.ClpaState.Move` has the exact condition. `AddVertex` counts a vertex
  each time it is called.
- Transaction values are not negative.
- `AddBlock` never compares the header root with what it executed
  (`Chain.AcceptSoundIff`, `Chain.StaleRootRollsBack`).
- A replica may apply a block before the leader does, so it is the leader's log, not its
  chain, that bounds the others (`PbftLimits.ReplicaAheadOfLeader`, `PbftLimits.PrefixOfLeaderIff`).
- `handleCommit` does not require the commit's sequence number to equal the node's own,
  so a replica's sequence number may run ahead of its chain while `AddBlock` drops the
  block; the chain itself stays a prefix of the leader's log
  (`PbftLimits.SequenceAheadOfChain`, `PbftLimits.DecisionInStepIff`).
- `handleCommit` asks for old requests from one above the node's sequence number on, and
  `handleSendOldSeq` moves the sequence number whatever the reply holds
  (`PbftLimits.CatchUpSkipsTheBlock`, `PbftLimits.CatchUpInStepIff`).
- Nodes that execute a partition request at the same head execute the same one, as
  consensus has it; `Chain` needs no more of consensus than that.

## Model

| member | source | states |
|---|---|---|
| `Replication.EveryReplicaHoldsTheReplay` | experiments/summarize_overhead.py:57-81 | The audit, at every replica: in every run with funded senders and any number of migrations, once all transactions are confirmed and no migration is under way, every replica of the owning shard that has executed what its leader has holds the balance of the sequential replay, and every replica of every shard agrees on the owner |
| `Replication.AcksMeanEveryReplicaAgrees` | supervisor/committee/committee_overhead.go:193-207 | When one acknowledgement per replica of every shard is counted, every replica holds the supervisor's next account map, and no acknowledgement is under way |
| `Replication.ReplicasAgreeBetweenMigrations` | consensus_shard/pbft_all/accountTransfer_module.go:178-187 | Outside migrations every replica of every shard holds the supervisor's map |
| `Replication.ReplicasFoldTheLog` | consensus_shard/pbft_all/pbftInside_moduleCLPA.go:81-101 | A replica's map and trie are the fold of the part of the request log it has executed, whether it lags behind the leader or runs ahead of it |
| `Replication.BaseRun` | consensus_shard/pbft_all/pbftInside_moduleCLPA.go:81-101 | A run with followers executing at their own pace is a run of the leaders and the supervisor, so every theorem about those holds of it |
| `Replication.FollowerCatchesUp` | consensus_shard/pbft_all/pbftInside_moduleCLPA.go:81-101 | From every state of every run any follower can execute the rest of its log, ending with the state of the whole log |
| `ShardingTheorems.AlwaysBalanced` | chain/blockchain.go:80-163 | Inductive form: at every step, balance held by the authoritative copy plus the effect of everything still outstanding is the initial balance plus the effect of everything injected |
| `ShardingTheorems.AlwaysAccounted` | consensus_shard/pbft_all/accountTransfer_module.go:86-119 | Any flag-blind weight of transactions is conserved: outstanding (pools, blocks in consensus, relays, parcels, supervisor queues) plus finished equals injected, in every state |
| `ShardingTheorems.ExactlyOnePlace` | consensus_shard/pbft_all/accountTransfer_module.go:86-119 | Every injected transaction is at all times in exactly one place, outstanding once or finished once |
| `ShardingTheorems.ConfirmedMeansDone` | supervisor/committee/committee_overhead.go:211-223 | When the supervisor has confirmed as many transactions as it injected, nothing is outstanding anywhere |
| `ShardingTheorems.NoTransactionIsMisrouted` | consensus_shard/pbft_all/pbftInside_moduleCLPA.go:118-132 | In every reachable state the body being executed is un-relayed with its sender owned there or relayed with its recipient owned there, and the error-tx test of a partition proposal never fires: neither the incorrect-tx branches nor the panics are reachable |
| `ShardingTheorems.ReplayIsEffect` | experiments/summarize_overhead.py:66-69 | The replay oracle is the initial balance plus the summed effect of the rows |
| `ShardingTheorems.FinalBalancesAreReplayed` | chain/blockchain.go:80-163 | At the leaders: once every injected transaction is confirmed the balance held for each account equals the sequential replay, and between migrations it is stored at the owner |
| `ShardingTheorems.BarrierIsSafe` | consensus_shard/pbft_all/accountTransfer_module.go:17-55 | When getPartitionReady holds at a waiting leader every other leader is in the barrier under the old map, and in every later state of the run no block is in consensus there until it has applied its partition request; no relay from it is under way if and only if it was heard from or has never committed a block |
| `ShardingTheorems.SingleAuthority` | consensus_shard/pbft_all/accountTransfer_module.go:178-214 | A migrating account has one authority at every moment, the source's trie until the destination applies its request and the destination's then; only that shard can execute transactions on it; outside the tries its only copies are one parcel from source to destination and the destination's request, with the source's balance |
| `ShardingTheorems.AuthorityPassesWithBalance` | chain/blockchain.go:312-365 | When the destination applies its request its trie takes the balance the source's trie holds |
| `ShardingTheorems.NoStrayCopies` | consensus_shard/pbft_all/accountTransfer_module.go:71-84 | No parcel or request anywhere else holds a copy of a migrating account |
| `MigrationPreservation.RunInv` | consensus_shard/pbft_all/pbftInside_moduleCLPA.go:23-51 | The inductive invariant relating every shard, every pair of shards and the supervisor, while some shards use the old map and others the new, holds in every state of every run |
| `MigrationPreservation.StepKeeps` | consensus_shard/pbft_all/accountTransfer_module.go:17-214 | Each of the sixteen steps keeps that invariant |
| `MigrationPreservation.BarrierPair` | consensus_shard/pbft_all/accountTransfer_module.go:40-55 | When a waiting leader passes its test the other shard is in the barrier, and all its relays have been received if and only if the leader has heard from it or it has never committed a block |
| `MigrationPreservation.AllAcked` | supervisor/committee/committee_overhead.go:193-203 | n times r acknowledgements in range are one from every replica of every shard |
| `MigrationPreservation.EnterBarrierPair` | consensus_shard/pbft_all/accountTransfer_module.go:17-37 | A ready message under way announces the sender's sequence number and no earlier one from it is pending |
| `Preservation.DeliverRelayNode` | consensus_shard/pbft_all/pbftOutside_moduleCLPA.go:40-53 | A relay delivered late, even during a barrier, is routed by the map its receiver's pool is sorted by |
| `Preservation.DeliverFromSupNode` | consensus_shard/pbft_all/pbftOutside_moduleCLPA.go:82-106 | Handling an injected batch or the partition message keeps a leader's part of the invariant: the pool stays routed and the map recorded is that of the migration under way |
| `Preservation.DeliverReadyPair` | consensus_shard/pbft_all/pbftOutside_moduleCLPA.go:109-124 | A recorded ready message carries the announcing shard's present sequence number, until that shard has applied its request |
| `Preservation.DeliverParcelNode` | consensus_shard/pbft_all/pbftOutside_moduleCLPA.go:127-142 | A parcel is the only one from its shard, and the collection closes with one from every other shard |
| `Conservation.StepWeight` | consensus_shard/pbft_all/pbftInside_moduleCLPA.go:118-145 | What each step adds to or takes from the outstanding transactions, for any weight |
| `Ledger.TxConservesIff` | chain/blockchain.go:93-139 | Executing a routed transaction and relaying it conserves every balance if and only if it was already relayed, its debit is covered, or it pays its own sender |
| `Ledger.BlockConserves` | chain/blockchain.go:80-163 | A covered block changes each balance by the effect of its body less what is relayed on |
| `Ledger.UncoveredTransferMintsMoney` | chain/blockchain.go:114-117 | Without funding the law fails: an uncovered cross-shard transfer skips the debit and is relayed all the same |
| `Ledger.ExecFrame` | chain/blockchain.go:86-140 | Executing a block leaves accounts the shard does not own untouched |
| `Ledger.BlockBalances` | chain/blockchain.go:93-146 | Any block on any state, funded or not: every balance changes by the effects of the transactions covered at their turn, and the others change nothing |
| `Ledger.TxBalance` | chain/blockchain.go:96-146 | One transaction changes every balance by its effect here, or no balance at all when its debit is not covered |
| `Ledger.LocalBlockKeepsTotal` | chain/blockchain.go:93-146 | A block of transfers inside the shard keeps the total of any accounts that include its ends, covered or not |
| `Ledger.HomeShardOfDigits` | utils/utils_partition.go:11-21 | For hexadecimal addresses of every length the shard is the number of the last eight digits modulo the number of shards |
| `ColdStart.BarrierTestExact` | consensus_shard/pbft_all/accountTransfer_module.go:48-54 | In a first migration started at any time, a leader that passes its own test has all relays from shard j if and only if it had handled a relay from j before or j had committed no block |
| `ColdStart.WarmStartIsEnough` | consensus_shard/pbft_all/accountTransfer_module.go:48-54 | If every migration starts only after every leader has handled a relay from every other shard, then nobody passes a barrier unheard: the sequence is a run in the sense of all the theorems |
| `LostPayment.ColdMigrationLosesPayment` | consensus_shard/pbft_all/accountTransfer_module.go:49-54 | A concrete two-shard run under the only plan the committee can make of its senders: a migration started before shard 1 has heard from shard 0 passes the barrier test with a relay under way and completes, a later block drops the payment, and with nothing left to do the recipient's balance is not the replayed one |
| `IdleShard.IdleShardBlocksTheBarrier` | consensus_shard/pbft_all/accountTransfer_module.go:48-54 | A shard whose last sequence number went to a partition request keeps every leader that has heard from it in the barrier of a later migration, whatever else that leader handles |
| `IdleShard.TestHoldsIff` | consensus_shard/pbft_all/accountTransfer_module.go:48-54 | With the ready message and all relays of a shard handled, the test on it is true if and only if the shard's last sequence number was taken by a block |
| `StuckBarrier.SecondMigrationStalls` | consensus_shard/pbft_all/accountTransfer_module.go:28-55 | A concrete two-shard run: a second migration before another block leaves both leaders in the barrier, and that of shard 1, with every relay and ready message handled, fails its test |
| `Progress.ConfirmedExactly` | supervisor/committee/committee_overhead.go:211-223 | With no report under way the confirmed transactions are the finished ones, and the supervisor's count is complete if and only if nothing is outstanding |
| `NoDeadlock.MigrationNeverStuck` | consensus_shard/pbft_all/pbftInside_moduleCLPA.go:23-51 | In every reachable state of a migration in which no leader is blocked by an idle shard, some step of the migration can be taken |
| `NoDeadlock.FirstMigrationNeverStuck` | consensus_shard/pbft_all/pbftInside_moduleCLPA.go:23-51 | The first migration of any run can always be driven on |
| `Completion.FirstMigrationCompletes` | consensus_shard/pbft_all/accountTransfer_module.go:17-214 | From every state of every run in which the first migration is under way the run can be continued to its end, with the plan adopted |
| `Completion.StepNearer` | consensus_shard/pbft_all/accountTransfer_module.go:17-214 | Every step of a migration brings it nearer to its end |
| `LeaderNodes.UpdateStatusTrie` | chain/blockchain.go:80-163 | The execution loop computes the ledger's block execution: every balance changes by the effects of the transactions that go through, and an uncovered one changes nothing |
| `LeaderNodes.Compact` | consensus_shard/pbft_all/accountTransfer_module.go:86-103 | The two-pointer loop splits the queue into the moved part and the rest, both in order, losing nothing |
| `LeaderNodes.Classify` | consensus_shard/pbft_all/pbftInside_moduleCLPA.go:118-145 | The commit loop sorts the body by fate: relay pool per destination, finished, skipped |
| `LeaderNodes.FetchAccounts` | chain/blockchain.go:368-390 | Fetched states are the stored balances, or the initial one for missing accounts |
| `LeaderNodes.Collect` | consensus_shard/pbft_all/accountTransfer_module.go:135-140 | Merging the parcels, in any order, gives all their transactions and the union of their states |
| `LeaderNodes.LeaderNode.HandleRelay` | consensus_shard/pbft_all/pbftOutside_moduleCLPA.go:40-53 | Adds the transactions and records the sender's sequence number |
| `LeaderNodes.LeaderNode.AddTxs2Pool` | core/txpool.go:37-46 | Appends in order |
| `LeaderNodes.LeaderNode.ProposeBlock` | core/txpool.go:56-66 | Takes a prefix of the queue of any length and leaves the rest |
| `LeaderNodes.LeaderNode.CommitBlock` | consensus_shard/pbft_all/pbftInside_moduleCLPA.go:96-145 | Executes the body and relays it by fate |
| `LeaderNodes.LeaderNode.GetPartitionReady` | consensus_shard/pbft_all/accountTransfer_module.go:40-55 | The test inspects exactly the shards heard from, and the number of ready shards |
| `LeaderNodes.LeaderNode.SendAccountsAndTxs` | consensus_shard/pbft_all/accountTransfer_module.go:58-122 | One parcel per other shard with the moving accounts' states and their transactions; the pool keeps the rest |
| `LeaderNodes.LeaderNode.FindErrorTx` | consensus_shard/pbft_all/accountTransfer_module.go:143-150 | Finds a collected transaction that does not belong here, if there is one |
| `LeaderNodes.LeaderNode.ProposePartition` | consensus_shard/pbft_all/accountTransfer_module.go:132-175 | Adds the collected transactions to the pool and forms the request |
| `LeaderNodes.LeaderNode.AccountTransferDo` | consensus_shard/pbft_all/accountTransfer_module.go:178-214 | Applies map and states and resets the migration record |
| `LeaderNodes.OverlayMap` | chain/blockchain.go:58-62 | Updating the map entry by entry, in any order, overlays it |
| `LeaderNodes.StoreAccounts` | chain/blockchain.go:312-345 | Stores the states of the accounts this shard now owns and no others |
| `Committees.Committee.RouteBatch` | supervisor/committee/committee_overhead.go:121-128 | Each transaction goes to its sender's shard in order, and each sender is counted |
| `Committees.FirstAccounts` | supervisor/committee/committee_overhead.go:163-175 | The chosen accounts are the most frequent, as many as asked for or as there are, ties by address |
| `Committees.PlanMoves` | supervisor/committee/committee_overhead.go:179-182 | Every plan is in range and moves every account it names to the shard after its own, from the last to shard 0 |
| `Committees.AcksAreValid` | supervisor/committee/committee_overhead.go:234-236 | Every acknowledgement under way in the one migration performed is of epoch 1 and in range: the panic is unreachable |
| `Committees.Committee.HandleAck` | supervisor/committee/committee_overhead.go:225-240 | Follows the supervisor's step for every acknowledgement under way in a reachable state, without a panic; refuses exactly those of another epoch or out of range |
| `Committees.BatchIsInjected` | supervisor/committee/committee_overhead.go:121-137 | The parts of a fresh batch are injections the whole system can take one after the other |
| `Committees.Committee.ChooseAccounts` | supervisor/committee/committee_overhead.go:159-182 | A plan sends each chosen account to the shard after its own, from the last to shard 0, and is a migration the system can start; it panics exactly with fewer than two shards or no account |
| `Committees.Committee.Adopt` | supervisor/committee/committee_overhead.go:193-207 | The plan becomes the placement exactly when all acknowledgements are there, which is the supervisor's step that ends the migration |
| `Committees.Committee.HandleBlockInfo` | supervisor/committee/committee_overhead.go:211-223 | Confirms every finished transaction once and follows the supervisor's step |
| `Graphs.Handshake` | partition/partition_CLPA.go:157-161 | The inbound tallies of all shards sum to twice the cross-shard edges, so the halving is exact |
| `Graphs.ScanAll` | partition/partition_CLPA.go:163-165 | Twice-counted inner entries are even and halve exactly, self-loops included |
| `Graphs.MoveCounts` | partition/partition_CLPA.go:175-189 | The exact effect of one move on every count, in terms of the mover's list, with its self-loop correction |
| `Clpa.IncrementalIsRecountIff` | partition/partition_CLPA.go:175-197 | After any sequence of moves the incrementally kept counters equal a fresh count if and only if no moved vertex has a self-loop |
| `Clpa.MoveUpdate` | partition/partition_CLPA.go:175-189 | The loop over the mover's neighbours makes exactly the update the sequence law is about |
| `Clpa.DriftOfMove` | partition/partition_CLPA.go:175-197 | The incremental update is off from a recount by exactly the mover's self-loops |
| `Clpa.ScanGraph` | partition/partition_CLPA.go:141-155 | The nested scan, in any map order, computes both tallies |
| `Clpa.ClpaState.AddVertex` | partition/partition_CLPA.go:54-63 | The population counts stay right exactly when the vertex is new |
| `Clpa.ClpaState.AddEdge` | partition/partition_CLPA.go:66-77 | Keeps the adjacency lists those of the edge list and the populations right, and places new vertices by their address |
| `Clpa.ClpaState.Link` | partition/graph.go:31-45 | Enters an undirected edge in both lists |
| `Clpa.ClpaState.ComputeEdges2Shard` | partition/partition_CLPA.go:131-172 | All counters equal the counts over the edge list |
| `Clpa.ClpaState.ChangeShardRecompute` | partition/partition_CLPA.go:175-197 | Updates every counter by the exact change, short of the mover's self-loops, as the sequence law says |
| `Clpa.ClpaState.Move` | partition/partition_CLPA.go:290-299 | After a sequence of moves the counters equal a recount if and only if no moved vertex has a self-loop; the populations always do |
| `Clpa.ClpaState.ClpaPartition` | partition/partition_CLPA.go:266-309 | For every visiting order and score: as many passes as asked for, each visiting every vertex once, each visit as Visit says; populations right, no non-empty shard ever emptied, each vertex moved at most 50 times, each move to a shard that held a neighbour just then, the returned delta overlays the initial map to give the final one, and the final counters are exact |
| `Clpa.BestShard` | partition/partition_CLPA.go:276-289 | The shard of the first neighbour whose score no other exceeds, or the present one when none scores above -9999 |
| `Clpa.ClpaState.Visit` | partition/partition_CLPA.go:272-300 | A vertex moves exactly when its limit is not reached, its shard has another vertex and the first best-scored shard among its neighbours is another one, and it moves there; the counters equal a recount if and only if no mover so far has a self-loop |
| `Clpa.RunExplained` | partition/partition_CLPA.go:270-300 | The moves of a run account for its whole state: placement, delta, move counts and incrementally kept counters |
| `Clpa.ChoiceIsUnique` | partition/partition_CLPA.go:276-289 | The first best-scored neighbour shard is one shard |
| `ClpaRest.QuietPassSettles` | partition/partition_CLPA.go:270-300 | A pass without moves leaves every vertex at rest, and no later pass changes anything |
| `ClpaRest.EnoughPassesRest` | partition/partition_CLPA.go:270-300 | With more than fifty passes per vertex a run ends at rest, for every score and every order |
| `Greedy.GreedyWithinFourThirds` | supervisor/committee/committee_plouvain.go:182-200 | Graham's bound: longest first, 3m times the largest load is at most 4m-1 times the largest load of any other assignment |
| `Greedy.GreedyAverageBound` | supervisor/committee/committee_plouvain.go:182-200 | In any order, m times the largest load is at most the total plus m-1 times the largest job |
| `Greedy.LongLastJob` | supervisor/committee/committee_plouvain.go:182-200 | A job longer than a third of the rival's maximum always fits within that maximum |
| `Greedy.LoadIsShardLoad` | supervisor/committee/committee_plouvain.go:163-167 | The load by address counts is the number of transaction sides held |
| `Greedy.WorkIsTwicePerTransaction` | supervisor/committee/committee_plouvain.go:163-167 | The counts sum to twice the number of transactions |
| `Greedy.CountTransactions` | supervisor/committee/committee_plouvain.go:163-167 | Counts exactly the occurrences of each address |
| `Greedy.SortByCount` | supervisor/committee/committee_plouvain.go:170-180 | Lists every address once in descending count, ties in any order |
| `Greedy.LeastLoaded` | supervisor/committee/committee_plouvain.go:189-197 | The leftmost least-loaded shard |
| `Greedy.Allocate` | supervisor/committee/committee_plouvain.go:182-200 | Places every address on a least-loaded shard and keeps the loads |
| `Greedy.TransactionBasedPartitioning` | supervisor/committee/committee_plouvain.go:161-214 | Total, in range, loads sum to two per transaction, and both bounds stated on the transactions alone |
| `Louvain.CutOfMove` | supervisor/committee/committee_plouvain.go:228-249 | The exact change of the cross-shard weight by one move, self-loops allowed |
| `Louvain.MoveLowersCut` | supervisor/committee/committee_plouvain.go:245-249 | A move that passes the threshold goes to another shard and strictly lowers the cut |
| `Louvain.BuildGraph` | supervisor/committee/committee_plouvain.go:88-105 | The nested maps are symmetric and hold the summed values of the transactions |
| `Louvain.ShardWeights` | supervisor/committee/committee_plouvain.go:228-232 | The connection weights of a node, neighbours in any order |
| `Louvain.Heaviest` | supervisor/committee/committee_plouvain.go:235-242 | The first shard of greatest weight |
| `Louvain.Visit` | supervisor/committee/committee_plouvain.go:224-249 | A node moves exactly when some shard pulls it more than the factor, to the first shard that pulls it hardest, and then the cut drops |
| `Louvain.Pass` | supervisor/committee/committee_plouvain.go:221-250 | A pass visits every node once, in any order, each as Visit says; with a move the cut is lower, without one every node is settled |
| `Louvain.Optimize` | supervisor/committee/committee_plouvain.go:217-259 | As many passes as counted; any pass with moves lowers the cut, and stopping before the cap means every node is settled |
| `Louvain.LouvainOptimization` | supervisor/committee/committee_plouvain.go:217-259 | Factor 1.2 and five rounds of full passes: any change lowers the cut, and stopping early means every node is settled |
| `Louvain.OptimizeBoundaryNodes` | supervisor/committee/committee_plouvain.go:262-304 | Factor 1.5 and three rounds of full passes: any change lowers the cut, and stopping early means every node is settled |
| `FinalBalancing.FinalLoadBalancing` | supervisor/committee/committee_plouvain.go:307-406 | Every round moves a node with most neighbours elsewhere from the first heaviest to the first lightest shard; at most ten rounds, fewer only when the heaviest load is under 1.3 times the average or no node qualifies |
| `FinalBalancing.RoundLoads` | supervisor/committee/committee_plouvain.go:347-393 | The two shards of a round differ; the one left loses the mover's transactions inside it, the one entered gains those it has there, and no other load changes |
| `FinalBalancing.NoHeavierIff` | supervisor/committee/committee_plouvain.go:347-393 | A round leaves no shard heavier than the heaviest was if and only if the lightest load and what the mover brings to it stay within that |
| `FinalBalancing.BalancingRaisesTheHeaviestLoad` | supervisor/committee/committee_plouvain.go:347-393 | A concrete round after which the heaviest load is greater than before |
| `FinalBalancing.OverloadedIsNotLightest` | supervisor/committee/committee_plouvain.go:326-352 | A shard at 1.3 times the average or more holds more than the lightest, so a round never moves a node to where it is |
| `ImprovedPLouvain.PartitionTransactions` | supervisor/committee/committee_plouvain.go:135-158 | All phases together: every address placed in range, a greedy start within Graham's factor of every assignment, optimisation phases that only lower the cross-shard weight and end settled when not capped, then at most ten balancing rounds, fewer only at rest |
| `PLouvain.CrossOfMove` | partition/partition_PLouvain.go:135-169 | The exact change of the edges between communities by one move |
| `PLouvain.GroupWeights` | partition/partition_PLouvain.go:140-147 | The weight towards each community among the neighbours, in any order |
| `PLouvain.BestCommunity` | partition/partition_PLouvain.go:149-163 | The community of greatest gain |
| `PLouvain.VisitVertex` | partition/partition_PLouvain.go:135-169 | A vertex moves exactly when it is not settled, to a community holding most of its edges, and then at least one more edge lies inside communities |
| `PLouvain.AggressiveLouvain` | partition/partition_PLouvain.go:107-171 | Every round visits every vertex once; at most one more round than the initial number of edges between communities, so a larger cap never binds and the result is settled |
| `PLouvain.BuildCommunities` | partition/partition_PLouvain.go:176-209 | Every vertex in exactly one community, two vertices together exactly when they carry the same label, and each workload the sum of its members' loads |
| `PLouvain.LoadOf` | partition/partition_PLouvain.go:189-192 | The summed tenths are one plus a tenth of the degree |
| `PLouvain.FastestShard` | partition/partition_PLouvain.go:233-248 | The first shard of least estimated time, shard 0 when none has performance |
| `PLouvain.CommunityMovement` | partition/partition_PLouvain.go:229-255 | Every community is kept whole and lies on the first shard whose estimated time with it, given the communities before, is least; every vertex in range and each workload the sum of its vertices' loads |
| `PLouvain.WorkloadsMove` | partition/partition_PLouvain.go:309-314 | Moving a vertex keeps every workload a sum of loads, and the difference is never negative |
| `PLouvain.AccountMovement` | partition/partition_PLouvain.go:258-320 | A round visits every account once, lowers the cross-shard edges by at least the number of moves, and without moves leaves every account at rest |
| `PLouvain.RunPLouvain` | partition/partition_PLouvain.go:60-87 | The whole run: rounds over all vertices, communities by label, each on the fastest shard at its turn, rounds over all accounts; exact workloads throughout, and no phase cuts more edges than the one before; phases 0 and 2 have their round bounds and end settled when the cap does not bind |
| `PLouvain.MoveAccount` | partition/partition_PLouvain.go:270-316 | An account moves exactly when some shard holds more than one and a half times its own shard's edges, to a shard holding most; the cross-shard edges drop, the workloads stay exact and the clamp is never needed |
| `PLouvain.PlacementCutsLess` | partition/partition_PLouvain.go:229-255 | A placement that keeps communities whole has at most as many cross-shard edges as there are edges between communities |
| `PhaseBalance.EqualShardsBound` | partition/partition_PLouvain.go:229-255 | On m equal shards, m times any shard's load is at most the load of all vertices plus m - 1 times that of the largest community |
| `PbftSafety.ChainsArePrefixes` | consensus_shard/pbft_all/messageHandle.go:90-286 | Every node's chain is a prefix of the leader's log, the leader's chain is that log up to one outstanding proposal, and any two chains agree |
| `PbftSafety.AppliedHasQuorums` | consensus_shard/pbft_all/messageHandle.go:154-286 | Every digest applied through handleCommit has commits of 2f+1 distinct nodes, each of which counted 2f+1 prepares, each from a node holding every earlier block; every block was so applied or fetched |
| `PbftSafety.RoundDiscipline` | consensus_shard/pbft_all/messageHandle.go:44-85 | At most one outstanding proposal, exactly while the lock is held; the sequence number counts completed rounds; no digest is applied twice by any node |
| `PbftSafety.UnlockOnlyWhileHeld` | consensus_shard/pbft_all/messageHandle.go:277-284 | Where the leader unlocks it holds the lock, for its outstanding proposal, and it never asks for old blocks |
| `PbftSafety.RunInv` | consensus_shard/pbft_all/messageHandle.go:90-286 | The protocol invariant over reordered and repeated messages, including requests for old blocks |
| `PbftSafety.AddProposal` | chain/blockchain.go:229-248 | AddBlock accepts a proposal exactly when it is the next one |
| `PbftSafety.ValidProposal` | chain/blockchain.go:300-309 | A proposal passes the parent check exactly at nodes that hold all blocks before it and no more |
| `PbftSafety.CatchUpKeeps` | consensus_shard/pbft_all/messageHandle.go:336-385 | Applying a reply with old requests keeps the chain a prefix |
| `PbftSafety.LeaderPropose` | consensus_shard/pbft_all/messageHandle.go:44-78 | A proposal extends the leader's log by one linked block and is its only outstanding one |
| `PbftSafety.PrePrepareKeeps` | consensus_shard/pbft_all/messageHandle.go:90-149 | A node prepares a proposal only when it holds every earlier block |
| `PbftSafety.DecideKeeps` | consensus_shard/pbft_all/messageHandle.go:243-284 | Deciding on a quorum keeps the chain a prefix of the log, applies no digest twice, and asks for old blocks only when the request is unknown |
| `PbftProgress.QuorumsAreEnough` | consensus_shard/pbft_all/messageHandle.go:192-284 | In every run at every node: a commit is sent exactly on 2f+1 counted prepares, a digest is answered exactly on 2f+1 counted commits or when fetched, and then it was applied, fetched or asked for; the leader has applied exactly what has 2f+1 commits |
| `PbftProgress.OldRequestsReach` | consensus_shard/pbft_all/messageHandle.go:305-317 | A reply reaches to the end of what was asked or to the first height not recorded |
| `PbftProgress.LeaderRepliesInFull` | consensus_shard/pbft_all/messageHandle.go:292-333 | In every run the leader's reply holds every proposal asked for that there is |
| `PbftStages.StagedIsRun` | consensus_shard/pbft_all/messageHandle.go:105-227 | A run in which every handler also respects the waits on pbftStage is a run in the sense of all the theorems |
| `PbftRounds.RoundCompletes` | consensus_shard/pbft_all/messageHandle.go:20-286 | From every level state, any 2f+1 nodes with the leader can complete a round by themselves, within the stage waits: all apply the proposal and are level again |
| `PbftRounds.EveryLogIsReachable` | consensus_shard/pbft_all/messageHandle.go:20-286 | Every list of payloads can become the log that any 2f+1 nodes with the leader hold |
| `PbftLimits.ReplicaAheadOfLeader` | consensus_shard/pbft_all/messageHandle.go:243-275 | A run within the stage waits in which a replica applies a block before the leader: its chain is not a prefix of the leader's |
| `PbftLimits.PrefixOfLeaderIff` | consensus_shard/pbft_all/messageHandle.go:243-284 | A chain is a prefix of the leader's if and only if no proposal is outstanding or the node does not yet hold its block |
| `PbftLimits.SequenceAheadOfChain` | consensus_shard/pbft_all/messageHandle.go:227-275 | A run within the stage waits in which a replica at the commit stage of the first request decides the second: its block is dropped and the sequence number moves on without the chain |
| `PbftLimits.DecisionInStepIff` | consensus_shard/pbft_all/messageHandle.go:269-275 | Deciding a known request keeps sequence number and chain in step if and only if its block is the next one |
| `PbftLimits.CatchUpInStepIff` | consensus_shard/pbft_all/messageHandle.go:336-385 | A reply with old requests leaves a node in step if and only if it is complete and reaches from at or below its next block to there or beyond, or ends just where the node's chain does |
| `PbftLimits.AskingInStepAddsNothing` | consensus_shard/pbft_all/messageHandle.go:250-261 | In every run, a reply that starts where a node in step asks adds nothing to its chain, and moves its sequence number past the reply |
| `PbftLimits.CatchUpSkipsTheBlock` | consensus_shard/pbft_all/messageHandle.go:227-385 | A run within the stage waits in which a node asks for old blocks, gets all it asked for and moves its sequence number past a block it never fetched |
| `Quorums.QuorumsShareIff` | consensus_shard/pbft_all/pbft.go:121 | With f = (N-1)/3, any two quorums of 2f+1 share f+1 nodes if and only if N = 3f+1 |
| `Quorums.DecisionsShareVoters` | consensus_shard/pbft_all/messageHandle.go:243-284 | In every run of a shard of 3f+1 nodes the commit votes behind any two applied requests, at whichever nodes, have f+1 voters in common |
| `Quorums.QuorumsOverlap` | consensus_shard/pbft_all/pbft.go:121 | Any two quorums share at least 4f+2-N nodes |
| `PbftNodes.Set2DMap` | consensus_shard/pbft_all/toolFuncs.go:22-44 | A vote is added once per node, so the length of the list is the number of distinct voters |
| `PbftNodes.CountDistinct` | consensus_shard/pbft_all/toolFuncs.go:29-33 | Without repetitions the length of a vote list is the number of voters |
| `PbftNodes.PbftNode.OnPrepare` | consensus_shard/pbft_all/messageHandle.go:154-211 | Counts distinct prepares and commits once at 2f+1 |
| `PbftNodes.PbftNode.OnCommit` | consensus_shard/pbft_all/messageHandle.go:216-286 | Counts distinct commits and decides once at 2f+1 |
| `PbftNodes.PbftNode.OnRequestOld` | consensus_shard/pbft_all/messageHandle.go:292-333 | Replies with the recorded requests up to the first gap |
| `PbftNodes.PbftNode.OnSendOld` | consensus_shard/pbft_all/messageHandle.go:336-385 | Adds the blocks only of a complete reply, records the requests, jumps the sequence number |
| `Compact.CompactRefinesFull` | consensus_shard/pbft_all/overhead.go:84-198 | In every interleaving no handler panics, every PrePrepare handed on is one a leader proposed, and a complete recovery rebuilds exactly that proposal with its digest |
| `Compact.NoRecoveryStarves` | consensus_shard/pbft_all/overhead.go:154-186 | Once what a recovery asked for has arrived it can always take its next body or finish |
| `Compact.RecoveryCompletes` | consensus_shard/pbft_all/overhead.go:122-143 | Asking for what is lacking and caching the answer leaves nothing lacking |
| `Compact.LookupIs` | consensus_shard/pbft_all/overhead.go:129-137 | A request is answered exactly by a holder of all keys, with exactly their bodies |
| `Compact.LackingIs` | consensus_shard/pbft_all/overhead.go:159-166 | What is asked for is what the proposal needs and the cache lacks |
| `Compact.RebuildIsOriginal` | consensus_shard/pbft_all/overhead.go:188-196 | A proposal rebuilt from all its bodies is the one that was digested |
| `Compact.StepKeeps` | consensus_shard/pbft_all/overhead.go:62-198 | Every step keeps the content-addressed cache and the proposals recoverable |
| `Compact.OverheadNode.Store` | consensus_shard/pbft_all/overhead.go:62-68 | Files each body under its own hash |
| `Compact.OverheadNode.StreamTransactions` | consensus_shard/pbft_all/overhead.go:70-82 | Caches and streams the encodings |
| `Compact.OverheadNode.Encode` | consensus_shard/pbft_all/overhead.go:84-111 | Caches the bodies before the keys leave; other requests are sent in full |
| `Compact.OverheadNode.Answer` | consensus_shard/pbft_all/overhead.go:122-143 | Returns the bodies, or none where the code panics |
| `Compact.OverheadNode.FindMissing` | consensus_shard/pbft_all/overhead.go:159-166 | Lists the keys not cached |
| `CompactDelivery.EveryProposalDeliverable` | consensus_shard/pbft_all/overhead.go:84-198 | The other direction: from every state of every run, whatever a leader has proposed can still be handed on by every node |
| `CompactDelivery.CompactDeliverable` | consensus_shard/pbft_all/overhead.go:119-198 | A node that gets a compact proposal can ask for what it lacks, get it, rebuild and hand on the original |
| `CompactDelivery.FinishDelivers` | consensus_shard/pbft_all/overhead.go:188-198 | A finished recovery hands on the proposal it was started for |
| `CompactDelivery.BlocksTravelCompact` | consensus_shard/pbft_all/overhead.go:84-111 | No message of any run carries a block in full |
| `Chain.SkippingIsSound` | chain/blockchain.go:229-248 | In every run of several nodes that mine, receive any mined block in any order and execute partition requests, every node's state is readable and is what its chain of bodies and transfers gives, whether it executed or found the root present, and so is its account map |
| `Chain.MinedIsHonestEverywhere` | chain/blockchain.go:166-191 | A block any node mined carries the right root wherever it fits, because its producer had the same head, state and map |
| `Chain.MigrateSound` | chain/blockchain.go:312-365 | Executing an agreed partition request keeps a node sound under the map it changes to |
| `Chain.AcceptSoundIff` | chain/blockchain.go:229-248 | An accepted block leaves the executed state if and only if its header root is that of executing its body |
| `Chain.StaleRootRollsBack` | chain/blockchain.go:240-246 | A block naming an older root still in the store is accepted and takes the node back to it |
| `Chain.SameHeadSameState` | chain/blockchain.go:229-248 | Two nodes whose heads agree in everything but the root hold the same state and map |
| `Chain.ProducedIsHonest` | chain/blockchain.go:166-191 | A mined block carries the root of executing its body on its producer's state |
| `Chain.BlockChain.GetUpdateStatusTrie` | chain/blockchain.go:80-163 | Executes on the current state and commits the result to the store; every balance changes by the effects of the transactions that go through |
| `Chain.BlockChain.GenerateBlock` | chain/blockchain.go:166-191 | Produces an honest block and changes only the store |
| `Chain.BlockChain.AddBlock` | chain/blockchain.go:229-248 | The state stays readable if and only if the block was refused, its root was stored or it is honest |
| `Chain.BlockChain.TransferAccounts` | consensus_shard/pbft_all/accountTransfer_module.go:178-191 | Map and states entry by entry, in any order, give the transfer of the model |
| `BloomFilter.ExactIff` | consensus_shard/exclique/cbf.go:27-50 | With removals of present items only, the counters are right throughout exactly when the true load never passes 255 |
| `BloomFilter.NoFalseNegatives` | consensus_shard/exclique/cbf.go:53-79 | Every counter of a present item is at least its multiplicity, cut off at 255, for add-only and for fitting histories |
| `BloomFilter.AddOnlyCounter` | consensus_shard/exclique/cbf.go:27-37 | Without removals each counter is the load cut off at 255 |
| `BloomFilter.LoadCoversItem` | consensus_shard/exclique/cbf.go:27-50 | The load of a position covers every copy of every item hashed there |
| `BloomFilter.SaturationLosesAnItem` | consensus_shard/exclique/cbf.go:33-35 | Beyond 255 the law fails: 256 additions and 255 removals leave a present item with counter 0 |
| `BloomFilter.CountingBloomFilter.AddItem` | consensus_shard/exclique/cbf.go:27-37 | Counters follow the history, positions hit twice included |
| `BloomFilter.CountingBloomFilter.RemoveItem` | consensus_shard/exclique/cbf.go:40-50 | Counters follow the history |
| `BloomFilter.CountingBloomFilter.Contains` | consensus_shard/exclique/cbf.go:53-64 | True exactly when no counter of the item is 0; always for present items of reliable histories |
| `BloomFilter.CountingBloomFilter.GetCount` | consensus_shard/exclique/cbf.go:67-79 | The least counter of the item, at least its multiplicity for reliable histories |
| `BloomFilter.CountingBloomFilter.Clear` | consensus_shard/exclique/cbf.go:90-97 | Forgets the history |
| `BloomFilter.NothingMissedIff` | consensus_shard/exclique/cbf.go:27-64 | Every present item is reported after every operation if and only if no position's true load ever falls by 255 or more from its peak without reaching zero |
| `BloomFilter.AliveIff` | consensus_shard/exclique/cbf.go:27-50 | The same for one position, where a counter that never wrongly read 0 is short by exactly what the peak load had above 255 |
| `Gini.CalculateGiniCoefficient` | consensus_shard/exclique/order.go:127-156 | The value is the mean difference over n times the sum, within [0, (n-1)/n], 0 exactly for equal counts and (n-1)/n exactly when at most one count is positive |
| `Gini.WeightedIsDifference` | consensus_shard/exclique/order.go:143-153 | On sorted counts twice the weighted sum is n+1 times the sum plus the total difference |
| `Gini.DifferenceBound` | consensus_shard/exclique/order.go:152-153 | Both bounds of the total difference with their exact conditions |
| `Gini.Sort` | consensus_shard/exclique/order.go:137 | Sorting keeps the counts, their sum and their total difference |

## Left out

- Networking, JSON and gob encoding, rate limits, retries, timeouts and clocks: messages are channel contents or sets, codecs inverse pairs.
- View change: the model has a fixed leader; new-view messages carry no certificates.
- Byzantine nodes, signatures, equivocation: all nodes run the code.
- pbftStage and the condition variables in `Pbft`: the for-all theorems let handlers run at any time and so cover the runs within the waits (`PbftStages.StagedIsRun`); the runs of `PbftLimits` and `PbftRounds` are within the waits.
- Fairness: `Completion`, `CompactDelivery` and `PbftRounds` show that the end can be reached from every state they speak of, not that every schedule reaches it.
- Brokers, the Contrib variants and relays with Merkle proofs: the CLPA and Overhead path is modelled.
- The trie, LevelDB, BoltDB and Bloom bits of headers: the state is a map, its root an injective hash; the transaction root check of IsValidBlock holds by construction.
- Account nonces and the Time and Nonce fields of headers.
- CLPA's score formula and the divisions in it: any function of the state it reads.
- The order in which phase 1 of P-Louvain takes communities and phases 0 and 2 take vertices: any order, which includes the sorted ones.
- Measurement, statistics, CSV output, configuration.
- ExClique block reconstruction and validator ordering.
- PbftSafety.ChainsArePrefixes: block requests only, the path on which AddBlock's height and parent checks protect the chain; a partition request has no such check, and Replication takes its order from the log.
- Clpa.ClpaState.ClpaPartition: addresses and vertices are the same thing, so the returned map is keyed by vertex.
