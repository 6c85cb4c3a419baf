/** The partitioning run of the P-Louvain committee: greedy allocation, the two
    optimisation phases and the final load balancing on the same transactions
    (supervisor/committee/committee_plouvain.go). */
module ImprovedPLouvain {
  import Greedy
  import opened Sweeps
  import opened Louvain
  import FinalBalancing

  /** The transactions without their values. */
  function Transfers(edges: seq<Edge>): seq<Greedy.Transfer> {
    seq(|edges|, i requires 0 <= i < |edges| => (edges[i].s, edges[i].r))
  }

  lemma {:induction false} EndsOccur(edges: seq<Edge>, x: Addr)
    ensures x in Ends(edges) <==> Greedy.Occurs(Transfers(edges), x) > 0
  {
    if edges != [] {
      var init := edges[..|edges| - 1];
      EndsOccur(init, x);
      assert Transfers(edges)[..|edges| - 1] == Transfers(init);
    }
  }

  /** The placements between the phases, the rounds of the optimisation phases and the
      placements of the balancing. */
  datatype Phases = Phases(start: Placement,
                           louvain: Placement, louvainRounds: nat, louvainSweeps: seq<Sweep<Addr, Placement>>,
                           boundary: Placement, boundaryRounds: nat, boundarySweeps: seq<Sweep<Addr, Placement>>,
                           balancing: seq<Placement>)

  /** The optimisation phases: each lowers the cross-shard weight or changes nothing, and
      one that its cap does not stop leaves every address settled. */
  ghost predicate Optimised(txs: seq<Edge>, m: nat, p: Phases) {
    && (p.louvain != p.start ==> Cut(txs, p.louvain) < Cut(txs, p.start))
    && (p.boundary != p.louvain ==> Cut(txs, p.boundary) < Cut(txs, p.louvain))
    && Passes(txs, Ends(txs), m, 1.2, p.louvainRounds, 5, p.louvainSweeps, p.start, p.louvain)
    && Passes(txs, Ends(txs), m, 1.5, p.boundaryRounds, 3, p.boundarySweeps, p.louvain, p.boundary)
    && (p.louvainRounds < 5 ==> forall v | v in Ends(txs) :: Settled(txs, p.louvain, Ends(txs), m, 1.2, v))
    && (p.boundaryRounds < 3 ==> forall v | v in Ends(txs) :: Settled(txs, p.boundary, Ends(txs), m, 1.5, v))
  }

  /** The balancing rounds on the graph of the transactions. */
  ghost predicate Balanced(graph: Graph, txs: seq<Edge>, m: nat, trace: seq<Placement>)
    requires m > 0
  {
    && 1 <= |trace| <= 11 && Represents(graph, txs) && graph.Keys == Ends(txs)
    && FinalBalancing.Rounds(graph, txs, m, trace)
    && (|trace| < 11 ==> FinalBalancing.AtRest(graph, txs, m, trace[|trace| - 1]))
  }

  /** Every address is placed in range; the greedy start is within Graham's factor of
      every other assignment; the optimisation phases only lower the cross-shard weight;
      and the balancing rounds end at rest unless there were ten of them. */
  method PartitionTransactions(txs: seq<Edge>, m: nat) returns (part: Placement, ghost run: Phases)
    requires m > 0 && NonNegative(txs)
    ensures part.Keys == run.boundary.Keys == run.louvain.Keys == run.start.Keys == Ends(txs)
    ensures forall x | x in part :: part[x] < m
    ensures Greedy.WithinFourThirds(Transfers(txs), run.start, m) && Optimised(txs, m, run)
    ensures exists graph: Graph :: Balanced(graph, txs, m, run.balancing)
    ensures run.balancing[0] == run.boundary && run.balancing[|run.balancing| - 1] == part
  {
    var graph := BuildGraph(txs);
    var transfers := Transfers(txs);
    forall x: Addr ensures x in Ends(txs) <==> Greedy.Occurs(transfers, x) > 0 { EndsOccur(txs, x); }
    var start, workload := Greedy.TransactionBasedPartitioning(transfers, m);
    assert start.Keys == Ends(txs);
    var louvain, boundary, rounds1, rounds2;
    ghost var sweeps1, sweeps2, trace;
    louvain, rounds1, sweeps1 := LouvainOptimization(graph, start, m, txs);
    boundary, rounds2, sweeps2 := OptimizeBoundaryNodes(graph, louvain, m, txs);
    part, trace := FinalBalancing.FinalLoadBalancing(boundary, graph, txs, m);
    run := Phases(start, louvain, rounds1, sweeps1, boundary, rounds2, sweeps2, trace);
    assert Balanced(graph, txs, m, run.balancing);
  }
}
