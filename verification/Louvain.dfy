/** Local moves on the weighted transaction graph: the Louvain and boundary
    phases never raise the weight of cross-shard edges
    (supervisor/committee/committee_plouvain.go). */
module Louvain {
  import opened Sweeps

  type Addr = nat
  type Placement = map<Addr, nat>
  type Graph = map<Addr, map<Addr, real>>

  datatype Edge = Edge(s: Addr, r: Addr, value: real)

  function If(b: bool, w: real): real { if b then w else 0.0 }

  function At(part: Placement, x: Addr): nat { if x in part then part[x] else 0 }

  // ------------------------------------------------ reference quantities over the transactions

  /** Weight of the transactions whose ends lie in different shards. */
  function Cut(edges: seq<Edge>, part: Placement): real {
    if edges == [] then 0.0
    else var e := edges[|edges| - 1]; Cut(edges[..|edges| - 1], part) + If(At(part, e.s) != At(part, e.r), e.value)
  }

  /** Weight between v and u, a transaction from an address to itself counting twice. */
  function Between(edges: seq<Edge>, v: Addr, u: Addr): real {
    if edges == [] then 0.0
    else
      var e := edges[|edges| - 1];
      Between(edges[..|edges| - 1], v, u) + If(e.s == v && e.r == u, e.value) + If(e.r == v && e.s == u, e.value)
  }

  /** Weight between v and the addresses of done that lie in shard k. */
  function Pull(edges: seq<Edge>, part: Placement, v: Addr, done: set<Addr>, k: nat): real {
    if edges == [] then 0.0
    else
      var e := edges[|edges| - 1];
      Pull(edges[..|edges| - 1], part, v, done, k)
      + If(e.s == v && e.r in done && At(part, e.r) == k, e.value)
      + If(e.r == v && e.s in done && At(part, e.s) == k, e.value)
  }

  ghost predicate NonNegative(edges: seq<Edge>) { forall i | 0 <= i < |edges| :: edges[i].value >= 0.0 }

  ghost predicate Within(edges: seq<Edge>, vs: set<Addr>) {
    forall i | 0 <= i < |edges| :: edges[i].s in vs && edges[i].r in vs
  }

  function Weight(graph: Graph, v: Addr, u: Addr): real {
    if v in graph && u in graph[v] then graph[v][u] else 0.0
  }

  ghost predicate Arc(graph: Graph, v: Addr, u: Addr) { v in graph && u in graph[v] }

  /** The nested maps hold the symmetric weights and list every neighbour. */
  ghost predicate Represents(graph: Graph, edges: seq<Edge>) {
    Weights(graph, edges) && Listed(graph, edges) && Closed(graph)
  }

  ghost predicate Weights(graph: Graph, edges: seq<Edge>) {
    forall v: Addr, u: Addr :: Weight(graph, v, u) == Between(edges, v, u)
  }

  ghost predicate Listed(graph: Graph, edges: seq<Edge>) {
    forall i | 0 <= i < |edges| :: Arc(graph, edges[i].s, edges[i].r) && Arc(graph, edges[i].r, edges[i].s)
  }

  ghost predicate Closed(graph: Graph) {
    forall v: Addr, u: Addr | Arc(graph, v, u) :: u in graph
  }

  // ------------------------------------------------ one move

  /** Exactly what a move does to the cut. */
  lemma {:induction false} CutOfMove(edges: seq<Edge>, part: Placement, v: Addr, to: nat, vs: set<Addr>)
    requires Within(edges, vs) && At(part, v) != to
    ensures Cut(edges, part[v := to])
         == Cut(edges, part) + Pull(edges, part, v, vs, At(part, v)) - Pull(edges, part, v, vs, to)
             - Between(edges, v, v)
  {
    if edges != [] {
      assert Within(edges[..|edges| - 1], vs);
      assert edges[|edges| - 1].s in vs && edges[|edges| - 1].r in vs;
      CutOfMove(edges[..|edges| - 1], part, v, to, vs);
    }
  }

  lemma {:induction false} WeightsNonNegative(edges: seq<Edge>, part: Placement, v: Addr, vs: set<Addr>, k: nat)
    requires NonNegative(edges)
    ensures Pull(edges, part, v, vs, k) >= 0.0 && Between(edges, v, v) >= 0.0
  {
    if edges != [] {
      assert NonNegative(edges[..|edges| - 1]);
      assert edges[|edges| - 1].value >= 0.0;
      WeightsNonNegative(edges[..|edges| - 1], part, v, vs, k);
    }
  }

  /** An accepted move goes elsewhere and strictly lowers the cut. */
  lemma MoveLowersCut(edges: seq<Edge>, part: Placement, v: Addr, to: nat, vs: set<Addr>, factor: real)
    requires Within(edges, vs) && NonNegative(edges) && factor >= 1.0
    requires Pull(edges, part, v, vs, to) > Pull(edges, part, v, vs, At(part, v)) * factor
    ensures to != At(part, v) && Cut(edges, part[v := to]) < Cut(edges, part)
  {
    var here := Pull(edges, part, v, vs, At(part, v));
    WeightsNonNegative(edges, part, v, vs, At(part, v));
    assert here * factor >= here by { assert here * (factor - 1.0) >= 0.0; }
    CutOfMove(edges, part, v, to, vs);
  }

  // ------------------------------------------------ scanning the neighbours

  lemma {:induction false} PullNone(edges: seq<Edge>, part: Placement, v: Addr, k: nat)
    ensures Pull(edges, part, v, {}, k) == 0.0
  {
    if edges != [] { PullNone(edges[..|edges| - 1], part, v, k); }
  }

  lemma {:induction false} PullOne(edges: seq<Edge>, part: Placement, v: Addr, done: set<Addr>, u: Addr, k: nat)
    requires u !in done
    ensures Pull(edges, part, v, done + {u}, k)
            == Pull(edges, part, v, done, k) + If(At(part, u) == k, Between(edges, v, u))
  {
    if edges != [] { PullOne(edges[..|edges| - 1], part, v, done, u, k); }
  }

  /** Only neighbours pull. */
  lemma {:induction false} PullAll(edges: seq<Edge>, part: Placement, v: Addr, done: set<Addr>, vs: set<Addr>, k: nat)
    requires forall i | 0 <= i < |edges| :: edges[i].s in vs && edges[i].r in vs
               && (edges[i].s == v ==> edges[i].r in done) && (edges[i].r == v ==> edges[i].s in done)
    ensures Pull(edges, part, v, done, k) == Pull(edges, part, v, vs, k)
  {
    if edges != [] {
      var e := edges[|edges| - 1];
      assert edges[|edges| - 1].s in vs && (e.s == v ==> e.r in done) && (e.r == v ==> e.s in done) && e.r in vs;
      PullAll(edges[..|edges| - 1], part, v, done, vs, k);
    }
  }

  ghost predicate Weighed(weights: seq<real>, edges: seq<Edge>, part: Placement, v: Addr, done: set<Addr>) {
    forall k | 0 <= k < |weights| :: weights[k] == Pull(edges, part, v, done, k)
  }

  lemma WeighedOne(weights: seq<real>, weights': seq<real>, edges: seq<Edge>, part: Placement, v: Addr,
                   done: set<Addr>, u: Addr)
    requires Weighed(weights, edges, part, v, done) && u !in done && At(part, u) < |weights|
    requires weights' == weights[At(part, u) := weights[At(part, u)] + Between(edges, v, u)]
    ensures Weighed(weights', edges, part, v, done + {u})
  {
    forall k: nat | k < |weights| ensures weights'[k] == Pull(edges, part, v, done + {u}, k) {
      PullOne(edges, part, v, done, u, k);
    }
  }

  /** The connection weights of one node, neighbours read in any order. */
  method ShardWeights(graph: Graph, part: Placement, v: Addr, m: nat, ghost edges: seq<Edge>)
    returns (weights: seq<real>)
    requires v in graph && Represents(graph, edges) && forall u | u in graph :: At(part, u) < m
    ensures |weights| == m && Weighed(weights, edges, part, v, graph.Keys)
  {
    weights := seq(m, _ => 0.0);
    var todo := graph[v].Keys;
    ghost var done: set<Addr> := {};
    forall k: nat | k < m ensures weights[k] == Pull(edges, part, v, {}, k) { PullNone(edges, part, v, k); }
    while todo != {}
      invariant todo <= graph[v].Keys && done == graph[v].Keys - todo
      invariant |weights| == m && Weighed(weights, edges, part, v, done)
      decreases |todo|
    {
      var u :| u in todo;
      assert Arc(graph, v, u) && Weight(graph, v, u) == Between(edges, v, u);
      assert Between(edges, v, u) == graph[v][u];
      var next := weights[At(part, u) := weights[At(part, u)] + graph[v][u]];
      WeighedOne(weights, next, edges, part, v, done, u);
      weights, todo, done := next, todo - {u}, done + {u};
    }
    assert done == graph[v].Keys;
    forall k: nat | k < m ensures weights[k] == Pull(edges, part, v, graph.Keys, k) {
      PullAll(edges, part, v, done, graph.Keys, k);
    }
  }

  /** The first shard of greatest weight. */
  method Heaviest(weights: seq<real>) returns (maxShard: nat)
    requires |weights| > 0
    ensures maxShard < |weights| && forall k | 0 <= k < |weights| :: weights[k] <= weights[maxShard]
    ensures forall k | 0 <= k < maxShard :: weights[k] < weights[maxShard]
  {
    maxShard := 0;
    var maxWeight := weights[0];
    for sid := 1 to |weights|
      invariant maxShard < sid && maxWeight == weights[maxShard]
      invariant forall k | 0 <= k < sid :: weights[k] <= weights[maxShard]
      invariant forall k | 0 <= k < maxShard :: weights[k] < weights[maxShard]
    {
      if weights[sid] > maxWeight {
        maxShard, maxWeight := sid, weights[sid];
      }
    }
  }

  // ------------------------------------------------ the phases

  function Times(x: real, factor: real): real { x * factor }

  ghost predicate NoneAbove(edges: seq<Edge>, part: Placement, vs: set<Addr>, m: nat, v: Addr, limit: real) {
    forall k: nat | k < m :: Pull(edges, part, v, vs, k) <= limit
  }

  /** No shard pulls v more than factor times as hard as its own. */
  ghost predicate Settled(edges: seq<Edge>, part: Placement, vs: set<Addr>, m: nat, factor: real, v: Addr) {
    NoneAbove(edges, part, vs, m, v, Times(Pull(edges, part, v, vs, At(part, v)), factor))
  }

  lemma SettledIff(weights: seq<real>, top: nat, edges: seq<Edge>, part: Placement, vs: set<Addr>, factor: real,
                   v: Addr)
    requires Weighed(weights, edges, part, v, vs) && top < |weights| && At(part, v) < |weights|
    requires forall k | 0 <= k < |weights| :: weights[k] <= weights[top]
    ensures Settled(edges, part, vs, |weights|, factor, v) <==> weights[top] <= Times(weights[At(part, v)], factor)
  {
    assert Pull(edges, part, v, vs, At(part, v)) == weights[At(part, v)];
    NoneAboveIff(weights, top, edges, part, vs, v, Times(weights[At(part, v)], factor));
  }

  lemma NoneAboveIff(weights: seq<real>, top: nat, edges: seq<Edge>, part: Placement, vs: set<Addr>, v: Addr,
                     limit: real)
    requires Weighed(weights, edges, part, v, vs) && top < |weights|
    requires forall k | 0 <= k < |weights| :: weights[k] <= weights[top]
    ensures NoneAbove(edges, part, vs, |weights|, v, limit) <==> weights[top] <= limit
  {
    assert Pull(edges, part, v, vs, top) == weights[top];
  }

  ghost predicate Total(graph: Graph, part: Placement, m: nat) {
    graph.Keys <= part.Keys && forall x | x in part :: part[x] < m
  }

  /** Shard k is the first of those that pull v hardest. */
  ghost predicate PullsMost(edges: seq<Edge>, part: Placement, vs: set<Addr>, m: nat, v: Addr, k: nat) {
    && k < m && NoneAbove(edges, part, vs, m, v, Pull(edges, part, v, vs, k))
    && forall j: nat | j < k :: Pull(edges, part, v, vs, j) < Pull(edges, part, v, vs, k)
  }

  lemma PullsMostIs(weights: seq<real>, top: nat, edges: seq<Edge>, part: Placement, vs: set<Addr>, v: Addr)
    requires Weighed(weights, edges, part, v, vs) && top < |weights|
    requires forall k | 0 <= k < |weights| :: weights[k] <= weights[top]
    requires forall k | 0 <= k < top :: weights[k] < weights[top]
    ensures PullsMost(edges, part, vs, |weights|, v, top)
  {
    NoneAboveIff(weights, top, edges, part, vs, v, weights[top]);
    forall j: nat | j < top ensures Pull(edges, part, v, vs, j) < Pull(edges, part, v, vs, top) {
      assert weights[j] == Pull(edges, part, v, vs, j);
    }
  }

  /** One node: it moves exactly when it is not settled, to the first shard that pulls it
      hardest, and then the cut drops. */
  method Visit(graph: Graph, part: Placement, v: Addr, m: nat, factor: real, ghost edges: seq<Edge>)
    returns (part': Placement, moved: bool)
    requires m > 0 && factor >= 1.0 && v in graph && Represents(graph, edges) && NonNegative(edges)
             && Total(graph, part, m)
    ensures Total(graph, part', m) && part'.Keys == part.Keys
    ensures moved <==> !Settled(edges, part, graph.Keys, m, factor, v)
    ensures !moved ==> part' == part
    ensures moved ==> Cut(edges, part') < Cut(edges, part) && part' == part[v := part'[v]]
    ensures moved ==> PullsMost(edges, part, graph.Keys, m, v, part'[v])
  {
    var weights := ShardWeights(graph, part, v, m, edges);
    var maxShard := Heaviest(weights);
    var currentShard := part[v];
    part', moved := part, weights[maxShard] > Times(weights[currentShard], factor);
    SettledIff(weights, maxShard, edges, part, graph.Keys, factor, v);
    if moved {
      assert Within(edges, graph.Keys);
      MoveLowersCut(edges, part, v, maxShard, graph.Keys, factor);
      PullsMostIs(weights, maxShard, edges, part, graph.Keys, v);
      part' := part[v := maxShard];
    }
  }

  /** What the visit of v does to a placement. */
  ghost predicate Visited(edges: seq<Edge>, vs: set<Addr>, m: nat, factor: real, part: Placement, part': Placement,
                          v: Addr) {
    if Settled(edges, part, vs, m, factor, v) then part' == part
    else part' == part[v := At(part', v)] && PullsMost(edges, part, vs, m, v, At(part', v))
  }

  ghost function Rule(edges: seq<Edge>, vs: set<Addr>, m: nat, factor: real): (Placement, Placement, Addr) -> bool {
    (part: Placement, part': Placement, v: Addr) => Visited(edges, vs, m, factor, part, part', v)
  }

  /** A visit as a step of a pass. */
  method VisitOne(graph: Graph, part: Placement, v: Addr, m: nat, factor: real, ghost edges: seq<Edge>)
    returns (part': Placement, moved: bool)
    requires m > 0 && factor >= 1.0 && v in graph && Represents(graph, edges) && NonNegative(edges)
             && Total(graph, part, m)
    ensures Total(graph, part', m) && part'.Keys == part.Keys && Rule(edges, graph.Keys, m, factor)(part, part', v)
    ensures !moved ==> part' == part && Settled(edges, part, graph.Keys, m, factor, v)
    ensures moved ==> Cut(edges, part') < Cut(edges, part)
  {
    part', moved := Visit(graph, part, v, m, factor, edges);
  }

  /** One pass over the nodes in any order. */
  method Pass(graph: Graph, part: Placement, m: nat, factor: real, ghost edges: seq<Edge>)
    returns (part': Placement, moved: nat, ghost sweep: Sweep<Addr, Placement>)
    requires m > 0 && factor >= 1.0 && Represents(graph, edges) && NonNegative(edges) && Total(graph, part, m)
    ensures Total(graph, part', m) && part'.Keys == part.Keys
    ensures Swept(graph.Keys, Rule(edges, graph.Keys, m, factor), sweep, part, part')
    ensures moved == 0 ==> part' == part && forall v | v in graph :: Settled(edges, part, graph.Keys, m, factor, v)
    ensures moved > 0 ==> Cut(edges, part') < Cut(edges, part)
  {
    part', moved, sweep := part, 0, Sweep([], [part]);
    var todo := graph.Keys;
    ghost var rule := Rule(edges, graph.Keys, m, factor);
    while todo != {}
      invariant Total(graph, part', m) && part'.Keys == part.Keys
      invariant Partly(graph.Keys, rule, sweep, todo, part, part')
      invariant moved == 0 ==> part' == part && forall v | v in graph && v !in todo ::
                Settled(edges, part, graph.Keys, m, factor, v)
      invariant moved > 0 ==> Cut(edges, part') < Cut(edges, part)
      decreases todo
    {
      var v :| v in todo;
      var after, did := VisitOne(graph, part', v, m, factor, edges);
      PartlyAdd(graph.Keys, rule, sweep, todo, part, part', v, after);
      sweep := Sweep(sweep.visits + [v], sweep.states + [after]);
      part' := after;
      if did { moved := moved + 1; }
      todo := todo - {v};
    }
    PartlyAll(graph.Keys, rule, sweep, part, part');
  }

  /** The passes of a phase that took iterations of at most cap: one more when the last
      moved nothing and stopped it. */
  ghost predicate Passes(edges: seq<Edge>, vs: set<Addr>, m: nat, factor: real, iterations: nat, cap: nat,
                         sweeps: seq<Sweep<Addr, Placement>>, part: Placement, part': Placement) {
    && iterations <= cap && |sweeps| == iterations + (if iterations < cap then 1 else 0)
    && Chained(vs, Rule(edges, vs, m, factor), sweeps, part, part')
  }

  /** A phase: passes until nothing moves or the cap is met. Any net change of the
      partition lowers the cut, and stopping early means every node is settled. */
  method Optimize(graph: Graph, part: Placement, m: nat, factor: real, maxIterations: nat, ghost edges: seq<Edge>)
    returns (part': Placement, iterations: nat, ghost sweeps: seq<Sweep<Addr, Placement>>)
    requires m > 0 && factor >= 1.0 && Represents(graph, edges) && NonNegative(edges) && Total(graph, part, m)
    ensures Total(graph, part', m) && part'.Keys == part.Keys
    ensures Passes(edges, graph.Keys, m, factor, iterations, maxIterations, sweeps, part, part')
    ensures part' != part || iterations > 0 ==> Cut(edges, part') < Cut(edges, part)
    ensures iterations < maxIterations ==> forall v | v in graph :: Settled(edges, part', graph.Keys, m, factor, v)
  {
    part', iterations, sweeps := part, 0, [];
    ghost var rule := Rule(edges, graph.Keys, m, factor);
    while iterations < maxIterations
      invariant iterations <= maxIterations && Total(graph, part', m) && part'.Keys == part.Keys
      invariant |sweeps| == iterations && Chained(graph.Keys, rule, sweeps, part, part')
      invariant part' != part || iterations > 0 ==> Cut(edges, part') < Cut(edges, part)
    {
      var moved;
      ghost var before, sweep := part', Sweep([], []);
      part', moved, sweep := Pass(graph, part', m, factor, edges);
      ChainedAdd(graph.Keys, rule, sweeps, part, before, sweep, part');
      sweeps := sweeps + [sweep];
      if moved == 0 { return; }
      iterations := iterations + 1;
    }
  }

  method LouvainOptimization(graph: Graph, part: Placement, m: nat, ghost edges: seq<Edge>)
    returns (part': Placement, iterations: nat, ghost sweeps: seq<Sweep<Addr, Placement>>)
    requires m > 0 && Represents(graph, edges) && NonNegative(edges) && Total(graph, part, m)
    ensures Total(graph, part', m) && part'.Keys == part.Keys
    ensures Passes(edges, graph.Keys, m, 1.2, iterations, 5, sweeps, part, part')
    ensures part' != part || iterations > 0 ==> Cut(edges, part') < Cut(edges, part)
    ensures iterations < 5 ==> forall v | v in graph :: Settled(edges, part', graph.Keys, m, 1.2, v)
  {
    part', iterations, sweeps := Optimize(graph, part, m, 1.2, 5, edges);
  }

  method OptimizeBoundaryNodes(graph: Graph, part: Placement, m: nat, ghost edges: seq<Edge>)
    returns (part': Placement, iterations: nat, ghost sweeps: seq<Sweep<Addr, Placement>>)
    requires m > 0 && Represents(graph, edges) && NonNegative(edges) && Total(graph, part, m)
    ensures Total(graph, part', m) && part'.Keys == part.Keys
    ensures Passes(edges, graph.Keys, m, 1.5, iterations, 3, sweeps, part, part')
    ensures part' != part || iterations > 0 ==> Cut(edges, part') < Cut(edges, part)
    ensures iterations < 3 ==> forall v | v in graph :: Settled(edges, part', graph.Keys, m, 1.5, v)
  {
    part', iterations, sweeps := Optimize(graph, part, m, 1.5, 3, edges);
  }

  // ------------------------------------------------ building the graph

  method AddArc(graph: Graph, v: Addr, u: Addr, w: real) returns (graph': Graph)
    ensures graph'.Keys == graph.Keys + {v}
    ensures forall x: Addr, y: Addr :: Weight(graph', x, y) == Weight(graph, x, y) + If(x == v && y == u, w)
    ensures forall x: Addr, y: Addr :: Arc(graph', x, y) <==> Arc(graph, x, y) || (x == v && y == u)
  {
    var row := if v in graph then graph[v] else map[];
    row := row[u := (if u in row then row[u] else 0.0) + w];
    graph' := graph[v := row];
  }

  lemma WeightsNext(graph: Graph, graph': Graph, edges: seq<Edge>, e: Edge)
    requires Weights(graph, edges)
    requires forall x: Addr, y: Addr ::
               Weight(graph', x, y) == Weight(graph, x, y) + If(x == e.s && y == e.r, e.value)
                   + If(x == e.r && y == e.s, e.value)
    ensures Weights(graph', edges + [e])
  {
    assert (edges + [e])[..|edges|] == edges;
  }

  lemma ListedNext(graph: Graph, graph': Graph, edges: seq<Edge>, e: Edge)
    requires Listed(graph, edges)
    requires forall x: Addr, y: Addr | Arc(graph, x, y) || (x == e.s && y == e.r) || (x == e.r && y == e.s) ::
             Arc(graph', x, y)
    ensures Listed(graph', edges + [e])
  {
  }

  /** Both directions of one transaction. */
  method AddTransaction(graph: Graph, e: Edge, ghost edges: seq<Edge>) returns (graph': Graph)
    requires Represents(graph, edges)
    ensures Represents(graph', edges + [e]) && graph'.Keys == graph.Keys + {e.s, e.r}
  {
    var one := AddArc(graph, e.s, e.r, e.value);
    graph' := AddArc(one, e.r, e.s, e.value);
    WeightsNext(graph, graph', edges, e);
    ListedNext(graph, graph', edges, e);
  }

  /** The addresses taking part. */
  function Ends(edges: seq<Edge>): set<Addr> {
    if edges == [] then {} else Ends(edges[..|edges| - 1]) + {edges[|edges| - 1].s, edges[|edges| - 1].r}
  }

  /** The graph of all transactions is symmetric and holds their summed values. */
  method BuildGraph(edges: seq<Edge>) returns (graph: Graph)
    ensures Represents(graph, edges) && graph.Keys == Ends(edges)
  {
    graph := map[];
    for i := 0 to |edges|
      invariant Represents(graph, edges[..i]) && graph.Keys == Ends(edges[..i])
    {
      assert edges[..i + 1][..i] == edges[..i];
      graph := AddTransaction(graph, edges[i], edges[..i]);
      assert edges[..i] + [edges[i]] == edges[..i + 1];
    }
    assert edges[..|edges|] == edges;
  }
}
