/** The in-process P-Louvain partitioner: communities by label moves, communities to
    shards, account moves (partition/partition_PLouvain.go). Weights are edge
    multiplicities; workloads are in exact arithmetic. */
module PLouvain {
  import opened Collections
  import opened Sweeps
  import opened Graphs

  // ------------------------------------------------ multiplicities

  function Count(list: seq<Vertex>, u: Vertex): nat {
    if list == [] then 0 else Count(list[..|list| - 1], u) + B(list[|list| - 1] == u)
  }

  /** Members of the list that lie in done and in group k. */
  function InOf(list: seq<Vertex>, part: Placement, done: set<Vertex>, k: nat): nat {
    if list == [] then 0
    else
      var u := list[|list| - 1];
      InOf(list[..|list| - 1], part, done, k) + B(u in done && Shard(part, u) == k)
  }

  lemma {:induction false} InOfNone(list: seq<Vertex>, part: Placement, k: nat)
    ensures InOf(list, part, {}, k) == 0
  {
    if list != [] { InOfNone(list[..|list| - 1], part, k); }
  }

  lemma {:induction false} InOfOne(list: seq<Vertex>, part: Placement, done: set<Vertex>, u: Vertex, k: nat)
    requires u !in done
    ensures InOf(list, part, done + {u}, k)
         == InOf(list, part, done, k) + if Shard(part, u) == k then Count(list, u) else 0
  {
    if list != [] { InOfOne(list[..|list| - 1], part, done, u, k); }
  }

  lemma {:induction false} InOfAll(list: seq<Vertex>, part: Placement, done: set<Vertex>, k: nat)
    requires forall u | u in list :: u in done
    ensures InOf(list, part, done, k) == In(list, part, k)
  {
    if list != [] {
      assert list[|list| - 1] in list;
      InOfAll(list[..|list| - 1], part, done, k);
    }
  }

  /** Every member lies in group 0 of the empty placement. */
  lemma {:induction false} InTrivial(list: seq<Vertex>)
    ensures In(list, map[], 0) == |list|
  {
    if list != [] { InTrivial(list[..|list| - 1]); }
  }

  method NeighborWeights(list: seq<Vertex>) returns (weights: map<Vertex, nat>)
    ensures forall u: Vertex :: u in weights <==> u in list
    ensures forall u | u in weights :: weights[u] == Count(list, u)
  {
    weights := map[];
    for i := 0 to |list|
      invariant forall u: Vertex :: if u in weights then weights[u] == Count(list[..i], u) else Count(list[..i], u) == 0
      invariant forall u: Vertex :: u in weights <==> u in list[..i]
    {
      assert list[..i + 1][..i] == list[..i];
      var u := list[i];
      weights := weights[u := (if u in weights then weights[u] else 0) + 1];
    }
    assert list[..|list|] == list;
  }

  function At(weights: map<nat, nat>, k: nat): nat { if k in weights then weights[k] else 0 }

  ghost predicate Tallied(groups: map<nat, nat>, list: seq<Vertex>, part: Placement, done: set<Vertex>) {
    forall k: nat :: At(groups, k) == InOf(list, part, done, k)
  }

  lemma TalliedOne(groups: map<nat, nat>, list: seq<Vertex>, part: Placement, done: set<Vertex>, u: Vertex)
    requires Tallied(groups, list, part, done) && u !in done
    ensures var k := Shard(part, u); Tallied(groups[k := At(groups, k) + Count(list, u)], list, part, done + {u})
  {
    var k := Shard(part, u);
    var groups' := groups[k := At(groups, k) + Count(list, u)];
    forall j: nat ensures At(groups', j) == InOf(list, part, done + {u}, j) { InOfOne(list, part, done, u, j); }
  }

  ghost predicate FromList(groups: map<nat, nat>, list: seq<Vertex>, part: Placement) {
    forall k | k in groups :: exists i :: 0 <= i < |list| && Shard(part, list[i]) == k
  }

  /** The weight towards each group among the neighbours, read in any order. */
  method GroupWeights(list: seq<Vertex>, part: Placement) returns (groups: map<nat, nat>)
    ensures forall k: nat :: At(groups, k) == In(list, part, k)
    ensures FromList(groups, list, part)
  {
    groups := map[];
    var weights := NeighborWeights(list);
    var todo := weights.Keys;
    ghost var done: set<Vertex> := {};
    forall k: nat ensures InOf(list, part, {}, k) == 0 { InOfNone(list, part, k); }
    while todo != {}
      invariant todo <= weights.Keys && done == weights.Keys - todo
      invariant Tallied(groups, list, part, done) && FromList(groups, list, part)
      decreases |todo|
    {
      var u :| u in todo;
      TalliedOne(groups, list, part, done, u);
      var k := Shard(part, u);
      assert exists i :: 0 <= i < |list| && Shard(part, list[i]) == k by {
        var i :| 0 <= i < |list| && list[i] == u;
      }
      groups := groups[k := At(groups, k) + weights[u]];
      todo, done := todo - {u}, done + {u};
    }
    forall k: nat ensures At(groups, k) == In(list, part, k) { InOfAll(list, part, done, k); }
  }

  // ------------------------------------------------ what a move does

  lemma {:induction false} InAfterMove(edges: seq<Edge>, part: Placement, v: Vertex, to: nat)
    requires Shard(part, v) != to
    ensures var list, from := Neighbours(edges, v), Shard(part, v);
            && In(list, part[v := to], from) == In(list, part, from) - 2 * Loops(edges, v)
            && In(list, part[v := to], to) == In(list, part, to) + 2 * Loops(edges, v)
  {
    if edges != [] {
      var from := Shard(part, v);
      InAfterMove(edges[..|edges| - 1], part, v, to);
      NeighboursCount(edges, part, v, from);
      NeighboursCount(edges, part, v, to);
      NeighboursCount(edges, part[v := to], v, from);
      NeighboursCount(edges, part[v := to], v, to);
    }
  }

  /** The exact change of the number of edges between groups. */
  lemma CrossOfMove(edges: seq<Edge>, part: Placement, v: Vertex, to: nat)
    requires Shard(part, v) != to
    ensures var list := Neighbours(edges, v);
            Cross(edges, part[v := to]) + In(list, part, to) + 2 * Loops(edges, v)
            == Cross(edges, part) + In(list, part, Shard(part, v))
  {
    MoveCounts(edges, part, v, to, 0);
    InAfterMove(edges, part, v, to);
  }

  /** Edges inside groups. */
  function Intra(edges: seq<Edge>, part: Placement): int { |edges| - Cross(edges, part) }

  lemma {:induction false} CrossAtMost(edges: seq<Edge>, part: Placement)
    ensures Cross(edges, part) <= |edges|
  {
    if edges != [] { CrossAtMost(edges[..|edges| - 1], part); }
  }

  /** The adjacency lists are those of the edge list, over the vertex set. */
  ghost predicate GraphOk(vs: set<Vertex>, edgeSet: map<Vertex, seq<Vertex>>, edges: seq<Edge>) {
    forall v | v in vs :: Neighbours(edges, v) == if v in edgeSet then edgeSet[v] else []
  }

  // ------------------------------------------------ phase 0

  /** No other community holds more of v's edges than its own. */
  ghost predicate Settled(edges: seq<Edge>, comm: Placement, v: Vertex) {
    forall k: nat :: In(Neighbours(edges, v), comm, k) <= In(Neighbours(edges, v), comm, Shard(comm, v))
  }

  /** No community holds more of the neighbours than k. */
  ghost predicate HoldsMost(list: seq<Vertex>, comm: Placement, k: nat) {
    forall j: nat :: In(list, comm, j) <= In(list, comm, k)
  }

  /** The community of greatest gain, ties in any order; gain is twice the weight difference. */
  method BestCommunity(groups: map<nat, nat>, current: nat) returns (best: nat, bestGain: int)
    ensures bestGain >= 0 && (best == current <==> bestGain == 0)
    ensures best != current ==> best in groups && bestGain == 2 * (groups[best] - At(groups, current))
    ensures forall k: nat :: 2 * (At(groups, k) - At(groups, current)) <= bestGain
  {
    best, bestGain := current, 0;
    var todo := groups.Keys;
    while todo != {}
      invariant todo <= groups.Keys && bestGain >= 0 && (best == current <==> bestGain == 0)
      invariant best != current ==> best in groups && bestGain == 2 * (groups[best] - At(groups, current))
      invariant forall k | k in groups && k !in todo :: 2 * (groups[k] - At(groups, current)) <= bestGain
      decreases |todo|
    {
      var k :| k in todo;
      todo := todo - {k};
      if k == current { continue; }
      var gain := (groups[k] - At(groups, current)) * 2;
      if gain > bestGain {
        best, bestGain := k, gain;
      }
    }
  }

  /** One vertex: it moves exactly when it is not settled, to a community that holds most of
      its edges, and then at least one more edge lies inside a community. */
  method VisitVertex(list: seq<Vertex>, comm: Placement, v: Vertex, ghost edges: seq<Edge>)
    returns (comm': Placement, moved: bool)
    requires v in comm && list == Neighbours(edges, v)
    ensures moved <==> !Settled(edges, comm, v)
    ensures !moved ==> comm' == comm
    ensures moved ==> comm' == comm[v := Shard(comm', v)] && Intra(edges, comm') >= Intra(edges, comm) + 1
    ensures moved ==> HoldsMost(list, comm, Shard(comm', v))
    ensures comm'.Keys == comm.Keys
  {
    var current := comm[v];
    var groups := GroupWeights(list, comm);
    var best, bestGain := BestCommunity(groups, current);
    comm', moved := comm, false;
    if best != current && 10 * bestGain > 1 {
      assert In(list, comm, best) > In(list, comm, current);
      CrossOfMove(edges, comm, v, best);
      comm', moved := comm[v := best], true;
    }
  }

  /** What the visit of v does to the labels. */
  ghost predicate Relabelled(edges: seq<Edge>, comm: Placement, comm': Placement, v: Vertex) {
    if Settled(edges, comm, v) then comm' == comm
    else comm' == comm[v := Shard(comm', v)] && HoldsMost(Neighbours(edges, v), comm, Shard(comm', v))
  }

  ghost function LabelRule(edges: seq<Edge>): (Placement, Placement, Vertex) -> bool {
    (c: Placement, c': Placement, v: Vertex) => Relabelled(edges, c, c', v)
  }

  /** Nothing has changed in the pass so far. */
  ghost predicate Still(p: Sweep<Vertex, Placement>, first: Placement) {
    forall i | 0 <= i < |p.states| :: p.states[i] == first
  }

  lemma RelabelledBy(edges: seq<Edge>, comm: Placement, comm': Placement, v: Vertex, moved: bool)
    requires (moved <==> !Settled(edges, comm, v)) && (!moved ==> comm' == comm)
    requires moved ==> comm' == comm[v := Shard(comm', v)] && HoldsMost(Neighbours(edges, v), comm, Shard(comm', v))
    ensures LabelRule(edges)(comm, comm', v)
  {
  }

  /** A visit that changes nothing finds its vertex settled. */
  lemma UnchangedIsSettled(edges: seq<Edge>, comm: Placement, v: Vertex)
    requires LabelRule(edges)(comm, comm, v)
    ensures Settled(edges, comm, v)
  {
  }

  lemma StillIsSettled(vs: set<Vertex>, edges: seq<Edge>, p: Sweep<Vertex, Placement>, comm: Placement)
    requires Swept(vs, LabelRule(edges), p, comm, comm) && Still(p, comm)
    ensures forall v | v in vs :: Settled(edges, comm, v)
  {
    forall v | v in vs ensures Settled(edges, comm, v) {
      assert v in p.visits;
      var i :| 0 <= i < |p.visits| && p.visits[i] == v;
      assert StepAt(LabelRule(edges), p, i);
      UnchangedIsSettled(edges, comm, v);
    }
  }

  /** The visit of one vertex as a step of a pass. */
  method VisitIn(vs: set<Vertex>, edgeSet: map<Vertex, seq<Vertex>>, comm: Placement, v: Vertex, ghost edges: seq<Edge>,
                 ghost sweep: Sweep<Vertex, Placement>, ghost todo: set<Vertex>, ghost first: Placement)
    returns (comm': Placement, moved: bool, ghost sweep': Sweep<Vertex, Placement>)
    requires GraphOk(vs, edgeSet, edges) && comm.Keys == vs && v in todo
    requires Partly(vs, LabelRule(edges), sweep, todo, first, comm)
    ensures comm'.Keys == vs && Partly(vs, LabelRule(edges), sweep', todo - {v}, first, comm')
    ensures !moved ==> comm' == comm
    ensures !moved && comm == first && Still(sweep, first) ==> Still(sweep', first)
    ensures moved ==> Intra(edges, comm') >= Intra(edges, comm) + 1
  {
    var list := if v in edgeSet then edgeSet[v] else [];
    comm', moved := VisitVertex(list, comm, v, edges);
    RelabelledBy(edges, comm, comm', v, moved);
    PartlyAdd(vs, LabelRule(edges), sweep, todo, first, comm, v, comm');
    sweep' := Sweep(sweep.visits + [v], sweep.states + [comm']);
  }

  method Pass(vs: set<Vertex>, edgeSet: map<Vertex, seq<Vertex>>, comm: Placement, ghost edges: seq<Edge>)
    returns (comm': Placement, improved: bool, ghost sweep: Sweep<Vertex, Placement>)
    requires GraphOk(vs, edgeSet, edges) && comm.Keys == vs
    ensures comm'.Keys == vs && Swept(vs, LabelRule(edges), sweep, comm, comm')
    ensures improved ==> Intra(edges, comm') >= Intra(edges, comm) + 1
    ensures !improved ==> comm' == comm && forall v | v in vs :: Settled(edges, comm, v)
  {
    comm', improved, sweep := comm, false, Sweep([], [comm]);
    var todo := vs;
    while todo != {}
      invariant comm'.Keys == vs && Partly(vs, LabelRule(edges), sweep, todo, comm, comm')
      invariant improved ==> Intra(edges, comm') >= Intra(edges, comm) + 1
      invariant !improved ==> comm' == comm && Still(sweep, comm)
      decreases todo
    {
      var v :| v in todo;
      var moved;
      comm', moved, sweep := VisitIn(vs, edgeSet, comm', v, edges, sweep, todo, comm);
      if moved { improved := true; }
      todo := todo - {v};
    }
    PassEnds(vs, edges, sweep, comm, comm', improved);
  }

  lemma PassEnds(vs: set<Vertex>, edges: seq<Edge>, p: Sweep<Vertex, Placement>, comm: Placement, comm': Placement,
                 improved: bool)
    requires Partly(vs, LabelRule(edges), p, {}, comm, comm') && (!improved ==> comm' == comm && Still(p, comm))
    ensures Swept(vs, LabelRule(edges), p, comm, comm')
    ensures !improved ==> forall v | v in vs :: Settled(edges, comm, v)
  {
    PartlyAll(vs, LabelRule(edges), p, comm, comm');
    if !improved { StillIsSettled(vs, edges, p, comm); }
  }

  /** The rounds of phase 0. Each improving round raises the number of edges inside
      communities, so with a cap above the initial number of edges between them the
      cap is never what stops it. */
  method AggressiveLouvain(vs: set<Vertex>, edgeSet: map<Vertex, seq<Vertex>>, start: Placement, maxIterations: nat,
                           ghost edges: seq<Edge>)
    returns (comm: Placement, iteration: nat, ghost sweeps: seq<Sweep<Vertex, Placement>>)
    requires GraphOk(vs, edgeSet, edges) && start.Keys == vs
    ensures comm.Keys == vs && Intra(edges, comm) >= Intra(edges, start)
    ensures |sweeps| == iteration && Chained(vs, LabelRule(edges), sweeps, start, comm)
    ensures Intra(edges, comm) >= Intra(edges, start) + iteration - 1
    ensures iteration <= maxIterations && iteration <= Cross(edges, start) + 1
    ensures iteration < maxIterations || maxIterations > Cross(edges, start)
            ==> forall v | v in vs :: Settled(edges, comm, v)
  {
    var improved := true;
    comm, iteration, sweeps := start, 0, [];
    while improved && iteration < maxIterations
      invariant comm.Keys == vs && iteration <= maxIterations
      invariant |sweeps| == iteration && Chained(vs, LabelRule(edges), sweeps, start, comm)
      invariant Intra(edges, comm) >= Intra(edges, start) + iteration - (if improved then 0 else 1)
      invariant !improved ==> iteration > 0 && forall v | v in vs :: Settled(edges, comm, v)
      decreases maxIterations - iteration
    {
      iteration := iteration + 1;
      ghost var before, sweep := comm, Sweep([], []);
      comm, improved, sweep := Pass(vs, edgeSet, comm, edges);
      ChainedAdd(vs, LabelRule(edges), sweeps, start, before, sweep, comm);
      sweeps := sweeps + [sweep];
    }
  }

  // ------------------------------------------------ workloads

  /** 1 + degree / 10. */
  function NodeLoad(edges: seq<Edge>, v: Vertex): real { 1.0 + |Neighbours(edges, v)| as real * 0.1 }

  /** The load of the listed vertices in shard s. */
  function Workload(order: seq<Vertex>, edges: seq<Edge>, part: Placement, s: nat): real {
    if order == [] then 0.0
    else
      var v := order[|order| - 1];
      Workload(order[..|order| - 1], edges, part, s) + if v in part && part[v] == s then NodeLoad(edges, v) else 0.0
  }

  lemma {:induction false} WorkloadCovers(order: seq<Vertex>, edges: seq<Edge>, part: Placement, s: nat, v: Vertex)
    ensures Workload(order, edges, part, s) >= 0.0
    ensures v in order && v in part && part[v] == s ==> Workload(order, edges, part, s) >= NodeLoad(edges, v)
  {
    if order != [] { WorkloadCovers(order[..|order| - 1], edges, part, s, v); }
  }

  lemma {:induction false} WorkloadFrame(order: seq<Vertex>, edges: seq<Edge>, part: Placement, part': Placement,
                                         s: nat)
    requires forall v | v in order :: v in part <==> v in part'
    requires forall v | v in order && v in part :: part[v] == part'[v]
    ensures Workload(order, edges, part', s) == Workload(order, edges, part, s)
  {
    if order != [] {
      assert order[|order| - 1] in order;
      WorkloadFrame(order[..|order| - 1], edges, part, part', s);
    }
  }

  lemma {:induction false} WorkloadMove(order: seq<Vertex>, edges: seq<Edge>, part: Placement, v: Vertex, to: nat,
                                        s: nat)
    requires Distinct(order) && v in order
    ensures Workload(order, edges, part[v := to], s)
         == Workload(order, edges, part, s)
          + (if s == to then NodeLoad(edges, v) else 0.0)
          - (if v in part && part[v] == s then NodeLoad(edges, v) else 0.0)
    decreases |order|
  {
    var init := order[..|order| - 1];
    if order[|order| - 1] == v {
      WorkloadFrame(init, edges, part, part[v := to], s);
    } else {
      WorkloadMove(init, edges, part, v, to, s);
    }
  }

  /** The code sums a tenth per edge, neighbour by neighbour in any order. */
  method LoadOf(list: seq<Vertex>, ghost edges: seq<Edge>, ghost v: Vertex) returns (load: real)
    requires list == Neighbours(edges, v)
    ensures load == NodeLoad(edges, v)
  {
    load := 1.0;
    var weights := NeighborWeights(list);
    var todo := weights.Keys;
    ghost var done: set<Vertex> := {};
    InOfNone(list, map[], 0);
    while todo != {}
      invariant todo <= weights.Keys && done == weights.Keys - todo
      invariant load == 1.0 + InOf(list, map[], done, 0) as real * 0.1
      decreases |todo|
    {
      var u :| u in todo;
      InOfOne(list, map[], done, u, 0);
      load := load + weights[u] as real * 0.1;
      todo, done := todo - {u}, done + {u};
    }
    InOfAll(list, map[], done, 0);
    InTrivial(list);
  }

  ghost predicate WorkloadsOk(workloads: seq<real>, order: seq<Vertex>, edges: seq<Edge>, part: Placement) {
    forall s | 0 <= s < |workloads| :: workloads[s] == Workload(order, edges, part, s)
  }

  // ------------------------------------------------ phase 1

  datatype Community = Community(vertices: seq<Vertex>, workload: real)

  function LoadSum(vertices: seq<Vertex>, edges: seq<Edge>): real {
    if vertices == [] then 0.0
    else LoadSum(vertices[..|vertices| - 1], edges) + NodeLoad(edges, vertices[|vertices| - 1])
  }

  /** All vertices of the communities, in order. */
  function Flatten(cs: seq<Community>): seq<Vertex> {
    if cs == [] then [] else Flatten(cs[..|cs| - 1]) + cs[|cs| - 1].vertices
  }

  /** The estimated time of a shard that takes on the load. */
  function Time(workload: real, load: real, performance: real): real
    requires performance != 0.0
  {
    (workload + load) / performance
  }

  /** best is the first shard of least estimated time; a shard without performance counts
      as infinitely slow, and shard 0 is taken when all are. */
  ghost predicate Fastest(workloads: seq<real>, performances: seq<real>, load: real, best: nat)
    requires |workloads| == |performances|
  {
    && best < |workloads|
    && (forall s | 0 <= s < |workloads| && performances[s] != 0.0 ::
          && performances[best] != 0.0
          && Time(workloads[best], load, performances[best]) <= Time(workloads[s], load, performances[s])
          && (s < best ==> Time(workloads[best], load, performances[best]) < Time(workloads[s], load, performances[s])))
    && ((forall s | 0 <= s < |workloads| :: performances[s] == 0.0) ==> best == 0)
  }

  method FastestShard(workloads: seq<real>, performances: seq<real>, load: real) returns (best: nat)
    requires |workloads| == |performances| > 0
    ensures Fastest(workloads, performances, load, best)
  {
    var bestShard, minTime := -1, 0.0;
    for s := 0 to |workloads|
      invariant -1 <= bestShard < s
      invariant bestShard == -1 ==> forall j | 0 <= j < s :: performances[j] == 0.0
      invariant bestShard >= 0 ==>
                  performances[bestShard] != 0.0 && minTime == Time(workloads[bestShard], load, performances[bestShard])
      invariant bestShard >= 0 ==> forall j | 0 <= j < s && performances[j] != 0.0 ::
                  && minTime <= Time(workloads[j], load, performances[j])
                  && (j < bestShard ==> minTime < Time(workloads[j], load, performances[j]))
    {
      if performances[s] != 0.0 {
        var t := (workloads[s] + load) / performances[s];
        if bestShard == -1 || t < minTime {
          bestShard, minTime := s, t;
        }
      }
    }
    best := if bestShard == -1 then 0 else bestShard;
  }

  /** Placing fresh vertices adds their loads to one shard. */
  lemma {:induction false} WorkloadAppend(xs: seq<Vertex>, ys: seq<Vertex>, edges: seq<Edge>, part: Placement, s: nat)
    ensures Workload(xs + ys, edges, part, s) == Workload(xs, edges, part, s) + Workload(ys, edges, part, s)
    decreases |ys|
  {
    if ys == [] {
      assert xs + ys == xs;
    } else {
      assert (xs + ys)[..|xs + ys| - 1] == xs + ys[..|ys| - 1];
      WorkloadAppend(xs, ys[..|ys| - 1], edges, part, s);
    }
  }

  lemma {:induction false} WorkloadUniform(ys: seq<Vertex>, edges: seq<Edge>, part: Placement, k: nat, s: nat)
    requires forall v | v in ys :: v in part && part[v] == k
    ensures Workload(ys, edges, part, s) == if s == k then LoadSum(ys, edges) else 0.0
  {
    if ys != [] {
      assert ys[|ys| - 1] in ys;
      WorkloadUniform(ys[..|ys| - 1], edges, part, k, s);
    }
  }

  method PlaceAll(vertices: seq<Vertex>, part: Placement, k: nat) returns (part': Placement)
    ensures forall v: Vertex :: v in part' <==> v in part || v in vertices
    ensures forall v | v in part' :: part'[v] == if v in vertices then k else part[v]
  {
    part' := part;
    for i := 0 to |vertices|
      invariant forall v: Vertex :: v in part' <==> v in part || v in vertices[..i]
      invariant forall v | v in part' :: part'[v] == if v in vertices[..i] then k else part[v]
    {
      part' := part'[vertices[i] := k];
    }
    assert vertices[..|vertices|] == vertices;
  }

  lemma CommunityPlaced(order: seq<Vertex>, vertices: seq<Vertex>, edges: seq<Edge>, part: Placement, part': Placement,
                        k: nat, workloads: seq<real>)
    requires WorkloadsOk(workloads, order, edges, part) && k < |workloads|
    requires forall v | v in order :: v !in vertices
    requires forall v: Vertex :: v in part' <==> v in part || v in vertices
    requires forall v | v in part' :: part'[v] == if v in vertices then k else part[v]
    ensures WorkloadsOk(workloads[k := workloads[k] + LoadSum(vertices, edges)], order + vertices, edges, part')
  {
    var after := workloads[k := workloads[k] + LoadSum(vertices, edges)];
    forall s: nat | s < |workloads| ensures after[s] == Workload(order + vertices, edges, part', s) {
      WorkloadAppend(order, vertices, edges, part', s);
      WorkloadFrame(order, edges, part, part', s);
      WorkloadUniform(vertices, edges, part', k, s);
    }
  }

  /** Every community lies in one shard. */
  ghost predicate KeptWhole(cs: seq<Community>, part: Placement) {
    forall i, u, v | 0 <= i < |cs| && u in cs[i].vertices && v in cs[i].vertices :: Shard(part, u) == Shard(part, v)
  }

  lemma {:induction false} InFlatten(cs: seq<Community>, i: nat, v: Vertex)
    requires i < |cs| && v in cs[i].vertices
    ensures v in Flatten(cs)
    decreases |cs|
  {
    if i < |cs| - 1 { InFlatten(cs[..|cs| - 1], i, v); }
  }

  /** Placing one more community moves no vertex of the earlier ones. */
  lemma StillWhole(cs: seq<Community>, c: Community, part: Placement, part': Placement, k: nat)
    requires KeptWhole(cs, part) && (forall v: Vertex | v in Flatten(cs) :: v in part && v !in c.vertices)
    requires forall v: Vertex :: v in part' <==> v in part || v in c.vertices
    requires forall v | v in part' :: part'[v] == if v in c.vertices then k else part[v]
    ensures KeptWhole(cs + [c], part')
  {
    var cs' := cs + [c];
    forall i, u, v | 0 <= i < |cs'| && u in cs'[i].vertices && v in cs'[i].vertices
      ensures Shard(part', u) == Shard(part', v)
    {
      if i < |cs| {
        InFlatten(cs, i, u);
        InFlatten(cs, i, v);
        assert cs'[i] == cs[i];
        assert Shard(part, u) == Shard(part, v);
      }
    }
  }

  /** The workloads of all shards under the listed vertices. */
  function Workloads(order: seq<Vertex>, edges: seq<Edge>, part: Placement, m: nat): seq<real> {
    seq(m, s requires 0 <= s < m => Workload(order, edges, part, s))
  }

  /** Community i lies on the shard that was fastest for it, given the communities before. */
  ghost predicate FastestAt(cs: seq<Community>, performances: seq<real>, edges: seq<Edge>, part: Placement, i: nat)
    requires i < |cs|
  {
    exists best: nat :: OnFastest(cs, performances, edges, part, i, best)
  }

  ghost predicate OnFastest(cs: seq<Community>, performances: seq<real>, edges: seq<Edge>, part: Placement, i: nat,
                            best: nat)
    requires i < |cs|
  {
    && (forall v | v in cs[i].vertices :: v in part && part[v] == best)
    && Fastest(Workloads(Flatten(cs[..i]), edges, part, |performances|), performances, cs[i].workload, best)
  }

  ghost predicate PlacedFastest(cs: seq<Community>, performances: seq<real>, edges: seq<Edge>, part: Placement) {
    forall i | 0 <= i < |cs| :: FastestAt(cs, performances, edges, part, i)
  }

  lemma FastestAtNext(cs: seq<Community>, c: Community, performances: seq<real>, edges: seq<Edge>, part: Placement,
                      part': Placement, k: nat, i: nat)
    requires i < |cs| && FastestAt(cs, performances, edges, part, i)
    requires forall v: Vertex | v in Flatten(cs) :: v in part && v !in c.vertices
    requires forall v: Vertex :: v in part' <==> v in part || v in c.vertices
    requires forall v | v in part' :: part'[v] == if v in c.vertices then k else part[v]
    ensures FastestAt(cs + [c], performances, edges, part', i)
  {
    var order := Flatten(cs[..i]);
    FlattenPrefix(cs, i);
    forall v | v in order ensures v in Flatten(cs) {}
    forall s: nat | s < |performances| ensures Workload(order, edges, part', s) == Workload(order, edges, part, s) {
      WorkloadFrame(order, edges, part, part', s);
    }
    assert Workloads(order, edges, part', |performances|) == Workloads(order, edges, part, |performances|);
    forall v | v in cs[i].vertices ensures v in part' && v in part && part'[v] == part[v] { InFlatten(cs, i, v); }
    assert (cs + [c])[..i] == cs[..i] && (cs + [c])[i] == cs[i];
    var best: nat :| OnFastest(cs, performances, edges, part, i, best);
    assert OnFastest(cs + [c], performances, edges, part', i, best);
  }

  lemma PlacedNext(cs: seq<Community>, c: Community, performances: seq<real>, edges: seq<Edge>, part: Placement,
                   part': Placement, k: nat, workloads: seq<real>)
    requires PlacedFastest(cs, performances, edges, part) && WorkloadsOk(workloads, Flatten(cs), edges, part)
    requires |workloads| == |performances| && Fastest(workloads, performances, c.workload, k)
    requires forall v: Vertex | v in Flatten(cs) :: v in part && v !in c.vertices
    requires forall v: Vertex :: v in part' <==> v in part || v in c.vertices
    requires forall v | v in part' :: part'[v] == if v in c.vertices then k else part[v]
    ensures PlacedFastest(cs + [c], performances, edges, part')
  {
    var cs' := cs + [c];
    forall i | 0 <= i < |cs'| ensures FastestAt(cs', performances, edges, part', i) {
      if i < |cs| {
        FastestAtNext(cs, c, performances, edges, part, part', k, i);
      } else {
        assert cs'[..i] == cs;
        forall s: nat | s < |workloads| ensures Workload(Flatten(cs), edges, part', s) == workloads[s] {
          WorkloadFrame(Flatten(cs), edges, part, part', s);
        }
        assert Workloads(Flatten(cs), edges, part', |performances|) == workloads;
        assert OnFastest(cs', performances, edges, part', i, k);
      }
    }
  }

  /** Phase 1: every vertex gets a shard in range, communities are kept whole, each goes to
      the first fastest shard at its turn, and each shard's workload is the sum of its
      vertices' loads. */
  method CommunityMovement(communities: seq<Community>, performances: seq<real>, ghost edges: seq<Edge>)
    returns (part: Placement, workloads: seq<real>)
    requires |performances| > 0 && Distinct(Flatten(communities))
    requires forall i | 0 <= i < |communities| :: communities[i].workload == LoadSum(communities[i].vertices, edges)
    ensures |workloads| == |performances| && WorkloadsOk(workloads, Flatten(communities), edges, part)
    ensures forall v: Vertex :: v in part <==> v in Flatten(communities)
    ensures forall v | v in part :: part[v] < |performances|
    ensures KeptWhole(communities, part) && PlacedFastest(communities, performances, edges, part)
  {
    part, workloads := map[], seq(|performances|, _ => 0.0);
    for i := 0 to |communities|
      invariant KeptWhole(communities[..i], part) && PlacedFastest(communities[..i], performances, edges, part)
      invariant |workloads| == |performances| && WorkloadsOk(workloads, Flatten(communities[..i]), edges, part)
      invariant forall v: Vertex :: v in part <==> v in Flatten(communities[..i])
      invariant forall v | v in part :: part[v] < |performances|
    {
      var c := communities[i];
      assert communities[..i + 1][..i] == communities[..i];
      FlattenDistinct(communities, i);
      var best := FastestShard(workloads, performances, c.workload);
      ghost var before := part;
      part := PlaceAll(c.vertices, part, best);
      CommunityPlaced(Flatten(communities[..i]), c.vertices, edges, before, part, best, workloads);
      assert communities[..i + 1] == communities[..i] + [c];
      StillWhole(communities[..i], c, before, part, best);
      PlacedNext(communities[..i], c, performances, edges, before, part, best, workloads);
      workloads := workloads[best := workloads[best] + c.workload];
    }
    assert communities[..|communities|] == communities;
  }

  lemma {:induction false} FlattenPrefix(cs: seq<Community>, i: nat)
    requires i <= |cs|
    ensures |Flatten(cs[..i])| <= |Flatten(cs)| && Flatten(cs)[..|Flatten(cs[..i])|] == Flatten(cs[..i])
    decreases |cs|
  {
    if i < |cs| {
      assert cs[..|cs| - 1][..i] == cs[..i];
      FlattenPrefix(cs[..|cs| - 1], i);
    } else {
      assert cs[..i] == cs;
    }
  }

  lemma FlattenDistinct(cs: seq<Community>, i: nat)
    requires i < |cs| && Distinct(Flatten(cs))
    ensures forall v | v in Flatten(cs[..i]) :: v !in cs[i].vertices
  {
    FlattenPrefix(cs, i + 1);
    var head, tail := Flatten(cs[..i]), cs[i].vertices;
    assert cs[..i + 1][..i] == cs[..i];
    var all := head + tail;
    assert Distinct(all);
    DistinctParts(head, tail);
  }

  // ------------------------------------------------ from labels to communities

  ghost predicate OneGroup(c: Community, g: nat, comm: Placement, done: set<Vertex>, edges: seq<Edge>) {
    && c.workload == LoadSum(c.vertices, edges) && Distinct(c.vertices)
    && forall v | v in c.vertices :: v in done && v in comm && comm[v] == g
  }

  ghost predicate Gathered(byLabel: map<nat, Community>, comm: Placement, done: set<Vertex>, edges: seq<Edge>) {
    && (forall g | g in byLabel :: OneGroup(byLabel[g], g, comm, done, edges))
    && (forall v | v in done :: v in comm && comm[v] in byLabel && v in byLabel[comm[v]].vertices)
  }

  /** One more vertex joins the community of its label. */
  method Gather(byLabel: map<nat, Community>, comm: Placement, v: Vertex, list: seq<Vertex>,
                ghost done: set<Vertex>, ghost edges: seq<Edge>)
    returns (byLabel': map<nat, Community>)
    requires Gathered(byLabel, comm, done, edges) && v in comm && v !in done && list == Neighbours(edges, v)
    ensures Gathered(byLabel', comm, done + {v}, edges)
  {
    var load := LoadOf(list, edges, v);
    var group := comm[v];
    var c := if group in byLabel then byLabel[group] else Community([], 0.0);
    byLabel' := byLabel[group := Community(c.vertices + [v], c.workload + load)];
    GatherOne(byLabel, comm, v, c, load, done, edges);
  }

  lemma GatherOne(byLabel: map<nat, Community>, comm: Placement, v: Vertex, c: Community, load: real,
                  done: set<Vertex>, edges: seq<Edge>)
    requires Gathered(byLabel, comm, done, edges) && v in comm && v !in done && load == NodeLoad(edges, v)
    requires c == if comm[v] in byLabel then byLabel[comm[v]] else Community([], 0.0)
    ensures Gathered(byLabel[comm[v] := Community(c.vertices + [v], c.workload + load)], comm, done + {v}, edges)
  {
    var g, c' := comm[v], Community(c.vertices + [v], c.workload + load);
    assert c'.vertices[..|c.vertices|] == c.vertices;
    assert g in byLabel ==> OneGroup(byLabel[g], g, comm, done, edges);
    OneGroupNext(c, c', g, comm, v, done, edges);
    forall h | h in byLabel && h != g ensures OneGroup(byLabel[h], h, comm, done + {v}, edges) {
      assert OneGroup(byLabel[h], h, comm, done, edges);
    }
    assert forall u | u in done :: u in byLabel[comm[u]].vertices;
  }

  lemma OneGroupNext(c: Community, c': Community, g: nat, comm: Placement, v: Vertex, done: set<Vertex>,
                     edges: seq<Edge>)
    requires OneGroup(c, g, comm, done, edges) && v in comm && comm[v] == g && v !in done
    requires c' == Community(c.vertices + [v], c.workload + NodeLoad(edges, v))
    ensures OneGroup(c', g, comm, done + {v}, edges)
  {
    assert c'.vertices[..|c.vertices|] == c.vertices;
    assert forall u | u in c.vertices :: u in done;
  }

  /** The communities of the labels not in todo, with their loads. */
  ghost predicate Listed(cs: seq<Community>, todo: set<nat>, comm: Placement, vs: set<Vertex>, edges: seq<Edge>) {
    && (forall i | 0 <= i < |cs| :: cs[i].workload == LoadSum(cs[i].vertices, edges))
    && Distinct(Flatten(cs)) && ByLabel(cs, comm)
    && forall v: Vertex :: v in Flatten(cs) <==> v in vs && v in comm && comm[v] !in todo
  }

  /** Two vertices are in one community exactly when they carry one label. */
  ghost predicate ByLabel(cs: seq<Community>, comm: Placement) {
    forall i, j, u, v | 0 <= i < |cs| && 0 <= j < |cs| && u in cs[i].vertices && v in cs[j].vertices ::
      (Shard(comm, u) == Shard(comm, v) <==> i == j)
  }

  lemma ByLabelNext(cs: seq<Community>, c: Community, comm: Placement, group: nat)
    requires ByLabel(cs, comm) && (forall v | v in c.vertices :: Shard(comm, v) == group)
    requires forall v: Vertex | v in Flatten(cs) :: Shard(comm, v) != group
    ensures ByLabel(cs + [c], comm)
  {
    var cs' := cs + [c];
    forall i, j, u, v | 0 <= i < |cs'| && 0 <= j < |cs'| && u in cs'[i].vertices && v in cs'[j].vertices
      ensures Shard(comm, u) == Shard(comm, v) <==> i == j
    {
      if i < |cs| { InFlatten(cs, i, u); }
      if j < |cs| { InFlatten(cs, j, v); }
    }
  }

  lemma ListedNext(cs: seq<Community>, byLabel: map<nat, Community>, todo: set<nat>, comm: Placement, vs: set<Vertex>,
                   group: nat, edges: seq<Edge>)
    requires Gathered(byLabel, comm, vs, edges) && Listed(cs, todo, comm, vs, edges) && group in todo
             && group in byLabel
    ensures Listed(cs + [byLabel[group]], todo - {group}, comm, vs, edges)
  {
    var c := byLabel[group];
    assert OneGroup(c, group, comm, vs, edges);
    assert (cs + [c])[..|cs|] == cs;
    var all := Flatten(cs) + c.vertices;
    assert Flatten(cs + [c]) == all;
    forall i, j | 0 <= i < j < |all| ensures all[i] != all[j] {
      if i < |Flatten(cs)| <= j {
        assert all[i] in Flatten(cs) && all[j] in c.vertices;
      }
    }
    forall v: Vertex ensures v in all <==> v in vs && v in comm && comm[v] !in todo - {group} { }
    ByLabelNext(cs, c, comm, group);
  }

  /** The communities hold every vertex once, grouped by label, each with the sum of its
      members' loads; they come in any order. */
  method BuildCommunities(vs: set<Vertex>, edgeSet: map<Vertex, seq<Vertex>>, comm: Placement, ghost edges: seq<Edge>)
    returns (cs: seq<Community>)
    requires GraphOk(vs, edgeSet, edges) && comm.Keys == vs
    ensures Distinct(Flatten(cs)) && (forall v: Vertex :: v in Flatten(cs) <==> v in vs) && ByLabel(cs, comm)
    ensures forall i | 0 <= i < |cs| :: cs[i].workload == LoadSum(cs[i].vertices, edges)
  {
    var byLabel := GatherAll(vs, edgeSet, comm, edges);
    cs := [];
    var todo := byLabel.Keys;
    while todo != {}
      invariant todo <= byLabel.Keys && Listed(cs, todo, comm, vs, edges)
      decreases |todo|
    {
      var group :| group in todo;
      ListedNext(cs, byLabel, todo, comm, vs, group, edges);
      cs, todo := cs + [byLabel[group]], todo - {group};
    }
  }

  method GatherAll(vs: set<Vertex>, edgeSet: map<Vertex, seq<Vertex>>, comm: Placement, ghost edges: seq<Edge>)
    returns (byLabel: map<nat, Community>)
    requires GraphOk(vs, edgeSet, edges) && comm.Keys == vs
    ensures Gathered(byLabel, comm, vs, edges)
  {
    byLabel := map[];
    var todo := vs;
    while todo != {}
      invariant todo <= vs && Gathered(byLabel, comm, vs - todo, edges)
      decreases |todo|
    {
      var v :| v in todo;
      var list := if v in edgeSet then edgeSet[v] else [];
      byLabel := Gather(byLabel, comm, v, list, vs - todo, edges);
      assert vs - todo + {v} == vs - (todo - {v});
      todo := todo - {v};
    }
    assert vs - todo == vs;
  }

  // ------------------------------------------------ phase 2

  method ClampToZero(x: real) returns (y: real)
    ensures y == if x < 0.0 then 0.0 else x
  {
    y := x;
    if y < 0.0 { y := 0.0; }
  }

  /** The heaviest neighbouring shard, ties in any order. */
  method HeaviestShard(groups: map<nat, nat>, current: nat) returns (best: nat, weight: nat)
    ensures best == current || best in groups
    ensures weight == 0 || (best in groups && weight == groups[best])
    ensures best != current ==> weight == At(groups, best)
    ensures forall k: nat :: At(groups, k) <= weight
    ensures weight > 0 ==> At(groups, best) == weight
  {
    best, weight := current, 0;
    var todo := groups.Keys;
    while todo != {}
      invariant todo <= groups.Keys && (best == current || best in groups)
      invariant weight == 0 || (best in groups && weight == groups[best])
      invariant best != current ==> best in groups && weight == groups[best]
      invariant forall k | k in groups && k !in todo :: groups[k] <= weight
      decreases |todo|
    {
      var k :| k in todo;
      if groups[k] > weight {
        best, weight := k, groups[k];
      }
      todo := todo - {k};
    }
  }

  lemma WorkloadsMove(workloads: seq<real>, order: seq<Vertex>, edges: seq<Edge>, part: Placement, v: Vertex, to: nat)
    requires WorkloadsOk(workloads, order, edges, part) && Distinct(order) && v in order && v in part
    requires part[v] < |workloads| && to < |workloads| && part[v] != to
    ensures workloads[part[v]] - NodeLoad(edges, v) >= 0.0
    ensures var load, from := NodeLoad(edges, v), part[v];
            WorkloadsOk(workloads[from := workloads[from] - load][to := workloads[to] + load], order, edges,
                        part[v := to])
  {
    WorkloadCovers(order, edges, part, part[v], v);
    var load, from := NodeLoad(edges, v), part[v];
    var after := workloads[from := workloads[from] - load][to := workloads[to] + load];
    forall s: nat | s < |workloads| ensures after[s] == Workload(order, edges, part[v := to], s) {
      WorkloadMove(order, edges, part, v, to, s);
    }
  }

  /** Shard k holds more than one and a half times as many of the edges as the current one. */
  ghost predicate Pulls(list: seq<Vertex>, part: Placement, current: nat, k: nat) {
    2 * In(list, part, k) > 3 * In(list, part, current)
  }

  /** No shard pulls the account. */
  ghost predicate Rests(edges: seq<Edge>, part: Placement, v: Vertex) {
    forall k: nat :: !Pulls(Neighbours(edges, v), part, Shard(part, v), k)
  }

  /** One account moves exactly when some shard holds more than one and a half times as
      many of its edges as its own, and then to a shard holding most; a move lowers the
      number of cross-shard edges, keeps every workload equal to the sum of its vertices'
      loads, and never needs the clamp. */
  method MoveAccount(list: seq<Vertex>, part: Placement, workloads: seq<real>, v: Vertex,
                     ghost order: seq<Vertex>, ghost edges: seq<Edge>)
    returns (part': Placement, workloads': seq<real>, moved: bool)
    requires list == Neighbours(edges, v) && v in part && v in order && Distinct(order)
    requires forall u | u in part :: part[u] < |workloads|
    requires forall u | u in list :: u in part
    requires WorkloadsOk(workloads, order, edges, part)
    ensures |workloads'| == |workloads| && WorkloadsOk(workloads', order, edges, part')
    ensures part'.Keys == part.Keys && forall u | u in part' :: part'[u] < |workloads|
    ensures !moved ==> part' == part
    ensures moved ==> Cross(edges, part') < Cross(edges, part)
    ensures moved <==> !Rests(edges, part, v)
    ensures moved ==> part' == part[v := part'[v]] && HoldsMost(list, part, part'[v])
  {
    part', workloads', moved := part, workloads, false;
    var current := part[v];
    var groups := GroupWeights(list, part);
    if forall k | k in groups :: k == current {
      assert forall k: nat | k != current :: At(groups, k) == In(list, part, k) == 0;
      return;
    }
    var best, weight := HeaviestShard(groups, current);
    assert In(list, part, best) == At(groups, best) && In(list, part, current) == At(groups, current);
    assert forall k: nat :: In(list, part, k) == At(groups, k) <= weight;
    if best != current && 2 * weight > 3 * At(groups, current) {
      var load := LoadOf(list, edges, v);
      assert best < |workloads| by {
        var i :| 0 <= i < |list| && Shard(part, list[i]) == best;
        assert list[i] in list;
      }
      CrossOfMove(edges, part, v, best);
      assert Pulls(list, part, current, best);
      part' := part[v := best];
      workloads' := ShiftLoad(workloads, current, best, load, part, v, order, edges);
      moved := true;
    }
  }

  /** The workload updates of a move; the clamp leaves the difference as it is. */
  method ShiftLoad(workloads: seq<real>, from: nat, to: nat, load: real, ghost part: Placement, ghost v: Vertex,
                   ghost order: seq<Vertex>, ghost edges: seq<Edge>)
    returns (workloads': seq<real>)
    requires WorkloadsOk(workloads, order, edges, part) && Distinct(order) && v in order && v in part
    requires from == part[v] < |workloads| && to < |workloads| && from != to && load == NodeLoad(edges, v)
    ensures |workloads'| == |workloads| && WorkloadsOk(workloads', order, edges, part[v := to])
  {
    WorkloadsMove(workloads, order, edges, part, v, to);
    var left := ClampToZero(workloads[from] - load);
    workloads' := workloads[from := left];
    workloads' := workloads'[to := workloads'[to] + load];
  }

  /** What the visit of account v does to a placement. */
  ghost predicate Replaced(edges: seq<Edge>, part: Placement, part': Placement, v: Vertex) {
    if Rests(edges, part, v) then part' == part
    else part' == part[v := Shard(part', v)] && HoldsMost(Neighbours(edges, v), part, Shard(part', v))
  }

  ghost function AccountRule(edges: seq<Edge>): (Placement, Placement, Vertex) -> bool {
    (p: Placement, p': Placement, v: Vertex) => Replaced(edges, p, p', v)
  }

  lemma ReplacedBy(edges: seq<Edge>, part: Placement, part': Placement, v: Vertex, moved: bool)
    requires (moved <==> !Rests(edges, part, v)) && (!moved ==> part' == part)
    requires moved ==> part' == part[v := Shard(part', v)] && HoldsMost(Neighbours(edges, v), part, Shard(part', v))
    ensures AccountRule(edges)(part, part', v)
  {
  }

  /** A visit that changes nothing finds its account at rest. */
  lemma UnchangedRests(edges: seq<Edge>, part: Placement, v: Vertex)
    requires AccountRule(edges)(part, part, v)
    ensures Rests(edges, part, v)
  {
  }

  lemma StillRests(vs: set<Vertex>, edges: seq<Edge>, p: Sweep<Vertex, Placement>, part: Placement)
    requires Swept(vs, AccountRule(edges), p, part, part) && Still(p, part)
    ensures forall v | v in vs :: Rests(edges, part, v)
  {
    forall v | v in vs ensures Rests(edges, part, v) {
      assert v in p.visits;
      var i :| 0 <= i < |p.visits| && p.visits[i] == v;
      assert StepAt(AccountRule(edges), p, i);
      UnchangedRests(edges, part, v);
    }
  }

  /** The workloads are those of the placement, which is in range. */
  ghost predicate Kept(part: Placement, workloads: seq<real>, order: seq<Vertex>, edges: seq<Edge>) {
    (forall v | v in part :: v in order && part[v] < |workloads|) && WorkloadsOk(workloads, order, edges, part)
  }

  /** The visit of one account as a step of a round. */
  method VisitAccount(edgeSet: map<Vertex, seq<Vertex>>, part: Placement, workloads: seq<real>, v: Vertex,
                      ghost vs: set<Vertex>, ghost order: seq<Vertex>, ghost edges: seq<Edge>,
                      ghost sweep: Sweep<Vertex, Placement>, ghost todo: set<Vertex>, ghost first: Placement)
    returns (part': Placement, workloads': seq<real>, moved: bool, ghost sweep': Sweep<Vertex, Placement>)
    requires GraphOk(vs, edgeSet, edges) && Within(edges, vs) && part.Keys == vs && v in todo
    requires Distinct(order) && Kept(part, workloads, order, edges)
    requires Partly(vs, AccountRule(edges), sweep, todo, first, part)
    ensures |workloads'| == |workloads| && part'.Keys == vs && Kept(part', workloads', order, edges)
    ensures Partly(vs, AccountRule(edges), sweep', todo - {v}, first, part')
    ensures !moved ==> part' == part
    ensures !moved && part == first && Still(sweep, first) ==> Still(sweep', first)
    ensures moved ==> Cross(edges, part') < Cross(edges, part)
  {
    var list := if v in edgeSet then edgeSet[v] else [];
    ListWithin(edges, vs, v);
    part', workloads', moved := MoveAccount(list, part, workloads, v, order, edges);
    ReplacedBy(edges, part, part', v, moved);
    PartlyAdd(vs, AccountRule(edges), sweep, todo, first, part, v, part');
    sweep' := Sweep(sweep.visits + [v], sweep.states + [part']);
  }

  /** A round over all accounts, in any order. */
  method AccountMovement(edgeSet: map<Vertex, seq<Vertex>>, part: Placement, workloads: seq<real>,
                         ghost order: seq<Vertex>, ghost edges: seq<Edge>)
    returns (part': Placement, workloads': seq<real>, movedCount: nat, ghost sweep: Sweep<Vertex, Placement>)
    requires GraphOk(part.Keys, edgeSet, edges) && Within(edges, part.Keys)
    requires Distinct(order) && (forall v | v in part :: v in order && part[v] < |workloads|)
    requires WorkloadsOk(workloads, order, edges, part)
    ensures |workloads'| == |workloads| && WorkloadsOk(workloads', order, edges, part')
    ensures part'.Keys == part.Keys && forall v | v in part' :: part'[v] < |workloads|
    ensures Swept(part.Keys, AccountRule(edges), sweep, part, part')
    ensures Cross(edges, part') + movedCount <= Cross(edges, part)
    ensures movedCount == 0 ==> part' == part && forall v | v in part :: Rests(edges, part, v)
  {
    part', workloads', movedCount, sweep := part, workloads, 0, Sweep([], [part]);
    ghost var vs := part.Keys;
    var todo := part.Keys;
    while todo != {}
      invariant part'.Keys == vs && |workloads'| == |workloads|
      invariant Kept(part', workloads', order, edges)
      invariant Partly(vs, AccountRule(edges), sweep, todo, part, part')
      invariant Cross(edges, part') + movedCount <= Cross(edges, part)
      invariant movedCount == 0 ==> part' == part && Still(sweep, part)
      decreases todo
    {
      var v :| v in todo;
      var moved;
      part', workloads', moved, sweep := VisitAccount(edgeSet, part', workloads', v, vs, order, edges, sweep, todo,
                                                             part);
      if moved { movedCount := movedCount + 1; }
      todo := todo - {v};
    }
    RoundEnds(vs, edges, sweep, part, part', movedCount > 0);
  }

  lemma RoundEnds(vs: set<Vertex>, edges: seq<Edge>, p: Sweep<Vertex, Placement>, part: Placement, part': Placement,
                  moved: bool)
    requires Partly(vs, AccountRule(edges), p, {}, part, part') && (!moved ==> part' == part && Still(p, part))
    ensures Swept(vs, AccountRule(edges), p, part, part')
    ensures !moved ==> forall v | v in vs :: Rests(edges, part, v)
  {
    PartlyAll(vs, AccountRule(edges), p, part, part');
    if !moved { StillRests(vs, edges, p, part); }
  }

  lemma {:induction false} ListWithin(edges: seq<Edge>, vs: set<Vertex>, v: Vertex)
    requires Within(edges, vs)
    ensures forall u | u in Neighbours(edges, v) :: u in vs
  {
    if edges != [] {
      assert Within(edges[..|edges| - 1], vs);
      assert edges[|edges| - 1].0 in vs && edges[|edges| - 1].1 in vs;
      ListWithin(edges[..|edges| - 1], vs, v);
    }
  }

  // ------------------------------------------------ the whole run

  /** Every vertex its own community. */
  method SingleCommunities(vs: set<Vertex>) returns (comm: Placement)
    ensures comm.Keys == vs && forall u, v | u in vs && v in vs && u != v :: comm[u] != comm[v]
  {
    comm := map[];
    var todo, id := vs, 0;
    while todo != {}
      invariant todo <= vs && comm.Keys == vs - todo
      invariant forall v | v in comm :: comm[v] < id
      invariant forall u, v | u in comm && v in comm && u != v :: comm[u] != comm[v]
      decreases |todo|
    {
      var v :| v in todo;
      comm, id, todo := comm[v := id], id + 1, todo - {v};
    }
  }

  /** Keeping communities whole cuts no more edges than lie between communities. */
  lemma {:induction false} CoarserCutsLess(edges: seq<Edge>, vs: set<Vertex>, comm: Placement, part: Placement)
    requires Within(edges, vs)
    requires forall u, v | u in vs && v in vs && Shard(comm, u) == Shard(comm, v) :: Shard(part, u) == Shard(part, v)
    ensures Cross(edges, part) <= Cross(edges, comm)
  {
    if edges != [] {
      var e := edges[|edges| - 1];
      assert e.0 in vs && e.1 in vs;
      CoarserCutsLess(edges[..|edges| - 1], vs, comm, part);
    }
  }

  lemma {:induction false} FlattenFinds(cs: seq<Community>, v: Vertex) returns (i: nat)
    requires v in Flatten(cs)
    ensures i < |cs| && v in cs[i].vertices
    decreases |cs|
  {
    if v in cs[|cs| - 1].vertices { i := |cs| - 1; } else { i := FlattenFinds(cs[..|cs| - 1], v); }
  }

  lemma PlacementCutsLess(edges: seq<Edge>, vs: set<Vertex>, cs: seq<Community>, comm: Placement, part: Placement)
    requires Within(edges, vs) && (forall v | v in vs :: v in Flatten(cs))
    requires ByLabel(cs, comm) && KeptWhole(cs, part)
    ensures Cross(edges, part) <= Cross(edges, comm)
  {
    forall u, v | u in vs && v in vs && Shard(comm, u) == Shard(comm, v) ensures Shard(part, u) == Shard(part, v) {
      var i := FlattenFinds(cs, u);
      var j := FlattenFinds(cs, v);
    }
    CoarserCutsLess(edges, vs, comm, part);
  }

  /** What the phases hand on: the communities with the rounds it took to find them, and
      the first placement with the rounds that refined it. */
  datatype Trace = Trace(start: Placement, comm: Placement, iteration: nat, sweeps: seq<Sweep<Vertex, Placement>>,
                         communities: seq<Community>, placed: Placement, rounds: seq<Sweep<Vertex, Placement>>)

  /** RunPLouvain: the result places every vertex in range, the workloads kept through the
      moves are the sums of the loads of the vertices placed there, every community went to
      the first fastest shard at its turn, and no phase cuts more edges than the one before.
      A phase that its cap does not stop ends at rest, and a cap above the number of edges
      then cut never stops it. */
  method RunPLouvain(vs: set<Vertex>, edgeSet: map<Vertex, seq<Vertex>>, performances: seq<real>,
                     ghost edges: seq<Edge>)
    returns (part: Placement, workloads: seq<real>, ghost order: seq<Vertex>, ghost trace: Trace)
    requires GraphOk(vs, edgeSet, edges) && Within(edges, vs) && |performances| > 0
    ensures part.Keys == vs && forall v | v in part :: part[v] < |performances|
    ensures Distinct(order) && forall v: Vertex :: v in order <==> v in vs
    ensures |workloads| == |performances| && WorkloadsOk(workloads, order, edges, part)
    ensures forall u, v | u in vs && v in vs && u != v :: Shard(trace.start, u) != Shard(trace.start, v)
    ensures Cross(edges, part) <= Cross(edges, trace.placed) <= Cross(edges, trace.comm) <= Cross(edges, trace.start)
    ensures ByLabel(trace.communities, trace.comm) && order == Flatten(trace.communities)
    ensures PlacedFastest(trace.communities, performances, edges, trace.placed)
    ensures forall c | c in trace.communities :: c.workload == LoadSum(c.vertices, edges)
    ensures trace.iteration <= 30 && trace.iteration <= Cross(edges, trace.start) + 1
    ensures trace.iteration < 30 || Cross(edges, trace.start) < 30
            ==> forall v | v in vs :: Settled(edges, trace.comm, v)
    ensures |trace.sweeps| == trace.iteration
    ensures Chained(vs, LabelRule(edges), trace.sweeps, trace.start, trace.comm)
    ensures Chained(vs, AccountRule(edges), trace.rounds, trace.placed, part)
    ensures |trace.rounds| <= 5 && Cross(edges, part) + |trace.rounds| <= Cross(edges, trace.placed) + 1
    ensures |trace.rounds| < 5 || Cross(edges, trace.placed) < 5 ==> forall v | v in vs :: Rests(edges, part, v)
  {
    var start := SingleCommunities(vs);
    var comm, iteration;
    ghost var sweeps;
    comm, iteration, sweeps := AggressiveLouvain(vs, edgeSet, start, 30, edges);
    var cs := BuildCommunities(vs, edgeSet, comm, edges);
    order := Flatten(cs);
    part, workloads := CommunityMovement(cs, performances, edges);
    assert part.Keys == vs;
    PlacementCutsLess(edges, vs, cs, comm, part);
    ghost var rounds;
    ghost var placed := part;
    part, workloads, rounds := MoveAccounts(vs, edgeSet, part, workloads, order, edges);
    trace := Trace(start, comm, iteration, sweeps, cs, placed, rounds);
  }

  /** The rounds of phase 2. */
  method MoveAccounts(vs: set<Vertex>, edgeSet: map<Vertex, seq<Vertex>>, start: Placement, loads: seq<real>,
                      ghost order: seq<Vertex>, ghost edges: seq<Edge>)
    returns (part: Placement, workloads: seq<real>, ghost rounds: seq<Sweep<Vertex, Placement>>)
    requires GraphOk(vs, edgeSet, edges) && Within(edges, vs) && start.Keys == vs
    requires Distinct(order) && (forall v | v in vs :: v in order && start[v] < |loads|)
    requires WorkloadsOk(loads, order, edges, start)
    ensures part.Keys == vs && forall v | v in part :: part[v] < |loads|
    ensures |workloads| == |loads| && WorkloadsOk(workloads, order, edges, part)
    ensures Chained(vs, AccountRule(edges), rounds, start, part)
    ensures Cross(edges, part) <= Cross(edges, start)
    ensures |rounds| <= 5 && Cross(edges, part) + |rounds| <= Cross(edges, start) + 1
    ensures |rounds| < 5 || Cross(edges, start) < 5 ==> forall v | v in vs :: Rests(edges, part, v)
  {
    part, workloads, rounds := start, loads, [];
    for round := 0 to 5
      invariant part.Keys == vs && (forall v | v in part :: part[v] < |loads|)
      invariant |workloads| == |loads| && WorkloadsOk(workloads, order, edges, part)
      invariant |rounds| == round && Cross(edges, part) + round <= Cross(edges, start)
      invariant Chained(vs, AccountRule(edges), rounds, start, part)
    {
      var moved;
      ghost var before, sweep := part, Sweep([], []);
      part, workloads, moved, sweep := AccountMovement(edgeSet, part, workloads, order, edges);
      ChainedAdd(vs, AccountRule(edges), rounds, start, before, sweep, part);
      rounds := rounds + [sweep];
      if moved == 0 { break; }
    }
  }
}
