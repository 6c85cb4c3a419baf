/** What placing every community on the fastest shard is worth: on equal shards no shard
    is loaded beyond the average by more than the largest community
    (partition/partition_PLouvain.go). */
module PhaseBalance {
  import opened Collections
  import opened Graphs
  import opened PLouvain

  function SumWork(order: seq<Vertex>, edges: seq<Edge>, part: Placement, m: nat): real {
    if m == 0 then 0.0 else SumWork(order, edges, part, m - 1) + Workload(order, edges, part, m - 1)
  }

  lemma {:induction false} SumWorkEmpty(edges: seq<Edge>, part: Placement, m: nat)
    ensures SumWork([], edges, part, m) == 0.0
  {
    if m > 0 { SumWorkEmpty(edges, part, m - 1); }
  }

  lemma {:induction false} SumWorkLast(order: seq<Vertex>, edges: seq<Edge>, part: Placement, m: nat)
    requires order != []
    ensures var v := order[|order| - 1];
            SumWork(order, edges, part, m)
            == SumWork(order[..|order| - 1], edges, part, m)
             + if v in part && part[v] < m then NodeLoad(edges, v) else 0.0
  {
    if m > 0 { SumWorkLast(order, edges, part, m - 1); }
  }

  /** Together the shards carry the load of all vertices. */
  lemma {:induction false} SumWorkIsLoad(order: seq<Vertex>, edges: seq<Edge>, part: Placement, m: nat)
    requires forall v | v in order :: v in part && part[v] < m
    ensures SumWork(order, edges, part, m) == LoadSum(order, edges)
  {
    if order == [] {
      SumWorkEmpty(edges, part, m);
    } else {
      assert order[|order| - 1] in order;
      SumWorkLast(order, edges, part, m);
      SumWorkIsLoad(order[..|order| - 1], edges, part, m);
    }
  }

  lemma {:induction false} LeastBound(order: seq<Vertex>, edges: seq<Edge>, part: Placement, m: nat, least: real)
    requires forall s: nat | s < m :: least <= Workload(order, edges, part, s)
    ensures Rep(m, least) <= SumWork(order, edges, part, m)
  {
    if m > 0 { LeastBound(order, edges, part, m - 1, least); }
  }

  /** x added m times. */
  function Rep(m: nat, x: real): real { if m == 0 then 0.0 else Rep(m - 1, x) + x }

  lemma {:induction false} RepIs(m: nat, x: real)
    ensures Rep(m, x) == Product(m, x)
  {
    if m > 0 {
      RepIs(m - 1, x);
      assert m as real * x == (m - 1) as real * x + x;
    }
  }

  lemma {:induction false} RepLaws(m: nat, x: real, y: real)
    ensures Rep(m, x + y) == Rep(m, x) + Rep(m, y)
    ensures x <= y ==> Rep(m, x) <= Rep(m, y)
    ensures 0.0 <= y ==> 0.0 <= Rep(m, y)
  {
    if m > 0 { RepLaws(m - 1, x, y); }
  }

  lemma Divide(a: real, b: real, p: real)
    requires p > 0.0 && a / p <= b / p
    ensures a <= b
  {
    assert a / p * p == a && b / p * p == b;
    assert (b / p - a / p) * p >= 0.0;
  }

  ghost predicate Equal(performances: seq<real>) {
    forall s | 0 <= s < |performances| :: performances[s] == performances[0] > 0.0
  }

  /** On equal shards the fastest is a least loaded one. */
  lemma FastestIsLeast(workloads: seq<real>, performances: seq<real>, load: real, best: nat, s: nat)
    requires |workloads| == |performances| && Equal(performances) && Fastest(workloads, performances, load, best)
    requires s < |workloads|
    ensures workloads[best] <= workloads[s]
  {
    assert performances[s] == performances[0] && performances[best] == performances[0];
    Divide(workloads[best] + load, workloads[s] + load, performances[0]);
  }

  lemma {:induction false} LoadSumAppend(xs: seq<Vertex>, ys: seq<Vertex>, edges: seq<Edge>)
    ensures LoadSum(xs + ys, edges) == LoadSum(xs, edges) + LoadSum(ys, edges)
    ensures LoadSum(ys, edges) >= 0.0
    decreases |ys|
  {
    if ys == [] {
      assert xs + ys == xs;
    } else {
      assert (xs + ys)[..|xs + ys| - 1] == xs + ys[..|ys| - 1];
      LoadSumAppend(xs, ys[..|ys| - 1], edges);
    }
  }

  ghost predicate LoadsKnown(cs: seq<Community>, edges: seq<Edge>, largest: real) {
    forall i | 0 <= i < |cs| :: cs[i].workload == LoadSum(cs[i].vertices, edges) <= largest
  }

  /** A community goes to a shard below the average. */
  lemma FastestBelowAverage(order: seq<Vertex>, performances: seq<real>, edges: seq<Edge>, part: Placement, load: real,
                            best: nat)
    requires Equal(performances)
    requires Fastest(Workloads(order, edges, part, |performances|), performances, load, best)
    requires forall v | v in order :: v in part && part[v] < |performances|
    ensures Rep(|performances|, Workload(order, edges, part, best)) <= LoadSum(order, edges)
  {
    var loads := Workloads(order, edges, part, |performances|);
    forall t: nat | t < |performances| ensures Workload(order, edges, part, best) <= Workload(order, edges, part, t) {
      FastestIsLeast(loads, performances, load, best, t);
      assert loads[best] <= loads[t];
    }
    LeastBound(order, edges, part, |performances|, Workload(order, edges, part, best));
    SumWorkIsLoad(order, edges, part, |performances|);
  }

  /** The community added last changes one shard, one that was below the average. */
  lemma LastCommunity(cs: seq<Community>, performances: seq<real>, edges: seq<Edge>, part: Placement, s: nat)
    requires cs != [] && PlacedFastest(cs, performances, edges, part) && Equal(performances) && s < |performances|
    requires forall v | v in Flatten(cs) :: v in part && part[v] < |performances|
    ensures var before, after := Flatten(cs[..|cs| - 1]), Workload(Flatten(cs), edges, part, s);
            || after == Workload(before, edges, part, s)
            || (&& after == Workload(before, edges, part, s) + LoadSum(cs[|cs| - 1].vertices, edges)
                && Rep(|performances|, Workload(before, edges, part, s)) <= LoadSum(before, edges))
  {
    var before, c := Flatten(cs[..|cs| - 1]), cs[|cs| - 1];
    assert FastestAt(cs, performances, edges, part, |cs| - 1);
    var best: nat :| OnFastest(cs, performances, edges, part, |cs| - 1, best);
    WorkloadAppend(before, c.vertices, edges, part, s);
    WorkloadUniform(c.vertices, edges, part, best, s);
    if s == best { FastestBelowAverage(before, performances, edges, part, c.workload, best); }
  }

  lemma Combine(m: nat, before: real, w: real, total: real, largest: real)
    requires m > 0 && Rep(m, before) <= total && w <= largest
    ensures Rep(m, before + w) <= total + w + Rep(m - 1, largest)
  {
    RepLaws(m, before, w);
    RepLaws(m - 1, w, largest);
  }

  lemma PrefixPlaced(cs: seq<Community>, performances: seq<real>, edges: seq<Edge>, part: Placement)
    requires cs != [] && PlacedFastest(cs, performances, edges, part)
    ensures PlacedFastest(cs[..|cs| - 1], performances, edges, part)
  {
    var init := cs[..|cs| - 1];
    forall i | 0 <= i < |init| ensures FastestAt(init, performances, edges, part, i) {
      assert FastestAt(cs, performances, edges, part, i);
      var best: nat :| OnFastest(cs, performances, edges, part, i, best);
      assert init[..i] == cs[..i];
      assert OnFastest(init, performances, edges, part, i, best);
    }
  }

  lemma {:induction false} GreedyBound(cs: seq<Community>, performances: seq<real>, edges: seq<Edge>, part: Placement,
                                       largest: real, s: nat)
    requires PlacedFastest(cs, performances, edges, part) && Equal(performances) && s < |performances|
    requires LoadsKnown(cs, edges, largest) && largest >= 0.0
    requires forall v | v in Flatten(cs) :: v in part && part[v] < |performances|
    ensures Rep(|performances|, Workload(Flatten(cs), edges, part, s))
         <= LoadSum(Flatten(cs), edges) + Rep(|performances| - 1, largest)
    decreases |cs|
  {
    var m := |performances|;
    if cs == [] {
      RepLaws(m - 1, 0.0, largest);
      RepLaws(m, 0.0, 0.0);
    } else {
      PrefixPlaced(cs, performances, edges, part);
      GreedyBound(cs[..|cs| - 1], performances, edges, part, largest, s);
      LastCommunity(cs, performances, edges, part, s);
      GreedyStep(cs[..|cs| - 1], cs[|cs| - 1], edges, m, Workload(Flatten(cs[..|cs| - 1]), edges, part, s),
                 Workload(Flatten(cs), edges, part, s), largest);
    }
  }

  /** The bound survives one more community, whichever shard it goes to. */
  lemma GreedyStep(init: seq<Community>, c: Community, edges: seq<Edge>, m: nat, load: real, load': real, largest: real)
    requires m > 0 && Rep(m, load) <= LoadSum(Flatten(init), edges) + Rep(m - 1, largest)
    requires LoadSum(c.vertices, edges) <= largest
    requires load' == load
             || (load' == load + LoadSum(c.vertices, edges) && Rep(m, load) <= LoadSum(Flatten(init), edges))
    ensures Rep(m, load') <= LoadSum(Flatten(init) + c.vertices, edges) + Rep(m - 1, largest)
  {
    LoadSumAppend(Flatten(init), c.vertices, edges);
    if load' != load {
      Combine(m, load, LoadSum(c.vertices, edges), LoadSum(Flatten(init), edges), largest);
    }
  }

  /** On m equal shards: m times any shard's load is at most the load of all vertices plus
      m - 1 times that of the largest community. */
  lemma EqualShardsBound(cs: seq<Community>, performances: seq<real>, edges: seq<Edge>, part: Placement,
                         largest: real, s: nat)
    requires PlacedFastest(cs, performances, edges, part) && Equal(performances) && s < |performances|
    requires LoadsKnown(cs, edges, largest) && largest >= 0.0
    requires forall v | v in Flatten(cs) :: v in part && part[v] < |performances|
    ensures Product(|performances|, Workload(Flatten(cs), edges, part, s))
         <= LoadSum(Flatten(cs), edges) + Product(|performances| - 1, largest)
  {
    GreedyBound(cs, performances, edges, part, largest, s);
    AsProducts(|performances|, Workload(Flatten(cs), edges, part, s), LoadSum(Flatten(cs), edges), largest);
  }

  lemma AsProducts(m: nat, load: real, total: real, largest: real)
    requires m > 0 && Rep(m, load) <= total + Rep(m - 1, largest)
    ensures Product(m, load) <= total + Product(m - 1, largest)
  {
    RepIs(m, load);
    RepIs(m - 1, largest);
  }

  function Product(m: nat, x: real): real { m as real * x }
}
