/** The last phase of the P-Louvain committee: nodes move from the shard with most
    transactions inside it to the one with fewest
    (supervisor/committee/committee_plouvain.go). */
module FinalBalancing {
  import opened Collections
  import opened Louvain

  /** The address of no characters, which the code also uses for "none found". */
  const EMPTY: Addr := 0

  function B(b: bool): nat { if b then 1 else 0 }

  predicate Inside(part: Placement, x: Addr, k: nat) { x in part && part[x] == k }

  // ------------------------------------------------ reference quantities over the transactions

  /** Transactions with both ends in shard k: its load. */
  function Inner(txs: seq<Edge>, part: Placement, k: nat): nat {
    if txs == [] then 0
    else
      var e := txs[|txs| - 1];
      Inner(txs[..|txs| - 1], part, k) + B(Inside(part, e.s, k) && Inside(part, e.r, k))
  }

  /** Transactions between v and other addresses of shard k. */
  function Ties(txs: seq<Edge>, part: Placement, v: Addr, k: nat): nat {
    if txs == [] then 0
    else
      var e := txs[|txs| - 1];
      Ties(txs[..|txs| - 1], part, v, k) + B(e.s == v && e.r != v && Inside(part, e.r, k))
      + B(e.r == v && e.s != v && Inside(part, e.s, k))
  }

  /** Transactions from v to itself. */
  function Selfs(txs: seq<Edge>, v: Addr): nat {
    if txs == [] then 0
    else Selfs(txs[..|txs| - 1], v) + B(txs[|txs| - 1].s == v && txs[|txs| - 1].r == v)
  }

  function InnerSum(txs: seq<Edge>, part: Placement, m: nat): nat {
    if m == 0 then 0 else InnerSum(txs, part, m - 1) + Inner(txs, part, m - 1)
  }

  ghost predicate InShards(part: Placement, m: nat) { forall x | x in part :: part[x] < m }

  // ------------------------------------------------ what a move does to the loads

  /** The shard left loses v's transactions inside it, the shard entered gains those v has
      with it, and no other load changes. */
  lemma {:induction false} InnerOfMove(txs: seq<Edge>, part: Placement, v: Addr, to: nat, k: nat)
    requires v in part && part[v] != to
    ensures Inner(txs, part[v := to], k) ==
              Inner(txs, part, k) + (if k == to then Ties(txs, part, v, to) + Selfs(txs, v) else 0)
                                  - (if k == part[v] then Ties(txs, part, v, k) + Selfs(txs, v) else 0)
  {
    if txs != [] { InnerOfMove(txs[..|txs| - 1], part, v, to, k); }
  }

  /** Every transaction lies inside at most one shard. */
  lemma {:induction false} InnerSumOne(txs: seq<Edge>, part: Placement, m: nat)
    requires txs != []
    ensures var e := txs[|txs| - 1];
            && InnerSum(txs, part, m) <= InnerSum(txs[..|txs| - 1], part, m) + 1
            && (e.s in part && part[e.s] >= m ==> InnerSum(txs, part, m) == InnerSum(txs[..|txs| - 1], part, m))
  {
    if m > 0 { InnerSumOne(txs, part, m - 1); }
  }

  lemma {:induction false} InnerSumBound(txs: seq<Edge>, part: Placement, m: nat)
    ensures InnerSum(txs, part, m) <= |txs|
  {
    if txs == [] {
      InnerSumEmpty(part, m);
    } else {
      InnerSumBound(txs[..|txs| - 1], part, m);
      InnerSumOne(txs, part, m);
    }
  }

  lemma {:induction false} InnerSumEmpty(part: Placement, m: nat)
    ensures InnerSum([], part, m) == 0
  {
    if m > 0 { InnerSumEmpty(part, m - 1); }
  }

  lemma {:induction false} LeastBelowAverage(txs: seq<Edge>, part: Placement, m: nat, least: nat)
    requires forall k: nat | k < m :: least <= Inner(txs, part, k)
    ensures m * least <= InnerSum(txs, part, m)
  {
    if m > 0 {
      LeastBelowAverage(txs, part, m - 1, least);
      assert m * least == (m - 1) * least + least;
      assert least <= Inner(txs, part, m - 1);
    }
  }

  // ------------------------------------------------ one round

  ghost predicate FirstHeaviest(txs: seq<Edge>, part: Placement, m: nat, hi: nat) {
    && hi < m && (forall k: nat | k < m :: Inner(txs, part, k) <= Inner(txs, part, hi))
    && forall k: nat | k < hi :: Inner(txs, part, k) < Inner(txs, part, hi)
  }

  ghost predicate FirstLightest(txs: seq<Edge>, part: Placement, m: nat, lo: nat) {
    && lo < m && (forall k: nat | k < m :: Inner(txs, part, lo) <= Inner(txs, part, k))
    && forall k: nat | k < lo :: Inner(txs, part, lo) < Inner(txs, part, k)
  }

  /** A load of 1.3 times the average or more. */
  predicate Overloaded(load: nat, total: nat, m: nat)
    requires m > 0
  {
    load as real >= total as real / m as real * 1.3
  }

  /** The neighbours of v placed outside shard k. */
  function Outside(graph: Graph, part: Placement, v: Addr, k: nat): set<Addr> {
    if v in graph then set u | u in graph[v] && u in part && part[u] != k else {}
  }

  /** No node of shard k has more neighbours elsewhere. */
  ghost predicate Outermost(graph: Graph, part: Placement, k: nat, v: Addr) {
    && Inside(part, v, k)
    && forall x | Inside(part, x, k) :: |Outside(graph, part, x, k)| <= |Outside(graph, part, v, k)|
  }

  /** The node v of the heaviest shard hi goes to the lightest shard lo. */
  ghost predicate Choice(graph: Graph, txs: seq<Edge>, part: Placement, m: nat, hi: nat, lo: nat, v: Addr)
    requires m > 0
  {
    && FirstHeaviest(txs, part, m, hi) && FirstLightest(txs, part, m, lo)
    && Overloaded(Inner(txs, part, hi), |txs|, m)
    && Outermost(graph, part, hi, v) && Outside(graph, part, v, hi) != {} && v != EMPTY
  }

  ghost predicate Round(graph: Graph, txs: seq<Edge>, m: nat, part: Placement, part': Placement)
    requires m > 0
  {
    exists hi: nat, lo: nat, v: Addr :: Choice(graph, txs, part, m, hi, lo, v) && part' == part[v := lo]
  }

  /** The heaviest shard is below 1.3 times the average, or has no node with a neighbour
      elsewhere, or the one with most of them is the empty address. */
  ghost predicate AtRest(graph: Graph, txs: seq<Edge>, m: nat, part: Placement)
    requires m > 0
  {
    exists hi: nat :: FirstHeaviest(txs, part, m, hi)
      && (|| !Overloaded(Inner(txs, part, hi), |txs|, m)
          || (forall x | Inside(part, x, hi) :: Outside(graph, part, x, hi) == {})
          || Outermost(graph, part, hi, EMPTY))
  }

  /** An overloaded shard is never the lightest as well: a move goes somewhere else. */
  lemma OverloadedIsNotLightest(txs: seq<Edge>, part: Placement, m: nat, hi: nat, lo: nat)
    requires m > 0 && txs != [] && hi < m && FirstLightest(txs, part, m, lo)
    requires Overloaded(Inner(txs, part, hi), |txs|, m)
    ensures Inner(txs, part, lo) < Inner(txs, part, hi)
  {
    LeastBelowAverage(txs, part, m, Inner(txs, part, lo));
    InnerSumBound(txs, part, m);
    BelowAverage(Inner(txs, part, lo), Inner(txs, part, hi), |txs|, m);
  }

  lemma Cancel(a: real, b: real, c: real)
    requires c > 0.0 && a * c <= b * c
    ensures a <= b
  {
    assert (b - a) * c >= 0.0;
  }

  lemma BelowAverage(least: nat, load: nat, total: nat, m: nat)
    requires m > 0 && total > 0 && m * least <= total && Overloaded(load, total, m)
    ensures least < load
  {
    Quotient(total as real, m as real);
    CastProduct(m, least);
    Cancel(least as real, total as real / m as real, m as real);
  }

  lemma Quotient(t: real, k: real)
    requires t > 0.0 && k > 0.0
    ensures t / k * k == t && t / k > 0.0
  {
  }

  lemma CastProduct(m: nat, x: nat)
    ensures (m * x) as real == x as real * m as real
  {
  }

  /** A round empties the heaviest shard of v's transactions inside it and adds v's with the
      lightest there; every other load stays. */
  lemma RoundLoads(graph: Graph, txs: seq<Edge>, part: Placement, m: nat, hi: nat, lo: nat, v: Addr)
    requires m > 0 && graph.Keys == Ends(txs) && Choice(graph, txs, part, m, hi, lo, v)
    ensures hi != lo
    ensures Inner(txs, part[v := lo], hi) == Inner(txs, part, hi) - Ties(txs, part, v, hi) - Selfs(txs, v)
    ensures Inner(txs, part[v := lo], lo) == Inner(txs, part, lo) + Ties(txs, part, v, lo) + Selfs(txs, v)
    ensures forall k: nat | k != hi && k != lo :: Inner(txs, part[v := lo], k) == Inner(txs, part, k)
  {
    OverloadedIsNotLightest(txs, part, m, hi, lo);
    InnerOfMove(txs, part, v, lo, hi);
    InnerOfMove(txs, part, v, lo, lo);
    forall k: nat | k != hi && k != lo ensures Inner(txs, part[v := lo], k) == Inner(txs, part, k) {
      InnerOfMove(txs, part, v, lo, k);
    }
  }

  ghost predicate NoneAbove(txs: seq<Edge>, part: Placement, m: nat, load: nat) {
    forall k: nat | k < m :: Inner(txs, part, k) <= load
  }

  /** A round leaves no shard heavier than the heaviest was exactly when what the lightest
      held and what it gains stay within that. */
  lemma NoHeavierIff(graph: Graph, txs: seq<Edge>, part: Placement, m: nat, hi: nat, lo: nat, v: Addr)
    requires m > 0 && graph.Keys == Ends(txs) && Choice(graph, txs, part, m, hi, lo, v)
    ensures NoneAbove(txs, part[v := lo], m, Inner(txs, part, hi))
       <==> Inner(txs, part, lo) + Ties(txs, part, v, lo) + Selfs(txs, v) <= Inner(txs, part, hi)
  {
    RoundLoads(graph, txs, part, m, hi, lo, v);
    var part', load := part[v := lo], Inner(txs, part, hi);
    assert Inner(txs, part', hi) <= load;
    if Inner(txs, part', lo) <= load {
      forall k: nat | k < m ensures Inner(txs, part', k) <= load {
        assert k == hi || k == lo || Inner(txs, part', k) == Inner(txs, part, k);
      }
    }
  }

  /** Balancing can make the heaviest load heavier: of four shards the first holds one
      transaction, and the node that leaves it has two with the shard it goes to. */
  lemma BalancingRaisesTheHeaviestLoad() returns (graph: Graph, txs: seq<Edge>, part: Placement, part': Placement)
    ensures graph.Keys == Ends(txs) && Represents(graph, txs) && InShards(part, 4) && part.Keys == Ends(txs)
    ensures Round(graph, txs, 4, part, part')
    ensures NoneAbove(txs, part, 4, 1) && Inner(txs, part', 1) == 2
  {
    var e := [Edge(1, 2, 1.0), Edge(1, 3, 1.0), Edge(1, 3, 1.0)];
    txs, part, part' := e, map[1 := 0, 2 := 0, 3 := 1], map[1 := 1, 2 := 0, 3 := 1];
    graph := map[1 := map[2 := 1.0, 3 := 2.0], 2 := map[1 := 1.0], 3 := map[1 := 2.0]];
    ThreeLoads(e, part);
    InnerOfThree(e[0], e[1], e[2], part', 1);
    ThreeOutside(graph, part);
    assert Choice(graph, txs, part, 4, 0, 1, 1) && part' == part[1 := 1];
    ThreeEnds(e);
    ThreeWeights(graph, e);
  }

  lemma ThreeLoads(e: seq<Edge>, part: Placement)
    requires e == [Edge(1, 2, 1.0), Edge(1, 3, 1.0), Edge(1, 3, 1.0)]
    requires part == map[1 := 0, 2 := 0, 3 := 1]
    ensures FirstHeaviest(e, part, 4, 0) && FirstLightest(e, part, 4, 1) && NoneAbove(e, part, 4, 1)
    ensures Overloaded(Inner(e, part, 0), |e|, 4)
  {
    forall k: nat ensures Inner(e, part, k) == B(k == 0) { InnerOfThree(e[0], e[1], e[2], part, k); }
  }

  lemma ThreeOutside(graph: Graph, part: Placement)
    requires graph == map[1 := map[2 := 1.0, 3 := 2.0], 2 := map[1 := 1.0], 3 := map[1 := 2.0]]
    requires part == map[1 := 0, 2 := 0, 3 := 1]
    ensures Outermost(graph, part, 0, 1) && Outside(graph, part, 1, 0) != {}
  {
    assert Outside(graph, part, 1, 0) == {3} && Outside(graph, part, 2, 0) == {};
  }

  function InnerOf(part: Placement, e: Edge, k: nat): nat { B(Inside(part, e.s, k) && Inside(part, e.r, k)) }

  lemma InnerOfThree(a: Edge, b: Edge, c: Edge, part: Placement, k: nat)
    ensures Inner([a, b, c], part, k) == InnerOf(part, a, k) + InnerOf(part, b, k) + InnerOf(part, c, k)
  {
    var e := [a, b, c];
    assert e[..2] == [a, b] && [a, b][..1] == [a] && [a][..0] == [];
    assert Inner([a], part, k) == Inner([], part, k) + InnerOf(part, a, k);
    assert Inner([a, b], part, k) == Inner([a], part, k) + InnerOf(part, b, k);
    assert Inner(e, part, k) == Inner([a, b], part, k) + InnerOf(part, c, k);
  }

  lemma ThreeEnds(e: seq<Edge>)
    requires e == [Edge(1, 2, 1.0), Edge(1, 3, 1.0), Edge(1, 3, 1.0)]
    ensures Ends(e) == {1, 2, 3}
  {
    assert e[..2] == [e[0], e[1]] && [e[0], e[1]][..1] == [e[0]] && [e[0]][..0] == [];
    assert Ends([e[0]]) == Ends([]) + {1, 2};
    assert Ends([e[0], e[1]]) == Ends([e[0]]) + {1, 3};
    assert Ends(e) == Ends([e[0], e[1]]) + {1, 3};
  }

  lemma ThreeWeights(graph: Graph, e: seq<Edge>)
    requires graph == map[1 := map[2 := 1.0, 3 := 2.0], 2 := map[1 := 1.0], 3 := map[1 := 2.0]]
    requires e == [Edge(1, 2, 1.0), Edge(1, 3, 1.0), Edge(1, 3, 1.0)]
    ensures Represents(graph, e)
  {
    assert e[..2] == [e[0], e[1]] && [e[0], e[1]][..1] == [e[0]] && [e[0]][..0] == [];
    forall v: Addr, u: Addr ensures Weight(graph, v, u) == Between(e, v, u) {
      assert Between(e, v, u) == Between([e[0], e[1]], v, u) + If(v == 1 && u == 3, 1.0) + If(v == 3 && u == 1, 1.0);
      assert Between([e[0], e[1]], v, u)
             == Between([e[0]], v, u) + If(v == 1 && u == 3, 1.0) + If(v == 3 && u == 1, 1.0);
      assert Between([e[0]], v, u) == If(v == 1 && u == 2, 1.0) + If(v == 2 && u == 1, 1.0);
    }
  }

  // ------------------------------------------------ the phase as the code runs it

  method CountInner(txs: seq<Edge>, part: Placement, m: nat) returns (loads: seq<nat>)
    requires InShards(part, m)
    ensures |loads| == m && forall k: nat | k < m :: loads[k] == Inner(txs, part, k)
  {
    loads := seq(m, _ => 0);
    for i := 0 to |txs|
      invariant |loads| == m && forall k: nat | k < m :: loads[k] == Inner(txs[..i], part, k)
    {
      var e := txs[i];
      assert txs[..i + 1][..i] == txs[..i];
      if e.s in part && e.r in part && part[e.s] == part[e.r] {
        loads := loads[part[e.s] := loads[part[e.s]] + 1];
      }
    }
    assert txs[..|txs|] == txs;
  }

  /** The first greatest and the first least entry. */
  method Extremes(loads: seq<nat>) returns (hi: nat, lo: nat)
    requires loads != []
    ensures hi < |loads| && lo < |loads|
    ensures forall k | 0 <= k < |loads| :: loads[lo] <= loads[k] <= loads[hi]
    ensures (forall k | 0 <= k < hi :: loads[k] < loads[hi]) && forall k | 0 <= k < lo :: loads[lo] < loads[k]
  {
    hi, lo := 0, 0;
    for sid := 1 to |loads|
      invariant hi < sid && lo < sid && forall k | 0 <= k < sid :: loads[lo] <= loads[k] <= loads[hi]
      invariant (forall k | 0 <= k < hi :: loads[k] < loads[hi]) && forall k | 0 <= k < lo :: loads[lo] < loads[k]
    {
      if loads[sid] > loads[hi] { hi := sid; }
      if loads[sid] < loads[lo] { lo := sid; }
    }
  }

  method CountOutside(graph: Graph, part: Placement, v: Addr, k: nat) returns (count: nat)
    ensures count == |Outside(graph, part, v, k)|
  {
    count := 0;
    if v !in graph { return; }
    var todo := graph[v].Keys;
    ghost var found: set<Addr> := {};
    while todo != {}
      invariant todo <= graph[v].Keys && count == |found|
      invariant forall u :: u in found <==> u in graph[v] && u !in todo && u in part && part[u] != k
      decreases |todo|
    {
      var u :| u in todo;
      if u in part && part[u] != k { count, found := count + 1, found + {u}; }
      todo := todo - {u};
    }
    assert found == Outside(graph, part, v, k);
  }

  /** The first node with most neighbours outside, unless that is none or the empty address. */
  method BestNode(nodes: seq<Addr>, graph: Graph, part: Placement, k: nat) returns (best: Addr)
    requires forall x: Addr :: x in nodes <==> Inside(part, x, k)
    ensures best != EMPTY ==> Outermost(graph, part, k, best) && Outside(graph, part, best, k) != {}
    ensures best == EMPTY ==>
              (forall x | Inside(part, x, k) :: Outside(graph, part, x, k) == {}) || Outermost(graph, part, k, EMPTY)
  {
    best := EMPTY;
    var most := 0;
    for i := 0 to |nodes|
      invariant forall x | x in nodes[..i] :: |Outside(graph, part, x, k)| <= most
      invariant most == 0 ==> best == EMPTY
      invariant most > 0 ==> best in nodes[..i] && |Outside(graph, part, best, k)| == most
    {
      var count := CountOutside(graph, part, nodes[i], k);
      if count > most { most, best := count, nodes[i]; }
    }
    assert nodes[..|nodes|] == nodes;
  }

  /** The nodes of every shard, each once. */
  ghost predicate Grouped(nodes: seq<seq<Addr>>, part: Placement, m: nat) {
    && |nodes| == m
    && forall k: nat | k < m :: Distinct(nodes[k]) && forall x: Addr :: x in nodes[k] <==> Inside(part, x, k)
  }

  method GroupNodes(part: Placement, m: nat) returns (nodes: seq<seq<Addr>>)
    requires InShards(part, m)
    ensures Grouped(nodes, part, m)
  {
    nodes := seq(m, _ => []);
    var todo := part.Keys;
    while todo != {}
      invariant todo <= part.Keys && Grouped(nodes, map x | x in part && x !in todo :: part[x], m)
      decreases |todo|
    {
      var x :| x in todo;
      ghost var seen := map y | y in part && y !in todo :: part[y];
      Joined(nodes, seen, m, x, part[x]);
      assert seen[x := part[x]] == map y | y in part && y !in todo - {x} :: part[y];
      nodes := nodes[part[x] := nodes[part[x]] + [x]];
      todo := todo - {x};
    }
    assert part == map x | x in part && x !in todo :: part[x];
  }

  /** A node new to every list joins one. */
  lemma Joined(nodes: seq<seq<Addr>>, part: Placement, m: nat, x: Addr, k: nat)
    requires Grouped(nodes, part, m) && k < m && x !in part
    ensures Grouped(nodes[k := nodes[k] + [x]], part[x := k], m)
  {
    assert x !in nodes[k];
    var nodes' := nodes[k := nodes[k] + [x]];
    forall j: nat | j < m
      ensures Distinct(nodes'[j]) && forall y: Addr :: y in nodes'[j] <==> Inside(part[x := k], y, j)
    {
      assert Distinct(nodes[j]) && forall y: Addr :: y in nodes[j] <==> Inside(part, y, j);
    }
  }

  /** Cuts the first occurrence out. */
  method DropNode(list: seq<Addr>, x: Addr) returns (rest: seq<Addr>)
    requires Distinct(list)
    ensures Distinct(rest) && forall y: Addr :: y in rest <==> y in list && y != x
  {
    rest := list;
    for i := 0 to |list|
      invariant rest == list && x !in list[..i]
    {
      if list[i] == x {
        rest := list[..i] + list[i + 1..];
        return;
      }
    }
    assert list[..|list|] == list;
  }

  method MoveNode(nodes: seq<seq<Addr>>, x: Addr, from: nat, to: nat, ghost part: Placement, ghost m: nat)
    returns (nodes': seq<seq<Addr>>)
    requires Grouped(nodes, part, m) && Inside(part, x, from) && from < m && to < m && from != to
    ensures Grouped(nodes', part[x := to], m)
  {
    var rest := DropNode(nodes[from], x);
    Left(nodes, rest, part, m, x);
    nodes' := nodes[from := rest];
    Joined(nodes', part - {x}, m, x, to);
    assert (part - {x})[x := to] == part[x := to];
    nodes' := nodes'[to := nodes'[to] + [x]];
  }

  lemma Left(nodes: seq<seq<Addr>>, rest: seq<Addr>, part: Placement, m: nat, x: Addr)
    requires Grouped(nodes, part, m) && x in part && part[x] < m
    requires Distinct(rest) && forall y: Addr :: y in rest <==> y in nodes[part[x]] && y != x
    ensures Grouped(nodes[part[x] := rest], part - {x}, m)
  {
    var nodes' := nodes[part[x] := rest];
    forall j: nat | j < m
      ensures Distinct(nodes'[j]) && forall y: Addr :: y in nodes'[j] <==> Inside(part - {x}, y, j)
    {
      assert Distinct(nodes[j]) && forall y: Addr :: y in nodes[j] <==> Inside(part, y, j);
    }
  }

  /** The placements a balancing run goes through. */
  ghost predicate Rounds(graph: Graph, txs: seq<Edge>, m: nat, trace: seq<Placement>)
    requires m > 0
  {
    forall i | 0 <= i < |trace| - 1 :: Round(graph, txs, m, trace[i], trace[i + 1])
  }

  /** At most ten rounds; fewer only when the placement is at rest. */
  method FinalLoadBalancing(start: Placement, graph: Graph, txs: seq<Edge>, m: nat)
    returns (part: Placement, ghost trace: seq<Placement>)
    requires m > 0 && graph.Keys == Ends(txs) && InShards(start, m)
    ensures part.Keys == start.Keys && InShards(part, m)
    ensures 1 <= |trace| <= 11 && trace[0] == start && trace[|trace| - 1] == part && Rounds(graph, txs, m, trace)
    ensures |trace| < 11 ==> AtRest(graph, txs, m, part)
  {
    part, trace := start, [start];
    var nodes := GroupNodes(part, m);
    var loads := CountInner(txs, part, m);
    for iter := 0 to 10
      invariant part.Keys == start.Keys && InShards(part, m) && Grouped(nodes, part, m)
      invariant |loads| == m && forall k: nat | k < m :: loads[k] == Inner(txs, part, k)
      invariant |trace| == iter + 1 && trace[0] == start && trace[iter] == part && Rounds(graph, txs, m, trace)
    {
      var hi, lo := Extremes(loads);
      assert FirstHeaviest(txs, part, m, hi) && FirstLightest(txs, part, m, lo);
      if loads[hi] as real < |txs| as real / m as real * 1.3 { break; }
      var best := BestNode(nodes[hi], graph, part, hi);
      if best == EMPTY { break; }
      assert Choice(graph, txs, part, m, hi, lo, best);
      RoundLoads(graph, txs, part, m, hi, lo, best);
      nodes := MoveNode(nodes, best, hi, lo, part, m);
      part := part[best := lo];
      trace := trace + [part];
      loads := CountInner(txs, part, m);
    }
  }
}
