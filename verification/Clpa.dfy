/** The CLPA state and its in-place updates, proved against the reference
    counts of module Graphs (partition/partition_CLPA.go). */
module Clpa {
  import opened Sweeps
  import opened Graphs
  import Ledger

  const MAX_INT: int := 0x7FFF_FFFF_FFFF_FFFF

  /** A vertex is moved at most this often in one run. */
  const THRESHOLD: nat := 50

  function MinOf(xs: seq<int>): int {
    if xs == [] then MAX_INT
    else var m := MinOf(xs[..|xs| - 1]); if m > xs[|xs| - 1] then xs[|xs| - 1] else m
  }

  function Sum(xs: seq<int>): int {
    if xs == [] then 0 else Sum(xs[..|xs| - 1]) + xs[|xs| - 1]
  }

  function NumIn(vs: set<Vertex>, part: Placement, k: nat): nat {
    |Members(vs, part, k)|
  }

  function Members(vs: set<Vertex>, part: Placement, k: nat): set<Vertex> {
    set v | v in vs && Shard(part, v) == k
  }

  /** An unplaced vertex goes to the shard of its address. */
  function WithHome(part: Placement, v: Vertex, n: nat): Placement
    requires n > 0
  {
    if v in part then part else part[v := Ledger.HomeShard(v, n)]
  }

  // ------------------------------------------------ moves

  /** The partition after a list of moves, and how often v occurs in it. */
  function AfterMoves(part: Placement, moves: seq<(Vertex, nat)>): Placement {
    if moves == [] then part
    else var m := moves[|moves| - 1]; AfterMoves(part, moves[..|moves| - 1])[m.0 := m.1]
  }

  function TimesMoved(moves: seq<(Vertex, nat)>, v: Vertex): nat {
    if moves == [] then 0
    else TimesMoved(moves[..|moves| - 1], v) + B(moves[|moves| - 1].0 == v)
  }

  type Trace = seq<(Vertex, nat)>

  /** CLPA's score of a shard for a vertex: any function of the state it reads. */
  type Score = (Placement, seq<int>, int, Vertex, nat) -> real

  /** Self-loops of the moved vertices, once per move. */
  function LoopsOf(edges: seq<Edge>, run: Trace): nat {
    if run == [] then 0 else LoopsOf(edges, run[..|run| - 1]) + Loops(edges, run[|run| - 1].0)
  }

  lemma LoopsOfMove(edges: seq<Edge>, run: Trace, v: Vertex, to: nat)
    ensures LoopsOf(edges, run + [(v, to)]) == LoopsOf(edges, run) + Loops(edges, v)
  {
    assert (run + [(v, to)])[..|run|] == run;
  }

  /** Every shard with a vertex under part0 has one under part. */
  ghost predicate KeepsAll(vs: set<Vertex>, part0: Placement, part: Placement) {
    forall k: nat | NumIn(vs, part0, k) > 0 :: NumIn(vs, part, k) > 0
  }

  /** No shard that starts with a vertex is empty at any point of the run. */
  ghost predicate NeverEmptied(vs: set<Vertex>, part0: Placement, run: Trace) {
    && KeepsAll(vs, part0, AfterMoves(part0, run))
    && (run == [] || NeverEmptied(vs, part0, run[..|run| - 1]))
  }

  /** What a run has recorded so far. */
  ghost predicate Tracked(vs: set<Vertex>, part0: Placement, run: Trace, part: Placement, res: Placement,
                          moved: Placement) {
    && part == AfterMoves(part0, run) == part0 + res
    && (forall v: Vertex :: TimesMoved(run, v) == Shard(moved, v) <= THRESHOLD)
    && (forall v: Vertex :: v in res <==> TimesMoved(run, v) > 0)
    && NeverEmptied(vs, part0, run)
  }

  lemma TrackedMove(vs: set<Vertex>, part0: Placement, run: Trace, part: Placement, res: Placement, moved: Placement,
                    v: Vertex, to: nat)
    requires Tracked(vs, part0, run, part, res, moved)
    requires v in vs && Shard(part, v) != to && NumIn(vs, part, Shard(part, v)) > 1 && Shard(moved, v) < THRESHOLD
    ensures Tracked(vs, part0, run + [(v, to)], part[v := to], res[v := to], moved[v := Shard(moved, v) + 1])
  {
    var run' := run + [(v, to)];
    assert run'[..|run|] == run;
    assert part[v := to] == part0 + res[v := to];
    assert AfterMoves(part0, run') == part[v := to];
    TimesTracked(run, res, moved, v, to);
    KeepsAllMove(vs, part0, part, v, to);
  }

  lemma TimesTracked(run: Trace, res: Placement, moved: Placement, v: Vertex, to: nat)
    requires forall u: Vertex :: TimesMoved(run, u) == Shard(moved, u) <= THRESHOLD
    requires forall u: Vertex :: u in res <==> TimesMoved(run, u) > 0
    requires Shard(moved, v) < THRESHOLD
    ensures var run', moved', res' := run + [(v, to)], moved[v := Shard(moved, v) + 1], res[v := to];
            && (forall u: Vertex :: TimesMoved(run', u) == Shard(moved', u) <= THRESHOLD)
            && (forall u: Vertex :: u in res' <==> TimesMoved(run', u) > 0)
  {
    TimesMovedNext(run, v, to);
  }

  lemma TimesMovedNext(run: Trace, v: Vertex, to: nat)
    ensures forall u: Vertex :: TimesMoved(run + [(v, to)], u) == TimesMoved(run, u) + B(u == v)
  {
    assert (run + [(v, to)])[..|run|] == run;
  }

  lemma KeepsAllMove(vs: set<Vertex>, part0: Placement, part: Placement, v: Vertex, to: nat)
    requires KeepsAll(vs, part0, part) && v in vs
    requires Shard(part, v) != to && NumIn(vs, part, Shard(part, v)) > 1
    ensures KeepsAll(vs, part0, part[v := to])
  {
    forall k: nat | NumIn(vs, part0, k) > 0 ensures NumIn(vs, part[v := to], k) > 0 {
      NumInMove(vs, part, v, to, k);
    }
  }

  /** Moving one vertex moves one unit of the population. */
  lemma NumInMove(vs: set<Vertex>, part: Placement, v: Vertex, to: nat, k: nat)
    requires v in vs && Shard(part, v) != to
    ensures NumIn(vs, part[v := to], k)
         == NumIn(vs, part, k) + (if k == to then 1 else 0) - (if k == Shard(part, v) then 1 else 0)
  {
    var before, after := Members(vs, part, k), Members(vs, part[v := to], k);
    assert after - {v} == before - {v};
    assert v in after <==> k == to;
    assert v in before <==> k == Shard(part, v);
    SizeWithout(before, v);
    SizeWithout(after, v);
  }

  lemma SizeWithout(xs: set<Vertex>, v: Vertex)
    ensures |xs| == |xs - {v}| + B(v in xs)
  {
    if v in xs { assert xs == (xs - {v}) + {v}; } else { assert xs - {v} == xs; }
  }

  lemma NumInAdd(vs: set<Vertex>, part: Placement, part': Placement, v: Vertex, k: nat)
    requires forall u | u in vs :: Shard(part', u) == Shard(part, u)
    ensures NumIn(vs + {v}, part', k) == NumIn(vs, part, k) + B(v !in vs && k == Shard(part', v))
  {
    var before, after := Members(vs, part, k), Members(vs + {v}, part', k);
    assert after - {v} == before - {v};
    SizeWithout(before, v);
    SizeWithout(after, v);
  }

  /** The adjacency lists after one more edge. */
  lemma NeighboursAdd(edges: seq<Edge>, u: Vertex, v: Vertex, x: Vertex)
    ensures Neighbours(edges + [(u, v)], x)
         == Neighbours(edges, x) + (if x == u then [v] else []) + (if x == v then [u] else [])
  {
    assert (edges + [(u, v)])[..|edges|] == edges;
  }

  /** The adjacency lists are those of the edge list. */
  ghost predicate Adjacency(edgeSet: map<Vertex, seq<Vertex>>, edges: seq<Edge>) {
    && Within(edges, edgeSet.Keys)
    && forall v: Vertex :: Neighbours(edges, v) == if v in edgeSet then edgeSet[v] else []
  }

  lemma WithinNext(edges: seq<Edge>, vs: set<Vertex>, vs': set<Vertex>, u: Vertex, v: Vertex)
    requires Within(edges, vs) && vs <= vs' && u in vs' && v in vs'
    ensures Within(edges + [(u, v)], vs')
  {
  }

  lemma LinkedAt(edgeSet: map<Vertex, seq<Vertex>>, edges: seq<Edge>, u: Vertex, v: Vertex, x: Vertex)
    requires Adjacency(edgeSet, edges)
    ensures var one := edgeSet[u := (if u in edgeSet then edgeSet[u] else []) + [v]];
            var two := one[v := (if v in one then one[v] else []) + [u]];
            Neighbours(edges + [(u, v)], x) == if x in two then two[x] else []
  {
    NeighboursAdd(edges, u, v, x);
  }

  lemma LinkedKeeps(edgeSet: map<Vertex, seq<Vertex>>, edges: seq<Edge>, u: Vertex, v: Vertex)
    requires Adjacency(edgeSet, edges)
    ensures var one := edgeSet[u := (if u in edgeSet then edgeSet[u] else []) + [v]];
            Adjacency(one[v := (if v in one then one[v] else []) + [u]], edges + [(u, v)])
  {
    var one := edgeSet[u := (if u in edgeSet then edgeSet[u] else []) + [v]];
    var two := one[v := (if v in one then one[v] else []) + [u]];
    forall x: Vertex ensures Neighbours(edges + [(u, v)], x) == if x in two then two[x] else [] {
      LinkedAt(edgeSet, edges, u, v, x);
    }
    WithinNext(edges, edgeSet.Keys, two.Keys, u, v);
  }

  // ------------------------------------------------ scanning

  method FindMin(xs: seq<int>) returns (m: int)
    ensures m == MinOf(xs)
  {
    m := MAX_INT;
    for i := 0 to |xs|
      invariant m == MinOf(xs[..i])
    {
      assert xs[..i + 1][..i] == xs[..i];
      if m > xs[i] { m := xs[i]; }
    }
    assert xs[..|xs|] == xs;
  }

  /** The inner loop of ComputeEdges2Shard: one adjacency list. */
  method ScanList(list: seq<Vertex>, part: Placement, vShard: nat, e: seq<int>, d: seq<int>)
    returns (edges2Shard: seq<int>, interEdge: seq<int>)
    requires |e| == |d| && forall u | u in list :: Shard(part, u) < |e|
    ensures |edges2Shard| == |e| == |interEdge|
    ensures forall k | 0 <= k < |e| ::
              && edges2Shard[k] == e[k] + (if vShard != k then In(list, part, k) else 0)
              && interEdge[k] == d[k] + (if vShard == k then In(list, part, k) else 0)
  {
    edges2Shard, interEdge := e, d;
    for i := 0 to |list|
      invariant |edges2Shard| == |e| == |interEdge|
      invariant forall k | 0 <= k < |e| ::
                  && edges2Shard[k] == e[k] + (if vShard != k then In(list[..i], part, k) else 0)
                  && interEdge[k] == d[k] + (if vShard == k then In(list[..i], part, k) else 0)
    {
      assert list[..i + 1][..i] == list[..i];
      var uShard := Shard(part, list[i]);
      if vShard != uShard {
        edges2Shard := edges2Shard[uShard := edges2Shard[uShard] + 1];
      } else {
        interEdge := interEdge[uShard := interEdge[uShard] + 1];
      }
    }
    assert list[..|list|] == list;
  }

  lemma {:induction false} SumIsInbound(xs: seq<int>, edges: seq<Edge>, part: Placement, vs: set<Vertex>)
    requires forall k | 0 <= k < |xs| :: xs[k] == Inbound(edges, part, vs, k)
    ensures Sum(xs) == SumInbound(edges, part, vs, |xs|)
    decreases |xs|
  {
    if xs != [] { SumIsInbound(xs[..|xs| - 1], edges, part, vs); }
  }

  method SumUp(xs: seq<int>) returns (t: int)
    ensures t == Sum(xs)
  {
    t := 0;
    for i := 0 to |xs|
      invariant t == Sum(xs[..i])
    {
      assert xs[..i + 1][..i] == xs[..i];
      t := t + xs[i];
    }
    assert xs[..|xs|] == xs;
  }

  /** Both tallies after the lists of the vertices in done. */
  ghost predicate Scanned(e: seq<int>, d: seq<int>, edges: seq<Edge>, part: Placement, done: set<Vertex>) {
    && |e| == |d|
    && forall k | 0 <= k < |e| :: e[k] == Inbound(edges, part, done, k) && d[k] == Inner(edges, part, done, k)
  }

  lemma ScannedNone(e: seq<int>, d: seq<int>, edges: seq<Edge>, part: Placement)
    requires |e| == |d| && forall k | 0 <= k < |e| :: e[k] == d[k] == 0
    ensures Scanned(e, d, edges, part, {})
  {
    forall k: nat | k < |e| ensures Inbound(edges, part, {}, k) == 0 && Inner(edges, part, {}, k) == 0 {
      ScanNone(edges, part, k);
    }
  }

  lemma ScannedOne(e: seq<int>, d: seq<int>, e': seq<int>, d': seq<int>, edges: seq<Edge>, part: Placement,
                   done: set<Vertex>, v: Vertex)
    requires Scanned(e, d, edges, part, done) && v !in done && |e| == |e'| == |d'|
    requires forall k | 0 <= k < |e| ::
               && e'[k] == e[k] + (if Shard(part, v) != k then In(Neighbours(edges, v), part, k) else 0)
               && d'[k] == d[k] + (if Shard(part, v) == k then In(Neighbours(edges, v), part, k) else 0)
    ensures Scanned(e', d', edges, part, done + {v})
  {
    forall k: nat | k < |e|
      ensures e'[k] == Inbound(edges, part, done + {v}, k) && d'[k] == Inner(edges, part, done + {v}, k)
    {
      ScanOne(edges, part, done, v, k);
    }
  }

  /** The outer loop of ComputeEdges2Shard, in whatever order the map is read. */
  method ScanGraph(edgeSet: map<Vertex, seq<Vertex>>, part: Placement, n: nat, ghost edges: seq<Edge>)
    returns (edges2Shard: seq<int>, interEdge: seq<int>)
    requires forall v | v in edgeSet :: edgeSet[v] == Neighbours(edges, v)
    requires forall v, u | v in edgeSet && u in edgeSet[v] :: Shard(part, u) < n
    ensures |edges2Shard| == n && Scanned(edges2Shard, interEdge, edges, part, edgeSet.Keys)
  {
    edges2Shard, interEdge := seq(n, _ => 0), seq(n, _ => 0);
    var todo := edgeSet.Keys;
    ScannedNone(edges2Shard, interEdge, edges, part);
    ghost var done: set<Vertex> := {};
    while todo != {}
      invariant todo <= edgeSet.Keys && done == edgeSet.Keys - todo
      invariant |edges2Shard| == n && Scanned(edges2Shard, interEdge, edges, part, done)
      decreases |todo|
    {
      var v :| v in todo;
      var e, d := ScanList(edgeSet[v], part, Shard(part, v), edges2Shard, interEdge);
      ScannedOne(edges2Shard, interEdge, e, d, edges, part, done, v);
      edges2Shard, interEdge := e, d;
      todo, done := todo - {v}, done + {v};
    }
    assert done == edgeSet.Keys;
  }

  method Halve(inbound: seq<int>, interEdge: seq<int>) returns (edges2Shard: seq<int>)
    requires |inbound| == |interEdge|
    ensures |edges2Shard| == |inbound|
    ensures forall k | 0 <= k < |inbound| :: edges2Shard[k] == inbound[k] + interEdge[k] / 2
  {
    edges2Shard := inbound;
    for k := 0 to |inbound|
      invariant |edges2Shard| == |inbound|
      invariant forall j | 0 <= j < k :: edges2Shard[j] == inbound[j] + interEdge[j] / 2
      invariant forall j | k <= j < |inbound| :: edges2Shard[j] == inbound[j]
    {
      edges2Shard := edges2Shard[k := edges2Shard[k] + interEdge[k] / 2];
    }
  }

  /** The loop of changeShardRecompute over the mover's neighbours. */
  method UpdateFromList(list: seq<Vertex>, part: Placement, to: nat, from: nat, e0: seq<int>, c0: int)
    returns (edges2Shard: seq<int>, cross: int)
    requires to < |e0| && from < |e0| && to != from
    ensures |edges2Shard| == |e0|
    ensures edges2Shard[to] == e0[to] + Out(list, part, to)
    ensures edges2Shard[from] == e0[from] - Out(list, part, from)
    ensures forall k | 0 <= k < |e0| && k != to && k != from :: edges2Shard[k] == e0[k]
    ensures cross == c0 + In(list, part, from) - In(list, part, to)
  {
    edges2Shard, cross := e0, c0;
    for i := 0 to |list|
      invariant |edges2Shard| == |e0|
      invariant edges2Shard[to] == e0[to] + Out(list[..i], part, to)
      invariant edges2Shard[from] == e0[from] - Out(list[..i], part, from)
      invariant forall k | 0 <= k < |e0| && k != to && k != from :: edges2Shard[k] == e0[k]
      invariant cross == c0 + In(list[..i], part, from) - In(list[..i], part, to)
    {
      assert list[..i + 1][..i] == list[..i];
      var neighborShard := Shard(part, list[i]);
      if neighborShard != to && neighborShard != from {
        edges2Shard := edges2Shard[to := edges2Shard[to] + 1];
        edges2Shard := edges2Shard[from := edges2Shard[from] - 1];
      } else if neighborShard == to {
        edges2Shard := edges2Shard[from := edges2Shard[from] - 1];
        cross := cross - 1;
      } else {
        edges2Shard := edges2Shard[to := edges2Shard[to] + 1];
        cross := cross + 1;
      }
    }
    assert list[..|list|] == list;
  }

  // ------------------------------------------------ any sequence of moves

  datatype Counters = Counters(edges2Shard: seq<int>, cross: int)

  /** What ComputeEdges2Shard finds. */
  function Recount(edges: seq<Edge>, part: Placement, n: nat): Counters {
    Counters(seq(n, k requires 0 <= k < n => Touching(edges, part, k)), Cross(edges, part))
  }

  /** What changeShardRecompute makes of the counters when v goes to another shard. */
  function Shift(edges: seq<Edge>, part: Placement, c: Counters, v: Vertex, to: nat): Counters
    requires to < |c.edges2Shard| && Shard(part, v) < |c.edges2Shard|
  {
    var list, part', from, e := Neighbours(edges, v), part[v := to], Shard(part, v), c.edges2Shard;
    Counters(e[to := e[to] + Out(list, part', to)][from := e[from] - Out(list, part', from)],
             c.cross + In(list, part', from) - In(list, part', to))
  }

  /** A run of moves, each to another shard in range. */
  ghost predicate MovesOk(part: Placement, run: Trace, n: nat) {
    run != [] ==>
      var init, m := run[..|run| - 1], run[|run| - 1];
      MovesOk(part, init, n) && m.1 < n && Shard(AfterMoves(part, init), m.0) != m.1
          && Shard(AfterMoves(part, init), m.0) < n
  }

  /** The counters kept incrementally through a run. */
  ghost function Maintained(edges: seq<Edge>, part: Placement, run: Trace, n: nat): (c: Counters)
    requires MovesOk(part, run, n)
    ensures |c.edges2Shard| == n
  {
    if run == [] then Recount(edges, part, n)
    else
      var init, m := run[..|run| - 1], run[|run| - 1];
      Shift(edges, AfterMoves(part, init), Maintained(edges, part, init, n), m.0, m.1)
  }

  lemma ShiftDrifts(edges: seq<Edge>, part: Placement, c: Counters, v: Vertex, to: nat)
    requires to < |c.edges2Shard| && Shard(part, v) < |c.edges2Shard| && Shard(part, v) != to
    ensures var c', n := Shift(edges, part, c, v, to), |c.edges2Shard|;
            && |c'.edges2Shard| == n
            && c'.cross - Cross(edges, part[v := to]) == c.cross - Cross(edges, part) - 2 * Loops(edges, v)
            && (Loops(edges, v) == 0 && c == Recount(edges, part, n) ==> c' == Recount(edges, part[v := to], n))
  {
    var c', n := Shift(edges, part, c, v, to), |c.edges2Shard|;
    DriftOfMove(edges, part, v, to, c.edges2Shard, c'.edges2Shard, c.cross, c'.cross);
    if Loops(edges, v) == 0 && c == Recount(edges, part, n) {
      assert c'.edges2Shard == Recount(edges, part[v := to], n).edges2Shard;
    }
  }

  lemma {:induction false} MaintainedDrift(edges: seq<Edge>, part: Placement, run: Trace, n: nat)
    requires MovesOk(part, run, n)
    ensures var c, now := Maintained(edges, part, run, n), AfterMoves(part, run);
            && c.cross == Cross(edges, now) - 2 * LoopsOf(edges, run)
            && (LoopsOf(edges, run) == 0 ==> c == Recount(edges, now, n))
  {
    if run != [] {
      var init, m := run[..|run| - 1], run[|run| - 1];
      MaintainedDrift(edges, part, init, n);
      ShiftDrifts(edges, AfterMoves(part, init), Maintained(edges, part, init, n), m.0, m.1);
    }
  }

  /** After any sequence of moves the counters kept incrementally are those of a fresh
      count if and only if no moved vertex has a self-loop. */
  lemma IncrementalIsRecountIff(edges: seq<Edge>, part: Placement, run: Trace, n: nat)
    requires MovesOk(part, run, n)
    ensures Maintained(edges, part, run, n) == Recount(edges, AfterMoves(part, run), n) <==> LoopsOf(edges, run) == 0
  {
    MaintainedDrift(edges, part, run, n);
  }

  /** The updates of UpdateFromList against the reference counts. */
  lemma DriftOfMove(edges: seq<Edge>, part: Placement, v: Vertex, to: nat, e: seq<int>, e': seq<int>, c: int, c': int)
    requires Shard(part, v) != to && to < |e| == |e'| && Shard(part, v) < |e|
    requires var list, part', from := Neighbours(edges, v), part[v := to], Shard(part, v);
             && e'[to] == e[to] + Out(list, part', to)
             && e'[from] == e[from] - Out(list, part', from)
             && (forall k | 0 <= k < |e| && k != to && k != from :: e'[k] == e[k])
             && c' == c + In(list, part', from) - In(list, part', to)
    ensures forall k | 0 <= k < |e| ::
              e'[k] - Touching(edges, part[v := to], k)
              == e[k] - Touching(edges, part, k) - (if k == Shard(part, v) || k == to then Loops(edges, v) else 0)
    ensures c' - Cross(edges, part[v := to]) == c - Cross(edges, part) - 2 * Loops(edges, v)
  {
    forall k: nat | k < |e|
      ensures e'[k] - Touching(edges, part[v := to], k)
           == e[k] - Touching(edges, part, k) - (if k == Shard(part, v) || k == to then Loops(edges, v) else 0)
    {
      MoveCounts(edges, part, v, to, k);
    }
    MoveCounts(edges, part, v, to, 0);
  }

  method MoveUpdate(list: seq<Vertex>, part: Placement, to: nat, from: nat, e: seq<int>, c: int,
                    ghost edges: seq<Edge>, ghost before: Placement, ghost v: Vertex)
    returns (edges2Shard: seq<int>, cross: int)
    requires to < |e| && from < |e| && to != from && list == Neighbours(edges, v)
    requires Shard(before, v) == from && part == before[v := to]
    ensures |edges2Shard| == |e|
    ensures forall k | 0 <= k < |e| ::
              edges2Shard[k] - Touching(edges, part, k)
              == e[k] - Touching(edges, before, k) - (if k == from || k == to then Loops(edges, v) else 0)
    ensures cross - Cross(edges, part) == c - Cross(edges, before) - 2 * Loops(edges, v)
    ensures Counters(edges2Shard, cross) == Shift(edges, before, Counters(e, c), v, to)
  {
    edges2Shard, cross := UpdateFromList(list, part, to, from, e, c);
    DriftOfMove(edges, before, v, to, e, edges2Shard, c, cross);
  }

  /** v is now where part says and was in shard from: the counters have changed as Shift
      says, by the exact change of the counts short of v's self-loops. */
  ghost predicate Recomputed(edges: seq<Edge>, part: Placement, v: Vertex, from: nat, c: Counters, c': Counters) {
    && |c'.edges2Shard| == |c.edges2Shard| && from < |c.edges2Shard| && v in part && part[v] < |c.edges2Shard|
    && (forall k | 0 <= k < |c.edges2Shard| ::
          c'.edges2Shard[k] - Touching(edges, part, k)
          == c.edges2Shard[k] - Touching(edges, part[v := from], k)
           - (if k == from || k == part[v] then Loops(edges, v) else 0))
    && c'.cross - Cross(edges, part) == c.cross - Cross(edges, part[v := from]) - 2 * Loops(edges, v)
    && c' == Shift(edges, part[v := from], c, v, part[v])
  }

  /** All three updates, for a vertex already placed in its new shard. */
  method Recompute(list: seq<Vertex>, part: Placement, from: nat, e: seq<int>, c: int,
                   ghost edges: seq<Edge>, v: Vertex)
    returns (edges2Shard: seq<int>, cross: int, minEdges: int)
    requires v in part && part[v] < |e| && from < |e| && part[v] != from && list == Neighbours(edges, v)
    ensures |edges2Shard| == |e| && minEdges == MinOf(edges2Shard)
    ensures Recomputed(edges, part, v, from, Counters(e, c), Counters(edges2Shard, cross))
  {
    assert part[v := from][v := part[v]] == part;
    edges2Shard, cross := MoveUpdate(list, part, part[v], from, e, c, edges, part[v := from], v);
    minEdges := FindMin(edges2Shard);
  }

  /** The inner loop of CLPA_Partition: the first best-scored shard among the
      neighbours', or the present one when none scores above -9999. */
  method BestShard(list: seq<Vertex>, part: Placement, now: nat, score: nat -> real) returns (best: nat)
    ensures best == now || exists i :: 0 <= i < |list| && best == Shard(part, list[i])
    ensures IsChoice(list, part, now, score, best)
  {
    best := now;
    var maxScore := -9999.0;
    var computed: map<nat, real> := map[];
    ghost var at := 0;
    for i := 0 to |list|
      invariant maxScore >= -9999.0
      invariant maxScore == -9999.0 ==> best == now
      invariant maxScore > -9999.0 ==>
                  && at < i && best == Shard(part, list[at]) && maxScore == score(best)
                  && forall j | 0 <= j < at :: score(Shard(part, list[j])) < score(best)
      invariant forall k | k in computed :: score(k) <= maxScore
      invariant forall j | 0 <= j < i :: Shard(part, list[j]) in computed
    {
      var uShard := Shard(part, list[i]);
      if uShard !in computed {
        computed := computed[uShard := score(uShard)];
        if maxScore < computed[uShard] {
          maxScore, best, at := computed[uShard], uShard, i;
        }
      }
    }
    if maxScore > -9999.0 { assert FirstBestAt(list, part, score, best, at); }
  }

  /** best is the shard of neighbour i, none scores higher and none before i as high. */
  ghost predicate FirstBestAt(list: seq<Vertex>, part: Placement, score: nat -> real, best: nat, i: nat) {
    && i < |list| && best == Shard(part, list[i])
    && (forall j | 0 <= j < |list| :: score(Shard(part, list[j])) <= score(best))
    && (forall j | 0 <= j < i :: score(Shard(part, list[j])) < score(best))
  }

  ghost predicate FirstBest(list: seq<Vertex>, part: Placement, score: nat -> real, best: nat) {
    exists i: nat :: FirstBestAt(list, part, score, best, i)
  }

  /** What the inner loop settles on: the first best-scored shard among the neighbours',
      or the present one when none scores above -9999. */
  ghost predicate IsChoice(list: seq<Vertex>, part: Placement, now: nat, score: nat -> real, best: nat) {
    if exists u :: u in list && score(Shard(part, u)) > -9999.0
    then score(best) > -9999.0 && FirstBest(list, part, score, best)
    else best == now
  }

  lemma ChoiceIsUnique(list: seq<Vertex>, part: Placement, now: nat, score: nat -> real, a: nat, b: nat)
    requires IsChoice(list, part, now, score, a) && IsChoice(list, part, now, score, b)
    ensures a == b
  {
    if exists u :: u in list && score(Shard(part, u)) > -9999.0 {
      var i: nat :| FirstBestAt(list, part, score, a, i);
      var j: nat :| FirstBestAt(list, part, score, b, j);
    }
  }

  lemma ChoiceSame(list: seq<Vertex>, part: Placement, now: nat, f: nat -> real, g: nat -> real, best: nat)
    requires IsChoice(list, part, now, f, best) && forall u: nat :: f(u) == g(u)
    ensures IsChoice(list, part, now, g, best)
  {
    if exists u :: u in list && f(Shard(part, u)) > -9999.0 {
      var i: nat :| FirstBestAt(list, part, f, best, i);
      assert FirstBestAt(list, part, g, best, i);
    }
  }

  // ------------------------------------------------ what one visit does

  /** What a visit reads and changes. */
  datatype Snap = Snap(part: Placement, counters: Counters, moved: Placement, res: Placement)

  /** The score of each shard for v in a state. */
  function Favour(score: Score, s: Snap, v: Vertex): nat -> real {
    (u: nat) => score(s.part, s.counters.edges2Shard, MinOf(s.counters.edges2Shard), v, u)
  }

  ghost predicate Chosen(edges: seq<Edge>, score: Score, s: Snap, v: Vertex, to: nat) {
    IsChoice(Neighbours(edges, v), s.part, Shard(s.part, v), Favour(score, s, v), to)
  }

  /** The choice does not depend on how often anything was moved. */
  lemma ChosenSame(edges: seq<Edge>, score: Score, s: Snap, s': Snap, v: Vertex, to: nat)
    requires Chosen(edges, score, s, v, to) && s'.part == s.part && s'.counters == s.counters
    ensures Chosen(edges, score, s', v, to)
  {
    ChoiceSame(Neighbours(edges, v), s.part, Shard(s.part, v), Favour(score, s, v), Favour(score, s', v), to);
  }

  /** v stays: its limit is reached, or it is alone in its shard, or that is the choice. */
  ghost predicate Rests(edges: seq<Edge>, vs: set<Vertex>, score: Score, s: Snap, v: Vertex) {
    || Shard(s.moved, v) >= THRESHOLD
    || NumIn(vs, s.part, Shard(s.part, v)) <= 1
    || Chosen(edges, score, s, v, Shard(s.part, v))
  }

  /** v moves to shard to: the only other thing that can happen. */
  ghost predicate MovesTo(edges: seq<Edge>, score: Score, s: Snap, s': Snap, v: Vertex, to: nat) {
    && to < |s.counters.edges2Shard| && Shard(s.part, v) < |s.counters.edges2Shard| && to != Shard(s.part, v)
    && Chosen(edges, score, s, v, to)
    && s' == Moved(edges, s, v, to)
  }

  function Moved(edges: seq<Edge>, s: Snap, v: Vertex, to: nat): Snap
    requires to < |s.counters.edges2Shard| && Shard(s.part, v) < |s.counters.edges2Shard|
  {
    Snap(s.part[v := to], Shift(edges, s.part, s.counters, v, to), s.moved[v := Shard(s.moved, v) + 1], s.res[v := to])
  }

  ghost predicate Visited(edges: seq<Edge>, vs: set<Vertex>, score: Score, s: Snap, s': Snap, v: Vertex) {
    if Rests(edges, vs, score, s, v) then s' == s else MovesTo(edges, score, s, s', v, Shard(s'.part, v))
  }

  lemma VisitMoves(edges: seq<Edge>, vs: set<Vertex>, score: Score, s: Snap, v: Vertex, to: nat)
    requires Chosen(edges, score, s, v, to) && to != Shard(s.part, v)
    requires to < |s.counters.edges2Shard| && Shard(s.part, v) < |s.counters.edges2Shard|
    requires Shard(s.moved, v) < THRESHOLD && NumIn(vs, s.part, Shard(s.part, v)) > 1
    ensures Visited(edges, vs, score, s, Moved(edges, s, v, to), v)
  {
    var now := Shard(s.part, v);
    if Chosen(edges, score, s, v, now) {
      ChoiceIsUnique(Neighbours(edges, v), s.part, now, Favour(score, s, v), now, to);
    }
  }

  /** Every move of a run goes to a shard that held a neighbour of the mover just then. */
  ghost predicate ToNeighbours(edges: seq<Edge>, part0: Placement, run: Trace) {
    run != [] ==>
      var init, m := run[..|run| - 1], run[|run| - 1];
      ToNeighbours(edges, part0, init)
      && exists u :: u in Neighbours(edges, m.0) && Shard(AfterMoves(part0, init), u) == m.1
  }

  lemma ChoiceHoldsNeighbour(list: seq<Vertex>, part: Placement, now: nat, score: nat -> real, best: nat)
    requires IsChoice(list, part, now, score, best) && best != now
    ensures exists u :: u in list && Shard(part, u) == best
  {
    var i: nat :| FirstBestAt(list, part, score, best, i);
    assert list[i] in list;
  }

  lemma ToNeighboursMove(edges: seq<Edge>, score: Score, part0: Placement, run: Trace, s: Snap, v: Vertex, to: nat)
    requires ToNeighbours(edges, part0, run) && s.part == AfterMoves(part0, run)
    requires Chosen(edges, score, s, v, to) && to != Shard(s.part, v)
    ensures ToNeighbours(edges, part0, run + [(v, to)])
  {
    ChoiceHoldsNeighbour(Neighbours(edges, v), s.part, Shard(s.part, v), Favour(score, s, v), to);
    assert (run + [(v, to)])[..|run|] == run;
  }

  // ------------------------------------------------ passes

  type Pass = Sweep<Vertex, Snap>

  ghost function Rule(edges: seq<Edge>, vs: set<Vertex>, score: Score): (Snap, Snap, Vertex) -> bool {
    (s: Snap, s': Snap, v: Vertex) => Visited(edges, vs, score, s, s', v)
  }

  /** A pass visits every vertex once. */
  ghost predicate PassOk(edges: seq<Edge>, vs: set<Vertex>, score: Score, p: Pass) {
    Lists(p.visits, vs) && Steps(Rule(edges, vs, score), p)
  }

  /** A run: passes one after the other, from the first state to the last. */
  ghost predicate RunOk(edges: seq<Edge>, vs: set<Vertex>, score: Score, passes: seq<Pass>, first: Snap, last: Snap) {
    Chained(vs, Rule(edges, vs, score), passes, first, last)
  }

  // ------------------------------------------------ what a run of visits keeps

  /** The state a run starts from. */
  function Start(edges: seq<Edge>, part: Placement, n: nat): Snap {
    Snap(part, Recount(edges, part, n), map[], map[])
  }

  /** The moves made so far account for everything in the state. */
  ghost predicate Explained(edges: seq<Edge>, vs: set<Vertex>, part0: Placement, run: Trace, s: Snap) {
    && Tracked(vs, part0, run, s.part, s.res, s.moved) && ToNeighbours(edges, part0, run)
    && CountsKept(edges, part0, run, s.counters)
  }

  ghost predicate CountsKept(edges: seq<Edge>, part0: Placement, run: Trace, c: Counters) {
    var n := |c.edges2Shard|;
    MovesOk(part0, run, n) && c == Maintained(edges, part0, run, n)
  }

  lemma VisitExplained(edges: seq<Edge>, vs: set<Vertex>, score: Score, part0: Placement, run: Trace,
                       s: Snap, s': Snap, v: Vertex) returns (run': Trace)
    requires Explained(edges, vs, part0, run, s) && Visited(edges, vs, score, s, s', v) && v in vs
    ensures Explained(edges, vs, part0, run', s')
  {
    run' := run;
    if !Rests(edges, vs, score, s, v) {
      var to := Shard(s'.part, v);
      MoveExplained(edges, vs, score, part0, run, s, v, to);
      run' := run + [(v, to)];
    }
  }

  lemma MoveExplained(edges: seq<Edge>, vs: set<Vertex>, score: Score, part0: Placement, run: Trace, s: Snap,
                      v: Vertex, to: nat)
    requires Explained(edges, vs, part0, run, s) && v in vs
    requires to < |s.counters.edges2Shard| && Shard(s.part, v) < |s.counters.edges2Shard|
    requires Chosen(edges, score, s, v, to) && to != Shard(s.part, v)
    requires Shard(s.moved, v) < THRESHOLD && NumIn(vs, s.part, Shard(s.part, v)) > 1
    ensures Explained(edges, vs, part0, run + [(v, to)], Moved(edges, s, v, to))
  {
    TrackedMove(vs, part0, run, s.part, s.res, s.moved, v, to);
    ToNeighboursMove(edges, score, part0, run, s, v, to);
    MaintainedNext(edges, part0, run, s.counters, v, to);
  }

  lemma MaintainedNext(edges: seq<Edge>, part0: Placement, run: Trace, c: Counters, v: Vertex, to: nat)
    requires CountsKept(edges, part0, run, c) && to < |c.edges2Shard|
    requires var from := Shard(AfterMoves(part0, run), v); from < |c.edges2Shard| && from != to
    ensures CountsKept(edges, part0, run + [(v, to)], Shift(edges, AfterMoves(part0, run), c, v, to))
  {
    assert (run + [(v, to)])[..|run|] == run;
  }

  lemma {:induction false} PassExplained(edges: seq<Edge>, vs: set<Vertex>, score: Score, part0: Placement, run: Trace,
                                         p: Pass, i: nat) returns (run': Trace)
    requires PassOk(edges, vs, score, p) && i <= |p.visits| && Explained(edges, vs, part0, run, p.states[0])
    ensures Explained(edges, vs, part0, run', p.states[i])
  {
    if i == 0 {
      run' := run;
    } else {
      run' := PassExplained(edges, vs, score, part0, run, p, i - 1);
      run' := StepExplained(edges, vs, score, part0, run', p, i - 1);
    }
  }

  lemma StepExplained(edges: seq<Edge>, vs: set<Vertex>, score: Score, part0: Placement, run: Trace, p: Pass, i: nat)
    returns (run': Trace)
    requires PassOk(edges, vs, score, p) && i < |p.visits| && Explained(edges, vs, part0, run, p.states[i])
    ensures Explained(edges, vs, part0, run', p.states[i + 1])
  {
    assert StepAt(Rule(edges, vs, score), p, i) && p.visits[i] in p.visits;
    run' := VisitExplained(edges, vs, score, part0, run, p.states[i], p.states[i + 1], p.visits[i]);
  }

  lemma {:induction false} RunExplained(edges: seq<Edge>, vs: set<Vertex>, score: Score, passes: seq<Pass>,
                                        part0: Placement, n: nat, last: Snap) returns (run: Trace)
    requires RunOk(edges, vs, score, passes, Start(edges, part0, n), last)
    ensures Explained(edges, vs, part0, run, last)
    decreases |passes|
  {
    if passes == [] {
      run := [];
    } else {
      var p := passes[|passes| - 1];
      run := RunExplained(edges, vs, score, passes[..|passes| - 1], part0, n, p.states[0]);
      run := PassExplained(edges, vs, score, part0, run, p, |p.visits|);
    }
  }

  class ClpaState {
    const shardNum: nat
    var vertexSet: set<Vertex>
    var edgeSet: map<Vertex, seq<Vertex>>
    var part: Placement
    var edges2Shard: seq<int>
    var vertexsNum: seq<int>
    var minEdges: int
    var cross: int
    ghost var edges: seq<Edge>     // the edges added so far

    ghost predicate GraphOk()
      reads this
    {
      && shardNum > 0 && |vertexsNum| == shardNum
      && edgeSet.Keys <= vertexSet && Adjacency(edgeSet, edges)
      && (forall v | v in vertexSet :: v in part && part[v] < shardNum)
    }

    /** VertexsNumInShard holds the true populations. */
    ghost predicate PopulationOk()
      reads this
    {
      |vertexsNum| == shardNum && forall k | 0 <= k < shardNum :: vertexsNum[k] == NumIn(vertexSet, part, k)
    }

    /** The edge counters equal a recount. */
    ghost predicate CountersOk()
      reads this
    {
      && |edges2Shard| == shardNum
      && (forall k | 0 <= k < shardNum :: edges2Shard[k] == Touching(edges, part, k))
      && cross == Cross(edges, part)
      && minEdges == MinOf(edges2Shard)
    }

    constructor (shards: nat)
      requires shards > 0
      ensures shardNum == shards && edges == [] && vertexSet == {} && part == map[] && GraphOk() && PopulationOk()
    {
      shardNum := shards;
      vertexSet, edgeSet, part, edges := {}, map[], map[], [];
      edges2Shard, vertexsNum, minEdges, cross := [], seq(shards, _ => 0), 0, 0;
      new;
      forall k | 0 <= k < shards ensures NumIn(vertexSet, part, k) == 0 {
        assert (set v | v in vertexSet && Shard(part, v) == k) == {};
      }
    }

    /** AddVertex counts v every time: the populations stay right exactly when v is new. */
    method AddVertex(v: Vertex)
      requires GraphOk() && PopulationOk()
      requires v in part ==> part[v] < shardNum
      modifies this`vertexSet, this`part, this`vertexsNum
      ensures GraphOk() && vertexSet == old(vertexSet) + {v}
      ensures part == WithHome(old(part), v, shardNum)
      ensures PopulationOk() <==> v !in old(vertexSet)
    {
      ghost var vs, p := vertexSet, part;
      vertexSet := vertexSet + {v};
      if v !in part {
        part := part[v := Ledger.HomeShard(v, shardNum)];
      }
      vertexsNum := vertexsNum[part[v] := vertexsNum[part[v]] + 1];
      forall k: nat | k < shardNum
        ensures NumIn(vertexSet, part, k) == NumIn(vs, p, k) + B(v !in vs && k == part[v])
      {
        NumInAdd(vs, p, part, v, k);
      }
      assert v in vs ==> vertexsNum[part[v]] != NumIn(vertexSet, part, part[v]);
    }

    method AddEdge(u: Vertex, v: Vertex)
      requires GraphOk() && PopulationOk()
      requires forall x | x in part :: part[x] < shardNum
      modifies this`vertexSet, this`part, this`vertexsNum, this`edgeSet, this`edges
      ensures GraphOk() && PopulationOk() && edges == old(edges) + [(u, v)]
      ensures vertexSet == old(vertexSet) + {u, v}
      ensures part == WithHome(WithHome(old(part), u, shardNum), v, shardNum)
      ensures forall x | x in part :: part[x] < shardNum
    {
      EnsureVertex(u);
      EnsureVertex(v);
      Link(u, v);
    }

    method EnsureVertex(v: Vertex)
      requires GraphOk() && PopulationOk()
      requires forall x | x in part :: part[x] < shardNum
      modifies this`vertexSet, this`part, this`vertexsNum
      ensures GraphOk() && PopulationOk() && vertexSet == old(vertexSet) + {v}
      ensures part == WithHome(old(part), v, shardNum)
      ensures forall x | x in part :: part[x] < shardNum
    {
      if v !in vertexSet { AddVertex(v); }
    }

    /** Graph.AddEdge on two known vertices: an undirected edge, entered in both lists. */
    method Link(u: Vertex, v: Vertex)
      requires GraphOk() && u in vertexSet && v in vertexSet
      modifies this`edgeSet, this`edges
      ensures GraphOk() && edges == old(edges) + [(u, v)]
    {
      LinkedKeeps(edgeSet, edges, u, v);
      edgeSet := edgeSet[u := (if u in edgeSet then edgeSet[u] else []) + [v]];
      edgeSet := edgeSet[v := (if v in edgeSet then edgeSet[v] else []) + [u]];
      edges := edges + [(u, v)];
    }

    method ComputeEdges2Shard()
      requires GraphOk()
      modifies this`edges2Shard, this`minEdges, this`cross
      ensures CountersOk()
    {
      forall v | v in edgeSet ensures forall u | u in edgeSet[v] :: Shard(part, u) < shardNum { NeighboursPlaced(v); }
      var inbound, interEdge := ScanGraph(edgeSet, part, shardNum, edges);
      cross := SumUp(inbound);
      SumIsInbound(inbound, edges, part, edgeSet.Keys);
      Handshake(edges, part, edgeSet.Keys, shardNum);
      cross := cross / 2;
      edges2Shard := Halve(inbound, interEdge);
      forall k: nat | k < shardNum ensures edges2Shard[k] == Touching(edges, part, k) {
        ScanAll(edges, part, edgeSet.Keys, k);
      }
      minEdges := FindMin(edges2Shard);
    }

    lemma NeighboursPlaced(v: Vertex)
      requires GraphOk() && v in edgeSet
      ensures forall u | u in edgeSet[v] :: Shard(part, u) < shardNum
    {
      forall u | u in edgeSet[v] ensures Shard(part, u) < shardNum { NeighbourIsEnd(edges, v, u); }
    }

    /** The counters have drifted from a recount by the self-loops of the moved
        vertices: lost of them in all. */
    ghost predicate Drifted(lost: nat)
      reads this
    {
      && |edges2Shard| == shardNum && minEdges == MinOf(edges2Shard)
      && cross == Cross(edges, part) - 2 * lost
      && (lost == 0 ==> forall k | 0 <= k < shardNum :: edges2Shard[k] == Touching(edges, part, k))
    }

    lemma ListIs(v: Vertex)
      requires GraphOk()
      ensures (if v in edgeSet then edgeSet[v] else []) == Neighbours(edges, v)
    {
    }

    /** changeShardRecompute updates the counters from the mover's list alone. Each
        self-loop of the mover costs the two shards one edge and the cross count two. */
    method ChangeShardRecompute(v: Vertex, from: nat)
      requires GraphOk() && v in vertexSet && from < shardNum && part[v] != from && |edges2Shard| == shardNum
      modifies this`edges2Shard, this`minEdges, this`cross
      ensures |edges2Shard| == shardNum && minEdges == MinOf(edges2Shard)
      ensures Recomputed(edges, part, v, from, Counters(old(edges2Shard), old(cross)), Counters(edges2Shard, cross))
    {
      var list := if v in edgeSet then edgeSet[v] else [];
      ListIs(v);
      edges2Shard, cross, minEdges := Recompute(list, part, from, edges2Shard, cross, edges, v);
    }

    /** One accepted move. The populations always stay right; the edge counters
        drift by exactly the mover's self-loops. */
    method Move(v: Vertex, to: nat, ghost lost: nat)
      requires GraphOk() && PopulationOk() && v in vertexSet && to < shardNum && part[v] != to
      requires Drifted(lost)
      modifies this`part, this`vertexsNum, this`edges2Shard, this`minEdges, this`cross
      ensures GraphOk() && PopulationOk() && part == old(part)[v := to]
      ensures Drifted(lost + Loops(edges, v))
      ensures CountersOk() <==> lost + Loops(edges, v) == 0
      ensures Counters(edges2Shard, cross) == Shift(edges, old(part), Counters(old(edges2Shard), old(cross)), v, to)
    {
      var from := part[v];
      forall k | 0 <= k < shardNum
        ensures NumIn(vertexSet, part[v := to], k)
                == NumIn(vertexSet, part, k) + (if k == to then 1 else 0) - (if k == from then 1 else 0)
      {
        NumInMove(vertexSet, part, v, to, k);
      }
      ghost var before := part;
      part := part[v := to];
      assert part[v := from] == before;
      vertexsNum := vertexsNum[from := vertexsNum[from] - 1];
      vertexsNum := vertexsNum[to := vertexsNum[to] + 1];
      ChangeShardRecompute(v, from);
    }

    method Choose(v: Vertex, score: Score) returns (best: nat)
      requires GraphOk() && v in vertexSet && minEdges == MinOf(edges2Shard)
      ensures best < shardNum && Chosen(edges, score, Now(map[], map[]), v, best)
    {
      var list := if v in edgeSet then edgeSet[v] else [];
      if v in edgeSet { NeighboursPlaced(v); }
      var p, e, m := part, edges2Shard, minEdges;
      best := BestShard(list, part, part[v], (u: nat) => score(p, e, m, v, u));
      ChoiceSame(list, part, part[v], (u: nat) => score(p, e, m, v, u), Favour(score, Now(map[], map[]), v), best);
    }

    ghost function Now(res: Placement, moved: Placement): Snap
      reads this
    {
      Snap(part, Counters(edges2Shard, cross), moved, res)
    }

    /** One vertex of one pass. It moves exactly when its limit is not reached, its shard
        has another vertex and the choice is another shard, and then it moves there. The
        counters then equal a recount exactly when no mover so far has a self-loop. */
    method Visit(v: Vertex, score: Score, res: Placement, moved: Placement, ghost lost: nat)
      returns (res': Placement, moved': Placement, ghost lost': nat)
      requires GraphOk() && PopulationOk() && Drifted(lost) && v in vertexSet
      modifies this`part, this`vertexsNum, this`edges2Shard, this`minEdges, this`cross
      ensures GraphOk() && PopulationOk() && Drifted(lost')
      ensures lost' == lost + if part == old(part) then 0 else Loops(edges, v)
      ensures CountersOk() <==> lost' == 0
      ensures Visited(edges, vertexSet, score, old(Now(res, moved)), Now(res', moved'), v)
    {
      res', moved', lost' := res, moved, lost;
      var to := Target(v, score, moved, res);
      if to != part[v] {
        lost' := lost + Loops(edges, v);
        res', moved' := Relocate(v, to, res, moved, lost);
      }
    }

    /** A move with its bookkeeping. */
    method Relocate(v: Vertex, to: nat, res: Placement, moved: Placement, ghost lost: nat)
      returns (res': Placement, moved': Placement)
      requires GraphOk() && PopulationOk() && v in vertexSet && to < shardNum && part[v] != to && Drifted(lost)
      modifies this`part, this`vertexsNum, this`edges2Shard, this`minEdges, this`cross
      ensures GraphOk() && PopulationOk() && part != old(part)
      ensures Drifted(lost + Loops(edges, v)) && (CountersOk() <==> lost + Loops(edges, v) == 0)
      ensures Now(res', moved') == Moved(edges, old(Now(res, moved)), v, to)
    {
      res', moved' := res[v := to], moved[v := Shard(moved, v) + 1];
      Move(v, to, lost);
      assert part[v] == to;
    }

    /** Where the visit of v leaves it. */
    method Target(v: Vertex, score: Score, moved: Placement, ghost res: Placement) returns (to: nat)
      requires GraphOk() && PopulationOk() && v in vertexSet
      requires |edges2Shard| == shardNum && minEdges == MinOf(edges2Shard)
      ensures to < shardNum
      ensures to == part[v] ==> Visited(edges, vertexSet, score, Now(res, moved), Now(res, moved), v)
      ensures to != part[v] ==>
                Visited(edges, vertexSet, score, Now(res, moved), Moved(edges, Now(res, moved), v, to), v)
    {
      to := part[v];
      if Shard(moved, v) >= THRESHOLD { return; }
      var best := Choose(v, score);
      ghost var s := Now(res, moved);
      ChosenSame(edges, score, Now(map[], map[]), s, v, best);
      if to != best && vertexsNum[to] > 1 {
        VisitMoves(edges, vertexSet, score, s, v, best);
        to := best;
      }
    }

    /** One pass over the vertices, in any order. */
    method OnePass(score: Score, res: Placement, moved: Placement, ghost lost: nat)
      returns (res': Placement, moved': Placement, ghost lost': nat, ghost pass: Pass)
      requires GraphOk() && PopulationOk() && Drifted(lost)
      modifies this`part, this`vertexsNum, this`edges2Shard, this`minEdges, this`cross
      ensures GraphOk() && PopulationOk() && Drifted(lost')
      ensures Swept(vertexSet, Rule(edges, vertexSet, score), pass, old(Now(res, moved)), Now(res', moved'))
    {
      res', moved', lost', pass := res, moved, lost, Sweep([], [Now(res, moved)]);
      ghost var rule := Rule(edges, vertexSet, score);
      var todo := vertexSet;
      while todo != {}
        invariant GraphOk() && PopulationOk() && Drifted(lost')
        invariant Partly(vertexSet, rule, pass, todo, old(Now(res, moved)), Now(res', moved'))
        decreases todo
      {
        var v :| v in todo;
        ghost var before := Now(res', moved');
        res', moved', lost' := Visit(v, score, res', moved', lost');
        PartlyAdd(vertexSet, rule, pass, todo, old(Now(res, moved)), before, v, Now(res', moved'));
        pass := Sweep(pass.visits + [v], pass.states + [Now(res', moved')]);
        todo := todo - {v};
      }
      PartlyAll(vertexSet, rule, pass, old(Now(res, moved)), Now(res', moved'));
    }

    /** The whole algorithm, for every order in which the vertices are visited and
        every score: as many passes as asked for, each over all vertices, each visit
        doing what Visited says. */
    method ClpaPartition(maxIterations: nat, score: Score)
      returns (res: Placement, crossEdges: int, ghost run: Trace, ghost passes: seq<Pass>, ghost last: Snap)
      requires GraphOk() && PopulationOk()
      modifies this`part, this`vertexsNum, this`edges2Shard, this`minEdges, this`cross
      ensures GraphOk() && PopulationOk() && CountersOk() && crossEdges == Cross(edges, part)
      ensures part == AfterMoves(old(part), run) == old(part) + res
      ensures forall v: Vertex :: TimesMoved(run, v) <= THRESHOLD && (v in res <==> TimesMoved(run, v) > 0)
      ensures NeverEmptied(vertexSet, old(part), run) && ToNeighbours(edges, old(part), run)
      ensures |passes| == maxIterations && last.part == part
      ensures RunOk(edges, vertexSet, score, passes, Start(edges, old(part), shardNum), last)
    {
      ComputeEdges2Shard();
      ghost var first := Start(edges, part, shardNum);
      assert edges2Shard == first.counters.edges2Shard;
      ghost var lost := 0;
      var moved: Placement := map[];
      res, passes := map[], [];
      for iter := 0 to maxIterations
        invariant GraphOk() && PopulationOk() && Drifted(lost)
        invariant |passes| == iter && RunOk(edges, vertexSet, score, passes, first, Now(res, moved))
      {
        ghost var before, pass := Now(res, moved), Sweep([], []);
        res, moved, lost, pass := OnePass(score, res, moved, lost);
        ChainedAdd(vertexSet, Rule(edges, vertexSet, score), passes, first, before, pass, Now(res, moved));
        passes := passes + [pass];
      }
      last := Now(res, moved);
      run := RunExplained(edges, vertexSet, score, passes, old(part), shardNum, last);
      ComputeEdges2Shard();
      crossEdges := cross;
    }
  }

  lemma {:induction false} NeighbourIsEnd(edges: seq<Edge>, v: Vertex, u: Vertex)
    requires u in Neighbours(edges, v)
    ensures exists i :: 0 <= i < |edges| && (edges[i].0 == u || edges[i].1 == u)
    decreases |edges|
  {
    var init, e := edges[..|edges| - 1], edges[|edges| - 1];
    if u in Neighbours(init, v) {
      NeighbourIsEnd(init, v, u);
      var i :| 0 <= i < |init| && (init[i].0 == u || init[i].1 == u);
      assert edges[i] == init[i];
    } else {
      assert edges[|edges| - 1].0 == u || edges[|edges| - 1].1 == u;
    }
  }
}
