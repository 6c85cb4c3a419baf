/** The transaction multigraph and what the CLPA counters mean: counts over the
    list of edges, independent of how the adjacency lists are scanned
    (partition/graph.go, partition/partition_CLPA.go). */
module Graphs {
  type Vertex = nat
  type Edge = (Vertex, Vertex)
  type Placement = map<Vertex, nat>

  /** A missing vertex reads as shard 0. */
  function Shard(part: Placement, v: Vertex): nat {
    if v in part then part[v] else 0
  }

  function B(b: bool): nat { if b then 1 else 0 }

  /** The adjacency list of v after the edges have been added one by one. */
  function Neighbours(edges: seq<Edge>, v: Vertex): seq<Vertex> {
    if edges == [] then []
    else
      var e := edges[|edges| - 1];
      Neighbours(edges[..|edges| - 1], v) + (if e.0 == v then [e.1] else []) + (if e.1 == v then [e.0] else [])
  }

  // ------------------------------------------------ reference counts

  /** Edges between different shards. */
  function Cross(edges: seq<Edge>, part: Placement): nat {
    if edges == [] then 0
    else
      var e := edges[|edges| - 1];
      Cross(edges[..|edges| - 1], part) + B(Shard(part, e.0) != Shard(part, e.1))
  }

  /** Edges with an end in shard k. */
  function Touching(edges: seq<Edge>, part: Placement, k: nat): nat {
    if edges == [] then 0
    else
      var e := edges[|edges| - 1];
      Touching(edges[..|edges| - 1], part, k) + B(Shard(part, e.0) == k || Shard(part, e.1) == k)
  }

  function Loops(edges: seq<Edge>, v: Vertex): nat {
    if edges == [] then 0
    else
      var e := edges[|edges| - 1];
      Loops(edges[..|edges| - 1], v) + B(e.0 == v && e.1 == v)
  }

  // ------------------------------------------------ counting along adjacency lists

  /** Members of a list in shard k, and members outside it. */
  function In(list: seq<Vertex>, part: Placement, k: nat): nat {
    if list == [] then 0 else In(list[..|list| - 1], part, k) + B(Shard(part, list[|list| - 1]) == k)
  }

  function Out(list: seq<Vertex>, part: Placement, k: nat): nat {
    if list == [] then 0 else Out(list[..|list| - 1], part, k) + B(Shard(part, list[|list| - 1]) != k)
  }

  lemma {:induction false} InAppend(xs: seq<Vertex>, ys: seq<Vertex>, part: Placement, k: nat)
    ensures In(xs + ys, part, k) == In(xs, part, k) + In(ys, part, k)
    ensures Out(xs + ys, part, k) == Out(xs, part, k) + Out(ys, part, k)
    decreases |ys|
  {
    if ys == [] {
      assert xs + ys == xs;
    } else {
      assert (xs + ys)[..|xs + ys| - 1] == xs + ys[..|ys| - 1];
      InAppend(xs, ys[..|ys| - 1], part, k);
    }
  }

  /** The list of v after one more edge. */
  lemma NeighboursCount(edges: seq<Edge>, part: Placement, v: Vertex, k: nat)
    requires edges != []
    ensures var e, init := edges[|edges| - 1], edges[..|edges| - 1];
            && In(Neighbours(edges, v), part, k)
               == In(Neighbours(init, v), part, k)
                + B(e.0 == v && Shard(part, e.1) == k) + B(e.1 == v && Shard(part, e.0) == k)
            && Out(Neighbours(edges, v), part, k)
               == Out(Neighbours(init, v), part, k)
                + B(e.0 == v && Shard(part, e.1) != k) + B(e.1 == v && Shard(part, e.0) != k)
  {
    var e, init := edges[|edges| - 1], edges[..|edges| - 1];
    var xs := if e.0 == v then [e.1] else [];
    var ys := if e.1 == v then [e.0] else [];
    InAppend(Neighbours(init, v) + xs, ys, part, k);
    InAppend(Neighbours(init, v), xs, part, k);
    assert forall u: Vertex :: [u][..0] == [];
    assert In(xs, part, k) == B(e.0 == v && Shard(part, e.1) == k)
           && Out(xs, part, k) == B(e.0 == v && Shard(part, e.1) != k);
    assert In(ys, part, k) == B(e.1 == v && Shard(part, e.0) == k)
           && Out(ys, part, k) == B(e.1 == v && Shard(part, e.0) != k);
  }

  // ------------------------------------------------ a full scan

  /** Entries u in the lists of the vertices in done, with u in shard k and the
      list's owner in another shard, or in the same one. */
  function Inbound(edges: seq<Edge>, part: Placement, done: set<Vertex>, k: nat): nat {
    if edges == [] then 0
    else
      var e := edges[|edges| - 1];
      var a, b := Shard(part, e.0), Shard(part, e.1);
      Inbound(edges[..|edges| - 1], part, done, k) + B(e.0 in done && a != b && b == k)
          + B(e.1 in done && a != b && a == k)
  }

  function Inner(edges: seq<Edge>, part: Placement, done: set<Vertex>, k: nat): nat {
    if edges == [] then 0
    else
      var e := edges[|edges| - 1];
      var a, b := Shard(part, e.0), Shard(part, e.1);
      Inner(edges[..|edges| - 1], part, done, k) + B(e.0 in done && a == b == k) + B(e.1 in done && a == b == k)
  }

  lemma {:induction false} ScanNone(edges: seq<Edge>, part: Placement, k: nat)
    ensures Inbound(edges, part, {}, k) == 0 && Inner(edges, part, {}, k) == 0
  {
    if edges != [] { ScanNone(edges[..|edges| - 1], part, k); }
  }

  /** Scanning the list of one more vertex. */
  lemma {:induction false} ScanOne(edges: seq<Edge>, part: Placement, done: set<Vertex>, v: Vertex, k: nat)
    requires v !in done
    ensures var c := In(Neighbours(edges, v), part, k);
            && Inbound(edges, part, done + {v}, k)
               == Inbound(edges, part, done, k) + (if Shard(part, v) != k then c else 0)
            && Inner(edges, part, done + {v}, k) == Inner(edges, part, done, k) + (if Shard(part, v) == k then c else 0)
  {
    if edges != [] {
      ScanOne(edges[..|edges| - 1], part, done, v, k);
      NeighboursCount(edges, part, v, k);
    }
  }

  ghost predicate Within(edges: seq<Edge>, vs: set<Vertex>) {
    forall i | 0 <= i < |edges| :: edges[i].0 in vs && edges[i].1 in vs
  }

  /** After all lists: the inner count is even, and halving it gives the edges touching k. */
  lemma {:induction false} ScanAll(edges: seq<Edge>, part: Placement, vs: set<Vertex>, k: nat)
    requires Within(edges, vs)
    ensures Inner(edges, part, vs, k) % 2 == 0
    ensures Inbound(edges, part, vs, k) + Inner(edges, part, vs, k) / 2 == Touching(edges, part, k)
  {
    if edges != [] {
      var init := edges[..|edges| - 1];
      assert Within(init, vs);
      assert edges[|edges| - 1].0 in vs && edges[|edges| - 1].1 in vs;
      ScanAll(init, part, vs, k);
    }
  }

  function SumInbound(edges: seq<Edge>, part: Placement, vs: set<Vertex>, n: nat): nat {
    if n == 0 then 0 else SumInbound(edges, part, vs, n - 1) + Inbound(edges, part, vs, n - 1)
  }

  lemma {:induction false} SumInboundStep(edges: seq<Edge>, part: Placement, vs: set<Vertex>, n: nat)
    requires edges != []
    ensures var e := edges[|edges| - 1];
            var a, b := Shard(part, e.0), Shard(part, e.1);
            SumInbound(edges, part, vs, n)
            == SumInbound(edges[..|edges| - 1], part, vs, n) + B(e.0 in vs && a != b && b < n)
                + B(e.1 in vs && a != b && a < n)
  {
    if n > 0 { SumInboundStep(edges, part, vs, n - 1); }
  }

  /** Handshake: every cross edge is met twice, so halving the sum is exact. */
  lemma {:induction false} Handshake(edges: seq<Edge>, part: Placement, vs: set<Vertex>, n: nat)
    requires Within(edges, vs) && forall v | v in vs :: Shard(part, v) < n
    ensures SumInbound(edges, part, vs, n) == 2 * Cross(edges, part)
    decreases |edges|
  {
    if edges == [] {
      SumInboundEmpty(part, vs, n);
    } else {
      var e := edges[|edges| - 1];
      assert Within(edges[..|edges| - 1], vs);
      assert e.0 in vs && e.1 in vs;
      SumInboundStep(edges, part, vs, n);
      Handshake(edges[..|edges| - 1], part, vs, n);
    }
  }

  lemma {:induction false} SumInboundEmpty(part: Placement, vs: set<Vertex>, n: nat)
    ensures SumInbound([], part, vs, n) == 0
  {
    if n > 0 { SumInboundEmpty(part, vs, n - 1); }
  }

  // ------------------------------------------------ moving one vertex

  /** What one move does to every reference count, in terms of the mover's own
      list alone. Each self-loop of the mover is off by one in the two shards it
      leaves and enters, and by two in the cross count. */
  lemma {:induction false} MoveCounts(edges: seq<Edge>, part: Placement, v: Vertex, to: nat, k: nat)
    requires Shard(part, v) != to
    ensures var part', from, list := part[v := to], Shard(part, v), Neighbours(edges, v);
            && Touching(edges, part', to) == Touching(edges, part, to) + Out(list, part', to) + Loops(edges, v)
            && Touching(edges, part', from) + Out(list, part', from) == Touching(edges, part, from) + Loops(edges, v)
            && (k != from && k != to ==> Touching(edges, part', k) == Touching(edges, part, k))
            && Cross(edges, part') + In(list, part', to)
               == Cross(edges, part) + In(list, part', from) + 2 * Loops(edges, v)
  {
    if edges != [] {
      var part', from := part[v := to], Shard(part, v);
      MoveCounts(edges[..|edges| - 1], part, v, to, k);
      NeighboursCount(edges, part', v, to);
      NeighboursCount(edges, part', v, from);
    }
  }
}
