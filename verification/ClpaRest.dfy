/** When CLPA has come to rest: a pass without moves settles the run, and enough passes
    always contain one. */
module ClpaRest {
  import opened Sweeps
  import opened Graphs
  import opened Clpa

  ghost predicate AllRest(edges: seq<Edge>, vs: set<Vertex>, score: Score, s: Snap) {
    forall v | v in vs :: Rests(edges, vs, score, s, v)
  }

  /** Nothing was moved in the pass. */
  predicate Quiet(p: Pass)
    requires |p.states| == |p.visits| + 1
  {
    p.states[|p.visits|].moved == p.states[0].moved
  }

  // ------------------------------------------------ one pass

  lemma StepCounts(edges: seq<Edge>, vs: set<Vertex>, score: Score, p: Pass, i: nat, v: Vertex)
    requires Steps(Rule(edges, vs, score), p) && i < |p.visits|
    ensures var s, s' := p.states[i], p.states[i + 1];
            && Shard(s.moved, v) <= Shard(s'.moved, v)
            && (Rests(edges, vs, score, s, p.visits[i]) ==> s' == s)
            && (!Rests(edges, vs, score, s, p.visits[i]) && v == p.visits[i]
                ==> Shard(s'.moved, v) == Shard(s.moved, v) + 1)
  {
    assert StepAt(Rule(edges, vs, score), p, i);
  }

  lemma {:induction false} CountsGrow(edges: seq<Edge>, vs: set<Vertex>, score: Score, p: Pass, i: nat, j: nat,
                                      v: Vertex)
    requires Steps(Rule(edges, vs, score), p) && i <= j <= |p.visits|
    ensures Shard(p.states[i].moved, v) <= Shard(p.states[j].moved, v)
    decreases j
  {
    if i < j {
      CountsGrow(edges, vs, score, p, i, j - 1, v);
      StepCounts(edges, vs, score, p, j - 1, v);
    }
  }

  /** A visit that moves its vertex shows in the counts at the end of the pass. */
  lemma MoveShows(edges: seq<Edge>, vs: set<Vertex>, score: Score, p: Pass, i: nat)
    requires Steps(Rule(edges, vs, score), p) && i < |p.visits| && !Rests(edges, vs, score, p.states[i], p.visits[i])
    ensures Shard(p.states[0].moved, p.visits[i]) < Shard(p.states[|p.visits|].moved, p.visits[i])
  {
    var v := p.visits[i];
    CountsGrow(edges, vs, score, p, 0, i, v);
    StepCounts(edges, vs, score, p, i, v);
    CountsGrow(edges, vs, score, p, i + 1, |p.visits|, v);
  }

  lemma {:induction false} AllStepsRest(edges: seq<Edge>, vs: set<Vertex>, score: Score, p: Pass, i: nat)
    requires Steps(Rule(edges, vs, score), p) && i <= |p.visits|
    requires forall k | 0 <= k < |p.visits| :: Rests(edges, vs, score, p.states[k], p.visits[k])
    ensures p.states[i] == p.states[0]
  {
    if i > 0 {
      AllStepsRest(edges, vs, score, p, i - 1);
      StepCounts(edges, vs, score, p, i - 1, p.visits[i - 1]);
    }
  }

  /** A pass without moves leaves the state as it was, and every vertex at rest in it. */
  lemma QuietPassAtRest(edges: seq<Edge>, vs: set<Vertex>, score: Score, p: Pass)
    requires PassOk(edges, vs, score, p) && Quiet(p)
    ensures p.states[|p.visits|] == p.states[0] && AllRest(edges, vs, score, p.states[0])
  {
    forall k | 0 <= k < |p.visits| ensures Rests(edges, vs, score, p.states[k], p.visits[k]) {
      if !Rests(edges, vs, score, p.states[k], p.visits[k]) { MoveShows(edges, vs, score, p, k); }
    }
    AllStepsRest(edges, vs, score, p, |p.visits|);
    forall v | v in vs ensures Rests(edges, vs, score, p.states[0], v) {
      assert v in p.visits;
      var k :| 0 <= k < |p.visits| && p.visits[k] == v;
      AllStepsRest(edges, vs, score, p, k);
    }
  }

  lemma {:induction false} RestStays(edges: seq<Edge>, vs: set<Vertex>, score: Score, p: Pass, i: nat)
    requires PassOk(edges, vs, score, p) && i <= |p.visits| && AllRest(edges, vs, score, p.states[0])
    ensures p.states[i] == p.states[0]
  {
    if i > 0 {
      RestStays(edges, vs, score, p, i - 1);
      assert p.visits[i - 1] in p.visits;
      StepCounts(edges, vs, score, p, i - 1, p.visits[i - 1]);
    }
  }

  // ------------------------------------------------ a run

  /** One pass without moves, and the run has come to rest: no later pass changes anything. */
  lemma {:induction false} QuietPassSettles(edges: seq<Edge>, vs: set<Vertex>, score: Score, passes: seq<Pass>,
                                            first: Snap, last: Snap, k: nat)
    requires RunOk(edges, vs, score, passes, first, last) && k < |passes|
    requires |passes[k].states| == |passes[k].visits| + 1 && Quiet(passes[k])
    ensures AllRest(edges, vs, score, last) && last == passes[k].states[0]
    decreases |passes|
  {
    var p := passes[|passes| - 1];
    if k == |passes| - 1 {
      QuietPassAtRest(edges, vs, score, p);
    } else {
      assert passes[..|passes| - 1][k] == passes[k];
      QuietPassSettles(edges, vs, score, passes[..|passes| - 1], first, p.states[0], k);
      RestStays(edges, vs, score, p, |p.visits|);
    }
  }

  function TotalMoved(order: seq<Vertex>, moved: Placement): nat {
    if order == [] then 0 else TotalMoved(order[..|order| - 1], moved) + Shard(moved, order[|order| - 1])
  }

  lemma {:induction false} TotalAtMost(order: seq<Vertex>, moved: Placement, limit: nat)
    requires forall v: Vertex :: Shard(moved, v) <= limit
    ensures TotalMoved(order, moved) <= |order| * limit
  {
    if order != [] {
      TotalAtMost(order[..|order| - 1], moved, limit);
      assert |order| * limit == (|order| - 1) * limit + limit;
    }
  }

  lemma {:induction false} TotalGrows(order: seq<Vertex>, moved: Placement, moved': Placement, v: Vertex)
    requires forall u: Vertex :: Shard(moved, u) <= Shard(moved', u)
    ensures TotalMoved(order, moved) <= TotalMoved(order, moved')
    ensures v in order && Shard(moved, v) < Shard(moved', v) ==> TotalMoved(order, moved) < TotalMoved(order, moved')
  {
    if order != [] {
      assert order == order[..|order| - 1] + [order[|order| - 1]];
      TotalGrows(order[..|order| - 1], moved, moved', v);
    }
  }

  /** A pass with a move adds to the total. */
  lemma LoudPassAdds(edges: seq<Edge>, vs: set<Vertex>, score: Score, p: Pass, order: seq<Vertex>)
    requires PassOk(edges, vs, score, p) && !Quiet(p) && Lists(order, vs)
    ensures TotalMoved(order, p.states[0].moved) < TotalMoved(order, p.states[|p.visits|].moved)
  {
    if forall k | 0 <= k < |p.visits| :: Rests(edges, vs, score, p.states[k], p.visits[k]) {
      AllStepsRest(edges, vs, score, p, |p.visits|);
    } else {
      var k :| 0 <= k < |p.visits| && !Rests(edges, vs, score, p.states[k], p.visits[k]);
      var v := p.visits[k];
      MoveShows(edges, vs, score, p, k);
      forall u: Vertex ensures Shard(p.states[0].moved, u) <= Shard(p.states[|p.visits|].moved, u) {
        CountsGrow(edges, vs, score, p, 0, |p.visits|, u);
      }
      assert v in p.visits;
      TotalGrows(order, p.states[0].moved, p.states[|p.visits|].moved, v);
    }
  }

  /** A run that has not come to rest has moved something in every pass. */
  lemma {:induction false} RestlessRunMoves(edges: seq<Edge>, vs: set<Vertex>, score: Score, passes: seq<Pass>,
                                            first: Snap, last: Snap, order: seq<Vertex>)
    requires RunOk(edges, vs, score, passes, first, last) && Lists(order, vs)
    ensures AllRest(edges, vs, score, last) || TotalMoved(order, last.moved) >= |passes|
    decreases |passes|
  {
    if passes != [] {
      var p := passes[|passes| - 1];
      RestlessRunMoves(edges, vs, score, passes[..|passes| - 1], first, p.states[0], order);
      if AllRest(edges, vs, score, p.states[0]) {
        RestStays(edges, vs, score, p, |p.visits|);
      } else if Quiet(p) {
        QuietPassAtRest(edges, vs, score, p);
      } else {
        LoudPassAdds(edges, vs, score, p, order);
      }
    }
  }

  /** With more passes than fifty per vertex a run ends at rest, whatever the score and
      the orders of visiting. */
  lemma EnoughPassesRest(edges: seq<Edge>, vs: set<Vertex>, score: Score, passes: seq<Pass>, part0: Placement, n: nat,
                         last: Snap)
    requires RunOk(edges, vs, score, passes, Start(edges, part0, n), last) && |passes| > THRESHOLD * |vs|
    ensures AllRest(edges, vs, score, last)
  {
    var run := RunExplained(edges, vs, score, passes, part0, n, last);
    var order := passes[|passes| - 1].visits;
    assert Tracked(vs, part0, run, last.part, last.res, last.moved);
    RestlessRunMoves(edges, vs, score, passes, Start(edges, part0, n), last, order);
    TotalAtMost(order, last.moved, THRESHOLD);
    ListSize(order, vs);
  }
}
