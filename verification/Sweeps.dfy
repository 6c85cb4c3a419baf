/** Passes over a set in which every element is visited once, in any order, and what one
    visit does to the state is a given relation. */
module Sweeps {
  import opened Collections

  /** The elements in the order visited, and the states between the visits. */
  datatype Sweep<V, S> = Sweep(visits: seq<V>, states: seq<S>)

  /** Each element of the set once. */
  ghost predicate Lists<V>(visits: seq<V>, vs: set<V>) {
    Distinct(visits) && (forall v | v in visits :: v in vs) && forall v | v in vs :: v in visits
  }

  lemma ListsMore<V>(visits: seq<V>, vs: set<V>, v: V)
    requires Lists(visits, vs) && v !in vs
    ensures Lists(visits + [v], vs + {v})
  {
    assert v !in visits;
  }

  lemma {:induction false} ListSize<V>(visits: seq<V>, vs: set<V>)
    requires Lists(visits, vs)
    ensures |visits| == |vs|
    decreases |visits|
  {
    if visits == [] {
      assert vs == {} by { assert forall v | v in vs :: v in visits; }
    } else {
      var init, v := visits[..|visits| - 1], visits[|visits| - 1];
      assert visits == init + [v];
      assert v in visits && v !in init;
      ListSize(init, vs - {v});
    }
  }

  /** Visit i follows the rule. */
  ghost predicate StepAt<V, S>(rule: (S, S, V) -> bool, p: Sweep<V, S>, i: nat)
    requires i < |p.visits| && |p.states| == |p.visits| + 1
  {
    rule(p.states[i], p.states[i + 1], p.visits[i])
  }

  ghost predicate Steps<V, S>(rule: (S, S, V) -> bool, p: Sweep<V, S>) {
    |p.states| == |p.visits| + 1 && forall i | 0 <= i < |p.visits| :: StepAt(rule, p, i)
  }

  /** One pass over vs from one state to another. */
  ghost predicate Swept<V, S>(vs: set<V>, rule: (S, S, V) -> bool, p: Sweep<V, S>, first: S, last: S) {
    Lists(p.visits, vs) && Steps(rule, p) && p.states[0] == first && p.states[|p.visits|] == last
  }

  lemma StepsAdd<V, S>(rule: (S, S, V) -> bool, p: Sweep<V, S>, v: V, s: S)
    requires Steps(rule, p) && rule(p.states[|p.visits|], s, v)
    ensures Steps(rule, Sweep(p.visits + [v], p.states + [s]))
  {
    var p' := Sweep(p.visits + [v], p.states + [s]);
    forall i | 0 <= i < |p'.visits| ensures StepAt(rule, p', i) {
      if i < |p.visits| { assert StepAt(rule, p, i); }
    }
  }

  /** A pass that still has todo before it. */
  ghost predicate Partly<V, S>(vs: set<V>, rule: (S, S, V) -> bool, p: Sweep<V, S>, todo: set<V>, first: S, last: S) {
    && todo <= vs && Lists(p.visits, vs - todo) && Steps(rule, p)
    && p.states[0] == first && p.states[|p.visits|] == last
  }

  lemma PartlyAdd<V, S>(vs: set<V>, rule: (S, S, V) -> bool, p: Sweep<V, S>, todo: set<V>, first: S, s: S, v: V, s': S)
    requires Partly(vs, rule, p, todo, first, s) && v in todo && rule(s, s', v)
    ensures Partly(vs, rule, Sweep(p.visits + [v], p.states + [s']), todo - {v}, first, s')
  {
    StepsAdd(rule, p, v, s');
    ListsMore(p.visits, vs - todo, v);
    assert vs - todo + {v} == vs - (todo - {v});
  }

  lemma PartlyAll<V, S>(vs: set<V>, rule: (S, S, V) -> bool, p: Sweep<V, S>, first: S, last: S)
    requires Partly(vs, rule, p, {}, first, last)
    ensures Swept(vs, rule, p, first, last)
  {
    assert vs - {} == vs;
  }

  /** Passes one after the other. */
  ghost predicate Chained<V, S>(vs: set<V>, rule: (S, S, V) -> bool, sweeps: seq<Sweep<V, S>>, first: S, last: S) {
    if sweeps == [] then last == first
    else
      var p := sweeps[|sweeps| - 1];
      && p.states != [] && Swept(vs, rule, p, p.states[0], last)
      && Chained(vs, rule, sweeps[..|sweeps| - 1], first, p.states[0])
  }

  lemma ChainedAdd<V, S>(vs: set<V>, rule: (S, S, V) -> bool, sweeps: seq<Sweep<V, S>>, first: S, mid: S,
                         p: Sweep<V, S>, last: S)
    requires Chained(vs, rule, sweeps, first, mid) && Swept(vs, rule, p, mid, last)
    ensures Chained(vs, rule, sweeps + [p], first, last)
  {
    assert (sweeps + [p])[..|sweeps|] == sweeps;
  }
}
