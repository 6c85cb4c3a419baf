/** Greedy allocation of addresses to shards, most frequent address first, and
    Graham's longest-processing-time bound for it
    (supervisor/committee/committee_plouvain.go, transactionBasedPartitioning). */
module Greedy {
  import opened Collections

  /** Work with weights w placed by a: the amount on machine k. */
  function Load(w: seq<nat>, a: seq<nat>, k: nat): nat
    requires |w| == |a|
  {
    if w == [] then 0
    else
      var l := |w| - 1;
      Load(w[..l], a[..l], k) + if a[l] == k then w[l] else 0
  }

  function Total(w: seq<nat>): nat {
    if w == [] then 0 else Total(w[..|w| - 1]) + w[|w| - 1]
  }

  function SumLoads(w: seq<nat>, a: seq<nat>, m: nat): nat
    requires |w| == |a|
  {
    if m == 0 then 0 else SumLoads(w, a, m - 1) + Load(w, a, m - 1)
  }

  function Ones(n: nat): seq<nat> { seq(n, _ => 1) }

  function Jobs(a: seq<nat>, k: nat): nat { Load(Ones(|a|), a, k) }

  ghost predicate Below(a: seq<nat>, m: nat) { forall i | 0 <= i < |a| :: a[i] < m }

  ghost predicate Descending(p: seq<nat>) { forall i, j | 0 <= i <= j < |p| :: p[i] >= p[j] }

  /** Machine k carries least of all under p and a. */
  ghost predicate Least(p: seq<nat>, a: seq<nat>, m: nat, k: nat)
    requires |p| == |a|
  {
    k < m && forall j: nat | j < m :: Load(p, a, k) <= Load(p, a, j)
  }

  /** Every job goes to a machine that carries least at that moment. */
  ghost predicate Greedily(p: seq<nat>, a: seq<nat>, m: nat)
    requires |p| == |a|
  {
    forall i | 0 <= i < |p| :: Least(p[..i], a[..i], m, a[i])
  }

  ghost predicate AllBusy(a: seq<nat>, m: nat) { forall k: nat | k < m :: Jobs(a, k) >= 1 }

  ghost predicate Bounded(p: seq<nat>, a: seq<nat>, m: nat, t: nat)
    requires |p| == |a|
  {
    forall k: nat | k < m :: Load(p, a, k) <= t
  }

  // ------------------------------------------------ double counting

  lemma {:induction false} SumLoadsStep(w: seq<nat>, a: seq<nat>, m: nat)
    requires |w| == |a| > 0
    ensures var l := |w| - 1;
            SumLoads(w, a, m) == SumLoads(w[..l], a[..l], m) + if a[l] < m then w[l] else 0
  {
    if m > 0 { SumLoadsStep(w, a, m - 1); }
  }

  /** Counting by machine is counting by job. */
  lemma {:induction false} SumLoadsIsTotal(w: seq<nat>, a: seq<nat>, m: nat)
    requires |w| == |a| && Below(a, m)
    ensures SumLoads(w, a, m) == Total(w)
    decreases |w|
  {
    if w == [] {
      SumLoadsEmpty(m);
    } else {
      SumLoadsStep(w, a, m);
      SumLoadsIsTotal(w[..|w| - 1], a[..|w| - 1], m);
    }
  }

  lemma {:induction false} SumLoadsEmpty(m: nat)
    ensures SumLoads([], [], m) == 0
  {
    if m > 0 { SumLoadsEmpty(m - 1); }
  }

  lemma {:induction false} SumLoadsAtMost(w: seq<nat>, a: seq<nat>, m: nat, t: nat)
    requires |w| == |a| && Bounded(w, a, m, t)
    ensures SumLoads(w, a, m) <= m * t
  {
    if m > 0 { SumLoadsAtMost(w, a, m - 1, t); }
  }

  lemma {:induction false} SumLoadsAtLeast(w: seq<nat>, a: seq<nat>, m: nat, t: nat)
    requires |w| == |a| && forall k: nat | k < m :: Load(w, a, k) >= t
    ensures SumLoads(w, a, m) >= m * t
  {
    if m > 0 { SumLoadsAtLeast(w, a, m - 1, t); }
  }

  // ------------------------------------------------ jobs on one machine

  lemma JobsInit(a: seq<nat>, k: nat)
    requires a != []
    ensures Jobs(a, k) == Jobs(a[..|a| - 1], k) + if a[|a| - 1] == k then 1 else 0
  {
    assert Ones(|a|)[..|a| - 1] == Ones(|a| - 1);
  }

  lemma OneMore(v: int, n: int)
    ensures v * (n + 1) == v * n + v
  {
  }

  lemma {:induction false} LoadUniform(w: seq<nat>, a: seq<nat>, k: nat, v: nat)
    requires |w| == |a| && forall i | 0 <= i < |a| && a[i] == k :: w[i] == v
    ensures Load(w, a, k) == v * Jobs(a, k)
    decreases |w|
  {
    if w != [] {
      var l := |w| - 1;
      assert forall i | 0 <= i < l && a[..l][i] == k :: a[i] == k;
      LoadUniform(w[..l], a[..l], k, v);
      JobsInit(a, k);
      OneMore(v, Jobs(a[..l], k));
    }
  }

  lemma {:induction false} LoadAtMost(w: seq<nat>, a: seq<nat>, k: nat, v: nat)
    requires |w| == |a| && forall i | 0 <= i < |a| :: w[i] <= v
    ensures Load(w, a, k) <= v * Jobs(a, k)
    decreases |w|
  {
    if w != [] {
      LoadAtMost(w[..|w| - 1], a[..|w| - 1], k, v);
      JobsInit(a, k);
      OneMore(v, Jobs(a[..|w| - 1], k));
    }
  }

  lemma {:induction false} LoadAtLeast(p: seq<nat>, a: seq<nat>, k: nat, q: nat)
    requires |p| == |a| && forall i | 0 <= i < |p| :: p[i] >= q
    ensures Load(p, a, k) >= q * Jobs(a, k)
    decreases |p|
  {
    if p != [] {
      LoadAtLeast(p[..|p| - 1], a[..|p| - 1], k, q);
      JobsInit(a, k);
      OneMore(q, Jobs(a[..|p| - 1], k));
    }
  }

  /** One job i together with the others, each of size at least q. */
  lemma {:induction false} LoadWithJob(p: seq<nat>, a: seq<nat>, i: nat, q: nat)
    requires i < |p| == |a| && forall j | 0 <= j < |p| :: p[j] >= q
    ensures Jobs(a, a[i]) >= 1 && Load(p, a, a[i]) >= p[i] + q * (Jobs(a, a[i]) - 1)
    decreases |p|
  {
    var l := |p| - 1;
    JobsInit(a, a[i]);
    if i == l {
      LoadAtLeast(p[..l], a[..l], a[i], q);
    } else {
      LoadWithJob(p[..l], a[..l], i, q);
      assert a[..l][i] == a[i];
    }
  }

  lemma {:induction false} LoneJob(p: seq<nat>, a: seq<nat>, i: nat)
    requires i < |p| == |a| && Jobs(a, a[i]) == 1
    ensures Load(p, a, a[i]) == p[i]
    decreases |p|
  {
    var l := |p| - 1;
    JobsInit(a, a[i]);
    if i == l {
      NoJobs(p[..l], a[..l], a[i]);
    } else {
      LoadWithJob(Ones(l), a[..l], i, 0);
      assert a[..l][i] == a[i];
      LoneJob(p[..l], a[..l], i);
    }
  }

  lemma {:induction false} NoJobs(p: seq<nat>, a: seq<nat>, k: nat)
    requires |p| == |a|
    ensures Jobs(a, k) == 0 ==> Load(p, a, k) == 0
    decreases |p|
  {
    if p != [] {
      JobsInit(a, k);
      NoJobs(p[..|p| - 1], a[..|p| - 1], k);
    }
  }

  /** A shorter prefix carries no more. */
  lemma BoundedPrefix(p: seq<nat>, b: seq<nat>, m: nat, t: nat)
    requires |p| == |b| > 0 && Bounded(p, b, m, t)
    ensures Bounded(p[..|p| - 1], b[..|p| - 1], m, t)
  {
    var init, at := p[..|p| - 1], b[..|p| - 1];
    forall k: nat | k < m ensures Load(init, at, k) <= t { assert Load(p, b, k) <= t; }
  }

  // ------------------------------------------------ the last job

  /** The weights of the long-job case: 2 for a job alone on its greedy machine, 1
      otherwise and for the last job. */
  function Weights(a: seq<nat>): seq<nat>
    requires a != []
  {
    var l := |a| - 1;
    seq(l, i requires 0 <= i < l => if Jobs(a[..l], a[i]) == 1 then 2 else 1) + [1]
  }

  /** Under greedy, machines that all hold a job weigh at least 2 each. */
  lemma WeightsGreedy(a: seq<nat>, m: nat)
    requires a != [] && Below(a, m)
    requires AllBusy(a[..|a| - 1], m)
    ensures Total(Weights(a)) >= 2 * m + 1
  {
    var l := |a| - 1;
    var w, a' := Weights(a)[..l], a[..l];
    assert forall i | 0 <= i < l :: a'[i] == a[i];
    forall k: nat | k < m ensures Load(w, a', k) >= 2 {
      var c := Jobs(a', k);
      LoadUniform(w, a', k, if c == 1 then 2 else 1);
    }
    SumLoadsAtLeast(w, a', m, 2);
    SumLoadsIsTotal(w, a', m);
  }

  /** Under any other assignment a machine weighs at most 2, when the last job is
      both longer than a third of t and too long for its greedy machine. */
  lemma WeightsOther(p: seq<nat>, a: seq<nat>, b: seq<nat>, m: nat, t: nat, k: nat)
    requires |p| == |a| == |b| > 0 && Descending(p) && k < m && Below(a, m) && Bounded(p, b, m, t)
    requires var l := |p| - 1;
             Least(p[..l], a[..l], m, a[l]) && 3 * p[l] > t && Load(p[..l], a[..l], a[l]) + p[l] > t
    ensures Load(Weights(a), b, k) <= 2
  {
    var l, w := |p| - 1, Weights(a);
    var c := Jobs(b, k);
    LoadAtLeast(p, b, k, p[l]);
    assert Load(p, b, k) <= t;
    FewJobs(p[l], c, t);
    if c <= 1 {
      LoadAtMost(w, b, k, 2);
    } else {
      forall i | 0 <= i < |b| && b[i] == k ensures w[i] == 1 {
        if w[i] == 2 {
          assert a[..l][i] == a[i] && p[..l][i] == p[i];
          LoneJob(p[..l], a[..l], i);
          assert Load(p[..l], a[..l], a[l]) <= Load(p[..l], a[..l], a[i]);
          LoadWithJob(p, b, i, p[l]);
        }
      }
      LoadUniform(w, b, k, 1);
    }
  }

  lemma FewJobs(q: nat, c: nat, t: nat)
    requires q * c <= t < 3 * q
    ensures c <= 2
  {
    assert c < 3 || q * (c - 3) >= 0;
  }

  /** A long last job fits within any other assignment's maximum. */
  lemma LongLastJob(p: seq<nat>, a: seq<nat>, b: seq<nat>, m: nat, t: nat)
    requires |p| == |a| == |b| > 0 && Descending(p) && Below(a, m) && Below(b, m) && Bounded(p, b, m, t)
    requires Least(p[..|p| - 1], a[..|p| - 1], m, a[|p| - 1]) && 3 * p[|p| - 1] > t
    ensures Load(p[..|p| - 1], a[..|p| - 1], a[|p| - 1]) + p[|p| - 1] <= t
  {
    var l := |p| - 1;
    var least := Load(p[..l], a[..l], a[l]);
    assert Load(p, b, b[l]) <= t;
    if least + p[l] > t {
      var init, at, w := p[..l], a[..l], Weights(a);
      forall k: nat | k < m ensures Jobs(at, k) >= 1 {
        assert Load(init, at, k) >= least;
        NoJobs(init, at, k);
      }
      WeightsGreedy(a, m);
      forall k: nat | k < m ensures Load(w, b, k) <= 2 { WeightsOther(p, a, b, m, t, k); }
      SumLoadsIsTotal(w, b, m);
      SumLoadsAtMost(w, b, m, 2);
    }
  }

  lemma Spread(m: int, x: int, y: int)
    ensures m * (x + y) == m * x + (m - 1) * y + y
  {
  }

  /** The machine that receives the last job, by averaging. */
  lemma LastJobAverage(p: seq<nat>, a: seq<nat>, m: nat)
    requires |p| == |a| > 0 && Below(a, m) && Least(p[..|p| - 1], a[..|p| - 1], m, a[|p| - 1])
    ensures var l := |p| - 1; m * (Load(p[..l], a[..l], a[l]) + p[l]) <= Total(p) + (m - 1) * p[l]
  {
    var l := |p| - 1;
    var least := Load(p[..l], a[..l], a[l]);
    SumLoadsAtLeast(p[..l], a[..l], m, least);
    SumLoadsIsTotal(p[..l], a[..l], m);
    Spread(m, least, p[l]);
  }

  lemma LastJob(p: seq<nat>, a: seq<nat>, b: seq<nat>, m: nat, t: nat)
    requires |p| == |a| == |b| > 0 && Descending(p) && Below(a, m) && Below(b, m) && Bounded(p, b, m, t)
    requires Least(p[..|p| - 1], a[..|p| - 1], m, a[|p| - 1])
    ensures var l := |p| - 1; 3 * m * (Load(p[..l], a[..l], a[l]) + p[l]) <= (4 * m - 1) * t
  {
    var l := |p| - 1;
    var load := Load(p[..l], a[..l], a[l]) + p[l];
    if 3 * p[l] > t {
      LongLastJob(p, a, b, m, t);
      Scale(3 * m, load, 4 * m - 1, t);
    } else {
      LastJobAverage(p, a, m);
      SumLoadsAtMost(p, b, m, t);
      SumLoadsIsTotal(p, b, m);
      assert m * load <= m * t + (m - 1) * p[l];
      Thirds(m, load, t, p[l]);
    }
  }

  lemma Scale(x: nat, load: nat, y: nat, t: nat)
    requires x <= y && load <= t
    ensures x * load <= y * t
  {
    assert x * load <= x * t by { assert x * (t - load) >= 0; }
    assert (y - x) * t >= 0;
  }

  lemma Thirds(m: nat, load: nat, t: nat, q: nat)
    requires m > 0 && m * load <= m * t + (m - 1) * q && 3 * q <= t
    ensures 3 * m * load <= (4 * m - 1) * t
  {
    var ml, mt := m * load, m * t;
    Product(m - 1, q, t);
    Unfold(m, t);
    assert 3 * m * load == 3 * ml by { Regroup(m, load); }
  }

  lemma Product(a: nat, q: nat, t: nat)
    requires 3 * q <= t
    ensures 3 * (a * q) <= a * t
  {
    Scale(a, 3 * q, a, t);
    assert a * (3 * q) == 3 * (a * q);
  }

  lemma Unfold(m: nat, t: nat)
    requires m > 0
    ensures (4 * m - 1) * t == 3 * (m * t) + (m - 1) * t
  {
  }

  lemma Regroup(m: nat, load: nat)
    ensures 3 * m * load == 3 * (m * load)
  {
  }

  // ------------------------------------------------ the bounds

  lemma GreedilyPrefix(p: seq<nat>, a: seq<nat>, m: nat)
    requires |p| == |a| > 0 && Greedily(p, a, m)
    ensures Greedily(p[..|p| - 1], a[..|p| - 1], m)
  {
    var l := |p| - 1;
    forall i | 0 <= i < l ensures Least(p[..l][..i], a[..l][..i], m, a[..l][i]) {
      assert p[..l][..i] == p[..i] && a[..l][..i] == a[..i];
      assert Least(p[..i], a[..i], m, a[i]);
    }
  }

  /** Greedy in any order: no machine exceeds the average by more than (m-1)/m of
      the longest job. */
  lemma {:induction false} GreedyAverageBound(p: seq<nat>, a: seq<nat>, m: nat, longest: nat, k: nat)
    requires |p| == |a| && m > 0 && k < m && Below(a, m) && Greedily(p, a, m)
    requires forall i | 0 <= i < |p| :: p[i] <= longest
    ensures m * Load(p, a, k) <= Total(p) + (m - 1) * longest
    decreases |p|
  {
    if p == [] {
      assert (m - 1) * longest >= 0;
    } else {
      var l := |p| - 1;
      GreedilyPrefix(p, a, m);
      GreedyAverageBound(p[..l], a[..l], m, longest, k);
      if a[l] == k {
        assert Least(p[..l], a[..l], m, a[l]);
        LastJobAverage(p, a, m);
        Scale(m - 1, p[l], m - 1, longest);
      }
    }
  }

  /** Graham's bound: taken longest first, greedy is within (4m-1)/3m of the
      largest load of any assignment whatever. */
  lemma {:induction false} GreedyWithinFourThirds(p: seq<nat>, a: seq<nat>, b: seq<nat>, m: nat, t: nat, k: nat)
    requires |p| == |a| == |b| && k < m && Below(a, m) && Below(b, m)
    requires Descending(p) && Greedily(p, a, m) && Bounded(p, b, m, t)
    ensures 3 * m * Load(p, a, k) <= (4 * m - 1) * t
    decreases |p|
  {
    if p == [] {
      assert (4 * m - 1) * t >= 0;
    } else {
      var l := |p| - 1;
      if a[l] == k {
        assert Least(p[..l], a[..l], m, a[l]);
        LastJob(p, a, b, m, t);
      } else {
        GreedilyPrefix(p, a, m);
        BoundedPrefix(p, b, m, t);
        GreedyWithinFourThirds(p[..l], a[..l], b[..l], m, t, k);
      }
    }
  }

  // ------------------------------------------------ transactions and addresses

  type Addr = nat
  type Transfer = (Addr, Addr)      // sender, recipient
  type Placement = map<Addr, nat>

  function One(b: bool): nat { if b then 1 else 0 }

  /** How often an address takes part in the transactions. */
  function Occurs(txs: seq<Transfer>, x: Addr): nat {
    if txs == [] then 0
    else var t := txs[|txs| - 1]; Occurs(txs[..|txs| - 1], x) + One(t.0 == x) + One(t.1 == x)
  }

  /** The work of shard k: one unit for each side of a transaction it holds. */
  function ShardLoad(txs: seq<Transfer>, part: Placement, k: nat): nat {
    if txs == [] then 0
    else
      var t := txs[|txs| - 1];
      ShardLoad(txs[..|txs| - 1], part, k) + One(t.0 in part && part[t.0] == k) + One(t.1 in part && part[t.1] == k)
  }

  function Counts(txs: seq<Transfer>, order: seq<Addr>): seq<nat> {
    seq(|order|, i requires 0 <= i < |order| => Occurs(txs, order[i]))
  }

  function Places(part: Placement, order: seq<Addr>): seq<nat>
    requires forall x | x in order :: x in part
  {
    seq(|order|, i requires 0 <= i < |order| => part[order[i]])
  }

  ghost predicate Lists(order: seq<Addr>, txs: seq<Transfer>) {
    forall i | 0 <= i < |txs| :: txs[i].0 in order && txs[i].1 in order
  }

  /** The indicator of x along a duplicate-free list. */
  function Marks(order: seq<Addr>, x: Addr): seq<nat> {
    seq(|order|, i requires 0 <= i < |order| => One(order[i] == x))
  }

  lemma {:induction false} MarksLoad(order: seq<Addr>, a: seq<nat>, x: Addr, i: nat, k: nat)
    requires Distinct(order) && i < |order| == |a| && order[i] == x
    ensures Load(Marks(order, x), a, k) == One(a[i] == k)
    decreases |order|
  {
    var l := |order| - 1;
    assert Marks(order, x)[..l] == Marks(order[..l], x);
    if i == l {
      MarksNone(order[..l], a[..l], x, k);
    } else {
      MarksLoad(order[..l], a[..l], x, i, k);
    }
  }

  lemma {:induction false} MarksNone(order: seq<Addr>, a: seq<nat>, x: Addr, k: nat)
    requires x !in order && |order| == |a|
    ensures Load(Marks(order, x), a, k) == 0
    decreases |order|
  {
    if order != [] {
      var l := |order| - 1;
      assert Marks(order, x)[..l] == Marks(order[..l], x);
      MarksNone(order[..l], a[..l], x, k);
    }
  }

  lemma {:induction false} LoadAdds(w: seq<nat>, w1: seq<nat>, w2: seq<nat>, w3: seq<nat>, a: seq<nat>, k: nat)
    requires |w| == |w1| == |w2| == |w3| == |a| && forall i | 0 <= i < |w| :: w[i] == w1[i] + w2[i] + w3[i]
    ensures Load(w, a, k) == Load(w1, a, k) + Load(w2, a, k) + Load(w3, a, k)
    decreases |w|
  {
    if w != [] {
      var l := |w| - 1;
      LoadAdds(w[..l], w1[..l], w2[..l], w3[..l], a[..l], k);
    }
  }

  /** The work by address is the work by transaction. */
  lemma {:induction false} LoadIsShardLoad(txs: seq<Transfer>, order: seq<Addr>, part: Placement, k: nat)
    requires Distinct(order) && Lists(order, txs) && forall x | x in order :: x in part
    ensures Load(Counts(txs, order), Places(part, order), k) == ShardLoad(txs, part, k)
    decreases |txs|
  {
    var w, a := Counts(txs, order), Places(part, order);
    if txs == [] {
      LoadUniform(w, a, k, 0);
    } else {
      var init, t := txs[..|txs| - 1], txs[|txs| - 1];
      assert txs[|txs| - 1].0 in order && txs[|txs| - 1].1 in order;
      LoadIsShardLoad(init, order, part, k);
      var i :| 0 <= i < |order| && order[i] == t.0;
      var j :| 0 <= j < |order| && order[j] == t.1;
      MarksLoad(order, a, t.0, i, k);
      MarksLoad(order, a, t.1, j, k);
      LoadAdds(w, Counts(init, order), Marks(order, t.0), Marks(order, t.1), a, k);
    }
  }

  /** All shards together do two units of work per transaction. */
  lemma {:induction false} WorkIsTwicePerTransaction(txs: seq<Transfer>, order: seq<Addr>)
    requires Distinct(order) && Lists(order, txs)
    ensures Total(Counts(txs, order)) == 2 * |txs|
  {
    var part := map x | x in order :: 0;
    var zero := Places(part, order);
    SumLoadsIsTotal(Counts(txs, order), zero, 1);
    assert SumLoads(Counts(txs, order), zero, 1)
           == SumLoads(Counts(txs, order), zero, 0) + Load(Counts(txs, order), zero, 0);
    LoadIsShardLoad(txs, order, part, 0);
    EverySideCounted(txs, part);
  }

  lemma {:induction false} EverySideCounted(txs: seq<Transfer>, part: Placement)
    requires forall i | 0 <= i < |txs| :: txs[i].0 in part && txs[i].1 in part && part[txs[i].0] == part[txs[i].1] == 0
    ensures ShardLoad(txs, part, 0) == 2 * |txs|
  {
    if txs != [] {
      EverySideCounted(txs[..|txs| - 1], part);
    }
  }

  // ------------------------------------------------ the algorithm

  ghost predicate Counted(txs: seq<Transfer>, counts: map<Addr, nat>) {
    forall x: Addr :: if x in counts then 0 < counts[x] == Occurs(txs, x) else Occurs(txs, x) == 0
  }

  method Bump(counts: map<Addr, nat>, x: Addr) returns (r: map<Addr, nat>)
    ensures r == counts[x := (if x in counts then counts[x] else 0) + 1]
  {
    r := counts[x := (if x in counts then counts[x] else 0) + 1];
  }

  method CountTransactions(txs: seq<Transfer>) returns (counts: map<Addr, nat>)
    ensures Counted(txs, counts)
  {
    counts := map[];
    for n := 0 to |txs|
      invariant Counted(txs[..n], counts)
    {
      ghost var before := counts;
      counts := Bump(counts, txs[n].0);
      counts := Bump(counts, txs[n].1);
      assert txs[..n + 1][..n] == txs[..n];
    }
    assert txs[..|txs|] == txs;
  }

  lemma {:induction false} EndsOccur(txs: seq<Transfer>, i: nat)
    requires i < |txs|
    ensures Occurs(txs, txs[i].0) > 0 && Occurs(txs, txs[i].1) > 0
    decreases |txs|
  {
    if i < |txs| - 1 { EndsOccur(txs[..|txs| - 1], i); }
  }

  lemma {:induction false} SomeMost(todo: set<Addr>, counts: map<Addr, nat>)
    requires todo != {} && todo <= counts.Keys
    ensures exists x :: x in todo && forall y | y in todo :: counts[y] <= counts[x]
    decreases |todo|
  {
    var x :| x in todo;
    if todo != {x} {
      var rest := todo - {x};
      assert rest != {};
      SomeMost(rest, counts);
      var z :| z in rest && forall y | y in rest :: counts[y] <= counts[z];
      var top := if counts[z] >= counts[x] then z else x;
      assert top in todo && forall y | y in todo :: counts[y] <= counts[top];
    }
  }

  /** Sorting by descending count, with ties in any order. */
  method SortByCount(counts: map<Addr, nat>) returns (order: seq<Addr>)
    ensures Distinct(order) && forall x :: x in order <==> x in counts
    ensures forall i, j | 0 <= i <= j < |order| :: counts[order[i]] >= counts[order[j]]
  {
    order := [];
    var todo := counts.Keys;
    while todo != {}
      invariant todo <= counts.Keys && Distinct(order)
      invariant forall x :: x in order <==> x in counts && x !in todo
      invariant forall x, y | x in order && y in todo :: counts[x] >= counts[y]
      invariant forall i, j | 0 <= i <= j < |order| :: counts[order[i]] >= counts[order[j]]
      decreases |todo|
    {
      SomeMost(todo, counts);
      var x :| x in todo && forall y | y in todo :: counts[y] <= counts[x];
      order, todo := order + [x], todo - {x};
    }
  }

  /** The leftmost least-loaded shard. */
  method LeastLoaded(workload: seq<nat>) returns (minShard: nat)
    requires |workload| > 0
    ensures minShard < |workload| && forall k | 0 <= k < |workload| :: workload[minShard] <= workload[k]
    ensures forall k | 0 <= k < minShard :: workload[minShard] < workload[k]
  {
    minShard := 0;
    var minWorkload := workload[0];
    for sid := 1 to |workload|
      invariant minShard < sid && minWorkload == workload[minShard]
      invariant forall k | 0 <= k < sid :: workload[minShard] <= workload[k]
      invariant forall k | 0 <= k < minShard :: workload[minShard] < workload[k]
    {
      if workload[sid] < minWorkload {
        minShard, minWorkload := sid, workload[sid];
      }
    }
  }

  /** Placing the addresses one by one. */
  method Allocate(order: seq<Addr>, p: seq<nat>, m: nat)
    returns (part: Placement, workload: seq<nat>, ghost a: seq<nat>)
    requires m > 0 && |order| == |p| && Distinct(order)
    ensures |a| == |p| && Below(a, m) && Greedily(p, a, m)
    ensures |workload| == m && forall k | 0 <= k < m :: workload[k] == Load(p, a, k)
    ensures (forall x :: x in part <==> x in order) && Places(part, order) == a
  {
    part, workload, a := map[], seq(m, _ => 0), [];
    for n := 0 to |p|
      invariant |a| == n && Below(a, m) && Greedily(p[..n], a, m)
      invariant |workload| == m && forall k | 0 <= k < m :: workload[k] == Load(p[..n], a, k)
      invariant forall x :: x in part <==> x in order[..n]
      invariant forall i | 0 <= i < n :: order[i] in part && part[order[i]] == a[i]
    {
      var minShard := LeastLoaded(workload);
      GreedilyNext(p, a, m, n, minShard);
      assert p[..n + 1][..n] == p[..n] && (a + [minShard])[..n] == a;
      part := part[order[n] := minShard];
      workload := workload[minShard := workload[minShard] + p[n]];
      a := a + [minShard];
    }
    assert p[..|p|] == p && order[..|p|] == order;
  }

  lemma GreedilyNext(p: seq<nat>, a: seq<nat>, m: nat, n: nat, k: nat)
    requires n < |p| && |a| == n && Greedily(p[..n], a, m) && Least(p[..n], a, m, k)
    ensures Greedily(p[..n + 1], a + [k], m)
  {
    var p', a' := p[..n + 1], a + [k];
    assert p'[..n] == p[..n] && a'[..n] == a;
    forall i | 0 <= i < n + 1 ensures Least(p'[..i], a'[..i], m, a'[i]) {
      if i < n {
        assert p'[..i] == p[..n][..i] && a'[..i] == a[..i];
        assert Least(p[..n][..i], a[..i], m, a[i]);
      }
    }
  }

  ghost predicate NoneBusier(txs: seq<Transfer>, count: nat) {
    forall x: Addr :: Occurs(txs, x) <= count
  }

  /** Any total assignment of the same addresses with loads up to t. */
  ghost predicate Rival(txs: seq<Transfer>, part: Placement, other: Placement, m: nat, t: nat) {
    && part.Keys <= other.Keys && (forall x | x in other :: other[x] < m)
    && forall j: nat | j < m :: ShardLoad(txs, other, j) <= t
  }

  /** Graham's bound, stated on the transactions alone. */
  ghost predicate WithinFourThirds(txs: seq<Transfer>, part: Placement, m: nat) {
    forall other: Placement, t: nat, k: nat | Rival(txs, part, other, m, t) && k < m ::
      3 * m * ShardLoad(txs, part, k) <= (4 * m - 1) * t
  }

  lemma RivalBound(txs: seq<Transfer>, order: seq<Addr>, part: Placement, other: Placement, m: nat, t: nat, k: nat)
    requires Distinct(order) && Lists(order, txs) && (forall x :: x in part <==> x in order)
    requires Descending(Counts(txs, order)) && Below(Places(part, order), m)
    requires Greedily(Counts(txs, order), Places(part, order), m)
    requires Rival(txs, part, other, m, t) && k < m
    ensures 3 * m * ShardLoad(txs, part, k) <= (4 * m - 1) * t
  {
    var p, b := Counts(txs, order), Places(other, order);
    forall j: nat | j < m ensures Load(p, b, j) <= t { LoadIsShardLoad(txs, order, other, j); }
    GreedyWithinFourThirds(p, Places(part, order), b, m, t, k);
    LoadIsShardLoad(txs, order, part, k);
  }

  /** The initial partition: total, in range, its loads add up to two units per
      transaction, no shard exceeds the average by more than (m-1)/m of the busiest
      address, and no other assignment is better by more than Graham's factor. */
  method TransactionBasedPartitioning(txs: seq<Transfer>, m: nat) returns (part: Placement, workload: seq<nat>)
    requires m > 0
    ensures forall x: Addr :: x in part <==> Occurs(txs, x) > 0
    ensures forall x | x in part :: part[x] < m
    ensures |workload| == m && forall k | 0 <= k < m :: workload[k] == ShardLoad(txs, part, k)
    ensures Total(workload) == 2 * |txs|
    ensures forall k, busiest: nat | 0 <= k < m && NoneBusier(txs, busiest) ::
              m * workload[k] <= 2 * |txs| + (m - 1) * busiest
    ensures WithinFourThirds(txs, part, m)
  {
    var counts := CountTransactions(txs);
    var order := SortByCount(counts);
    var p := seq(|order|, i requires 0 <= i < |order| => counts[order[i]]);
    assert p == Counts(txs, order);
    ghost var a;
    part, workload, a := Allocate(order, p, m);
    forall i | 0 <= i < |txs| ensures txs[i].0 in order && txs[i].1 in order { EndsOccur(txs, i); }
    assert forall x | x in part :: part[x] < m by { RangeOf(part, order, m); }
    forall k: nat | k < m ensures workload[k] == ShardLoad(txs, part, k) { LoadIsShardLoad(txs, order, part, k); }
    TotalIsSumLoads(workload, p, a);
    SumLoadsIsTotal(p, a, m);
    WorkIsTwicePerTransaction(txs, order);
    forall k, busiest: nat | 0 <= k < m && NoneBusier(txs, busiest)
      ensures m * workload[k] <= 2 * |txs| + (m - 1) * busiest
    {
      GreedyAverageBound(p, a, m, busiest, k);
    }
    forall other: Placement, t: nat, k: nat | Rival(txs, part, other, m, t) && k < m
      ensures 3 * m * ShardLoad(txs, part, k) <= (4 * m - 1) * t
    {
      RivalBound(txs, order, part, other, m, t, k);
    }
  }

  lemma RangeOf(part: Placement, order: seq<Addr>, m: nat)
    requires (forall x :: x in part <==> x in order) && Below(Places(part, order), m)
    ensures forall x | x in part :: part[x] < m
  {
    forall x | x in part ensures part[x] < m {
      var i :| 0 <= i < |order| && order[i] == x;
      assert Places(part, order)[i] == part[x];
    }
  }

  lemma {:induction false} TotalIsSumLoads(workload: seq<nat>, p: seq<nat>, a: seq<nat>)
    requires |p| == |a| && forall k | 0 <= k < |workload| :: workload[k] == Load(p, a, k)
    ensures Total(workload) == SumLoads(p, a, |workload|)
    decreases |workload|
  {
    if workload != [] { TotalIsSumLoads(workload[..|workload| - 1], p, a); }
  }
}
