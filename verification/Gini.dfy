/** The Gini coefficient of the block distribution: the sorted weighted sum the code
    computes against the mean difference it stands for
    (consensus_shard/exclique/order.go, CalculateGiniCoefficient). */
module Gini {
  function Gap(a: nat, b: nat): nat { if a < b then b - a else a - b }

  function Sum(c: seq<nat>): nat { if c == [] then 0 else Sum(c[..|c| - 1]) + c[|c| - 1] }

  /** Each count times its rank, ranks starting at 1. */
  function Weighted(c: seq<nat>): nat { if c == [] then 0 else Weighted(c[..|c| - 1]) + |c| * c[|c| - 1] }

  /** Distance of x from all counts, and of all counts from each other. */
  function GapTo(c: seq<nat>, x: nat): nat { if c == [] then 0 else GapTo(c[..|c| - 1], x) + Gap(c[|c| - 1], x) }

  function Difference(c: seq<nat>): nat {
    if c == [] then 0 else Difference(c[..|c| - 1]) + GapTo(c[..|c| - 1], c[|c| - 1])
  }

  ghost predicate Sorted(c: seq<nat>) { forall i, j | 0 <= i < j < |c| :: c[i] <= c[j] }

  ghost predicate AllEqual(c: seq<nat>) { forall i, j | 0 <= i < j < |c| :: c[i] == c[j] }

  ghost predicate AtMostOnePositive(c: seq<nat>) { forall i, j | 0 <= i < j < |c| :: c[i] == 0 || c[j] == 0 }

  // ------------------------------------------------ the formula

  lemma {:induction false} GapToTop(c: seq<nat>, x: nat)
    requires forall i | 0 <= i < |c| :: c[i] <= x
    ensures GapTo(c, x) == |c| * x - Sum(c)
  {
    if c != [] { GapToTop(c[..|c| - 1], x); }
  }

  /** On sorted counts the weighted sum measures the total difference. */
  lemma {:induction false} WeightedIsDifference(c: seq<nat>)
    requires Sorted(c)
    ensures 2 * Weighted(c) == (|c| + 1) * Sum(c) + Difference(c)
  {
    if c != [] {
      var init, x, n := c[..|c| - 1], c[|c| - 1], |c|;
      WeightedIsDifference(init);
      GapToTop(init, x);
      RankStep(n, x, Sum(init), Weighted(init), Difference(init), GapTo(init, x));
    }
  }

  lemma RankStep(n: nat, x: int, sum: int, w: int, d: int, gap: int)
    requires n > 0 && 2 * w == n * sum + d && gap == (n - 1) * x - sum
    ensures 2 * (w + n * x) == (n + 1) * (sum + x) + d + gap
  {
    var nx, ns := n * x, n * sum;
    assert (n - 1) * x == nx - x;
    assert (n + 1) * (sum + x) == ns + sum + nx + x;
  }

  // ------------------------------------------------ order does not matter

  lemma {:induction false} GapToInsert(a: seq<nat>, y: nat, b: seq<nat>, x: nat)
    ensures GapTo(a + [y] + b, x) == GapTo(a + b, x) + Gap(y, x)
    decreases |b|
  {
    if b == [] {
      assert a + b == a && (a + [y] + b)[..|a|] == a;
    } else {
      var init := b[..|b| - 1];
      GapToInsert(a, y, init, x);
      assert (a + [y] + b)[..|a| + |b|] == a + [y] + init && (a + b)[..|a| + |init|] == a + init;
    }
  }

  lemma {:induction false} DifferenceInsert(a: seq<nat>, y: nat, b: seq<nat>)
    ensures Difference(a + [y] + b) == Difference(a + b) + GapTo(a + b, y)
    decreases |b|
  {
    if b == [] {
      assert a + b == a && (a + [y] + b)[..|a|] == a;
    } else {
      var init, x := b[..|b| - 1], b[|b| - 1];
      assert (a + [y] + b)[..|a| + |b|] == a + [y] + init && (a + b)[..|a| + |init|] == a + init;
      DifferenceInsert(a, y, init);
      GapToInsert(a, y, init, x);
    }
  }

  lemma {:induction false} SumInsert(a: seq<nat>, y: nat, b: seq<nat>)
    ensures Sum(a + [y] + b) == Sum(a + b) + y
    decreases |b|
  {
    if b == [] {
      assert a + b == a && (a + [y] + b)[..|a|] == a;
    } else {
      var init := b[..|b| - 1];
      SumInsert(a, y, init);
      assert (a + [y] + b)[..|a| + |b|] == a + [y] + init && (a + b)[..|a| + |init|] == a + init;
    }
  }

  // ------------------------------------------------ bounds

  /** The most GapTo can be. */
  function Most(c: seq<nat>, x: nat): nat { if c == [] then 0 else Most(c[..|c| - 1], x) + c[|c| - 1] + x }

  lemma {:induction false} MostIs(c: seq<nat>, x: nat)
    ensures Most(c, x) == Sum(c) + |c| * x
  {
    if c != [] { MostIs(c[..|c| - 1], x); }
  }

  lemma {:induction false} GapToBound(c: seq<nat>, x: nat)
    ensures GapTo(c, x) <= Most(c, x)
    ensures GapTo(c, x) == Most(c, x) <==> forall i | 0 <= i < |c| :: c[i] == 0 || x == 0
    ensures GapTo(c, x) == 0 <==> forall i | 0 <= i < |c| :: c[i] == x
  {
    if c != [] {
      var init := c[..|c| - 1];
      GapToBound(init, x);
      assert forall i | 0 <= i < |init| :: init[i] == c[i];
    }
  }

  /** The total difference is between 0, exactly when all counts are equal, and
      (n-1) times the sum, exactly when at most one count is positive. */
  lemma {:induction false} DifferenceBound(c: seq<nat>)
    requires c != []
    ensures Difference(c) <= (|c| - 1) * Sum(c)
    ensures Difference(c) == 0 <==> AllEqual(c)
    ensures Difference(c) == (|c| - 1) * Sum(c) <==> AtMostOnePositive(c)
  {
    if |c| > 1 {
      var init, x, n := c[..|c| - 1], c[|c| - 1], |c|;
      DifferenceBound(init);
      GapToBound(init, x);
      MostIs(init, x);
      RankSpread(n, Sum(init), x);
      EqualSplits(c);
      PositiveSplits(c);
    } else {
      assert c[..0] == [];
      assert Sum(c) == c[0];
    }
  }

  lemma RankSpread(n: int, s: int, x: int)
    ensures (n - 1) * (s + x) == (n - 2) * s + s + (n - 1) * x
  {
    assert (n - 1) * s == (n - 2) * s + s;
  }

  lemma EqualSplits(c: seq<nat>)
    requires |c| > 1
    ensures var init, x := c[..|c| - 1], c[|c| - 1];
            AllEqual(c) <==> AllEqual(init) && forall i | 0 <= i < |init| :: init[i] == x
  {
  }

  lemma PositiveSplits(c: seq<nat>)
    requires |c| > 1
    ensures var init, x := c[..|c| - 1], c[|c| - 1];
            AtMostOnePositive(c) <==> AtMostOnePositive(init) && forall i | 0 <= i < |init| :: init[i] == 0 || x == 0
  {
  }

  // ------------------------------------------------ the computation

  /** The same members, and so the same sum and total difference. */
  ghost predicate Rearranged(c: seq<nat>, d: seq<nat>) {
    multiset(c) == multiset(d) && |c| == |d| && Sum(c) == Sum(d) && Difference(c) == Difference(d)
  }

  lemma RearrangedNext(c: seq<nat>, r: seq<nat>, d: seq<nat>, x: nat)
    requires Rearranged(c, d) && |r| == |c| + 1
    requires multiset(r) == multiset(c) + multiset{x} && Sum(r) == Sum(c) + x
             && Difference(r) == Difference(c) + GapTo(c, x)
    ensures Rearranged(r, d + [x])
  {
    GapToOfMembers(c, d, x);
    assert (d + [x])[..|d|] == d;
  }

  method Sort(counts: seq<nat>) returns (c: seq<nat>)
    ensures Sorted(c) && Rearranged(c, counts)
  {
    c := [];
    for i := 0 to |counts|
      invariant Sorted(c) && Rearranged(c, counts[..i])
    {
      var r := Insert(c, counts[i]);
      RearrangedNext(c, r, counts[..i], counts[i]);
      assert counts[..i + 1] == counts[..i] + [counts[i]];
      c := r;
    }
    assert counts[..|counts|] == counts;
  }

  method Insert(c: seq<nat>, x: nat) returns (r: seq<nat>)
    requires Sorted(c)
    ensures Sorted(r) && multiset(r) == multiset(c) + multiset{x}
    ensures |r| == |c| + 1 && Sum(r) == Sum(c) + x && Difference(r) == Difference(c) + GapTo(c, x)
  {
    var k := |c|;
    while k > 0 && c[k - 1] > x
      invariant 0 <= k <= |c| && forall j | k <= j < |c| :: c[j] > x
    {
      k := k - 1;
    }
    r := c[..k] + [x] + c[k..];
    InsertedSorted(c, k, x);
    InsertedValues(c, k, x);
  }

  lemma InsertedSorted(c: seq<nat>, k: nat, x: nat)
    requires Sorted(c) && k <= |c| && (k > 0 ==> c[k - 1] <= x) && forall j | k <= j < |c| :: c[j] > x
    ensures Sorted(c[..k] + [x] + c[k..])
  {
    var r := c[..k] + [x] + c[k..];
    assert forall i | 0 <= i < k :: r[i] == c[i] && c[i] <= c[k - 1];
    assert forall i | k < i < |r| :: r[i] == c[i - 1];
  }

  lemma InsertedValues(c: seq<nat>, k: nat, x: nat)
    requires k <= |c|
    ensures var r := c[..k] + [x] + c[k..];
            multiset(r) == multiset(c) + multiset{x} && Sum(r) == Sum(c) + x
                && Difference(r) == Difference(c) + GapTo(c, x)
  {
    assert c[..k] + c[k..] == c;
    SumInsert(c[..k], x, c[k..]);
    DifferenceInsert(c[..k], x, c[k..]);
  }

  lemma SameRest(init: seq<nat>, a: seq<nat>, y: nat, b: seq<nat>)
    requires multiset(init + [y]) == multiset(a + [y] + b)
    ensures multiset(init) == multiset(a + b)
  {
    assert multiset(init) == multiset(init + [y]) - multiset{y};
    assert multiset(a + b) == multiset(a + [y] + b) - multiset{y};
  }

  /** The distance to x depends on the members only. */
  lemma {:induction false} GapToOfMembers(c: seq<nat>, d: seq<nat>, x: nat)
    requires multiset(c) == multiset(d)
    ensures GapTo(c, x) == GapTo(d, x)
    decreases |c|
  {
    if c == [] {
      assert |d| == |multiset(d)| == 0;
    } else {
      var init, y := c[..|c| - 1], c[|c| - 1];
      assert c == init + [y] && y in multiset(d);
      var k :| 0 <= k < |d| && d[k] == y;
      var a, b := d[..k], d[k + 1..];
      assert d == a + [y] + b;
      SameRest(init, a, y, b);
      GapToOfMembers(init, a + b, x);
      GapToInsert(a, y, b, x);
    }
  }

  /** The value for counts read from the map in any order: the mean difference over
      n times the sum, within [0, (n-1)/n], 0 exactly for equal counts and largest
      exactly when one validator made every block. */
  method CalculateGiniCoefficient(blockCounts: seq<nat>) returns (gini: real)
    ensures blockCounts == [] || Sum(blockCounts) == 0 ==> gini == 0.0
    ensures blockCounts != [] && Sum(blockCounts) > 0 ==>
              var n, sum := |blockCounts|, Sum(blockCounts);
              && gini == Difference(blockCounts) as real / (n * sum) as real
              && 0.0 <= gini <= (n - 1) as real / n as real
              && (gini == 0.0 <==> AllEqual(blockCounts))
              && (gini == (n - 1) as real / n as real <==> AtMostOnePositive(blockCounts))
  {
    if |blockCounts| == 0 { return 0.0; }
    var counts := Sort(blockCounts);
    var n := |counts|;
    var sum, weightedSum := 0, 0;
    for i := 0 to n
      invariant sum == Sum(counts[..i]) && weightedSum == Weighted(counts[..i])
    {
      assert counts[..i + 1][..i] == counts[..i];
      sum := sum + counts[i];
      weightedSum := weightedSum + (i + 1) * counts[i];
    }
    assert counts[..n] == counts;
    if sum == 0 { return 0.0; }
    Positive(n, sum);
    gini := (2 * weightedSum) as real / (n * sum) as real - (n + 1) as real / n as real;
    WeightedIsDifference(counts);
    DifferenceBound(blockCounts);
    GiniValue(n, sum, weightedSum, Difference(blockCounts), gini);
  }

  lemma Positive(n: nat, sum: nat)
    requires n > 0 && sum > 0
    ensures n * sum > 0
  {
  }

  lemma GiniValue(n: nat, sum: nat, w: nat, d: nat, g: real)
    requires n > 0 && sum > 0 && n * sum > 0 && 2 * w == (n + 1) * sum + d && d <= (n - 1) * sum
    requires g == (2 * w) as real / (n * sum) as real - (n + 1) as real / n as real
    ensures g == d as real / (n * sum) as real
    ensures 0.0 <= g <= (n - 1) as real / n as real
    ensures g == 0.0 <==> d == 0
    ensures g == (n - 1) as real / n as real <==> d == (n - 1) * sum
  {
    GiniEquals(n, sum, w, d, (n + 1) * sum, n * sum);
    GiniBounds(n, sum, d, (n - 1) * sum, n * sum);
  }

  lemma GiniEquals(n: nat, sum: nat, w: nat, d: nat, p: nat, m: nat)
    requires n > 0 && sum > 0 && m > 0 && p == (n + 1) * sum && m == n * sum && 2 * w == p + d
    ensures (2 * w) as real / m as real - (n + 1) as real / n as real == d as real / m as real
  {
    ProductAsReal(n, sum);
    ProductAsReal(n + 1, sum);
    assert (2 * w) as real == p as real + d as real;
    QuotientSplit((n + 1) as real, n as real, sum as real, d as real);
  }

  lemma GiniBounds(n: nat, sum: nat, d: nat, q: nat, m: nat)
    requires n > 0 && sum > 0 && m > 0 && q == (n - 1) * sum && m == n * sum && d <= q
    ensures var g := d as real / m as real;
            && 0.0 <= g <= (n - 1) as real / n as real
            && (g == 0.0 <==> d == 0) && (g == (n - 1) as real / n as real <==> d == q)
  {
    ProductAsReal(n, sum);
    ProductAsReal(n - 1, sum);
    QuotientBound((n - 1) as real, n as real, sum as real, d as real);
  }

  lemma QuotientSplit(p: real, n: real, s: real, d: real)
    requires n > 0.0 && s > 0.0
    ensures n * s > 0.0 && (p * s + d) / (n * s) - p / n == d / (n * s)
  {
    CancelSum(p, n, s);
    SplitQuotient(p * s, d, n * s);
  }

  lemma QuotientBound(q: real, n: real, s: real, d: real)
    requires n > 0.0 && s > 0.0 && 0.0 <= d <= q * s
    ensures n * s > 0.0 && 0.0 <= d / (n * s) <= q / n
    ensures (d / (n * s) == 0.0 <==> d == 0.0) && (d / (n * s) == q / n <==> d == q * s)
  {
    CancelSum(q, n, s);
    Compare(d, q * s, n * s);
  }

  lemma ProductAsReal(a: nat, b: nat)
    ensures (a * b) as real == a as real * b as real
  {
  }

  lemma CancelSum(x: real, y: real, z: real)
    requires y > 0.0 && z > 0.0
    ensures y * z > 0.0 && (x * z) / (y * z) == x / y
  {
    var q := x / y;
    assert q * y == x;
    assert x * z == q * (y * z);
    Divide(q, y * z);
  }

  lemma Divide(q: real, m: real)
    requires m > 0.0
    ensures (q * m) / m == q
  {
  }

  lemma SplitQuotient(a: real, b: real, m: real)
    requires m > 0.0
    ensures (a + b) / m == a / m + b / m
  {
  }

  lemma SignOfFactor(a: real, m: real)
    requires m > 0.0
    ensures a * m >= 0.0 <==> a >= 0.0
    ensures a * m == 0.0 <==> a == 0.0
  {
  }

  lemma Compare(d: real, top: real, m: real)
    requires m > 0.0 && 0.0 <= d <= top
    ensures 0.0 <= d / m <= top / m && (d / m == 0.0 <==> d == 0.0) && (d / m == top / m <==> d == top)
  {
    var q, t := d / m, top / m;
    assert q * m == d && t * m == top;
    assert (t - q) * m == top - d;
    SignOfFactor(q, m);
    SignOfFactor(t - q, m);
  }
}
