/** The counting Bloom filter against the history of operations it summarises
    (consensus_shard/exclique/cbf.go). The hash is any function of item and seed. */
module BloomFilter {
  type Item = nat

  const MAX_COUNT: int := 255

  datatype Params = Params(hash: (Item, nat) -> nat, hashNum: nat, size: nat)
  {
    function Pos(x: Item, seed: nat): (p: nat)
      requires size > 0
      ensures p < size
    {
      hash(x, seed) % size
    }
  }

  datatype Op = Add(item: Item) | Remove(item: Item)

  /** How many of the first n seeds send x to position p. */
  function Hits(f: Params, x: Item, p: nat, n: nat): nat
    requires f.size > 0
  {
    if n == 0 then 0 else Hits(f, x, p, n - 1) + if f.Pos(x, n - 1) == p then 1 else 0
  }

  /** How many copies of x are present after a history. */
  function Copies(h: seq<Op>, x: Item): int {
    if h == [] then 0
    else
      var op := h[|h| - 1];
      Copies(h[..|h| - 1], x) + if op.item != x then 0 else if op.Add? then 1 else -1
  }

  /** The true hash load of position p after a history. */
  function Load(f: Params, h: seq<Op>, p: nat): int
    requires f.size > 0
  {
    if h == [] then 0
    else
      var op := h[|h| - 1];
      var k := Hits(f, op.item, p, f.hashNum);
      if op.Add? then Load(f, h[..|h| - 1], p) + k else Load(f, h[..|h| - 1], p) - k
  }

  /** What the one-byte counter holds: it stops at 255 and at 0. */
  function Counter(f: Params, h: seq<Op>, p: nat): int
    requires f.size > 0
  {
    if h == [] then 0
    else
      var op := h[|h| - 1];
      var c, k := Counter(f, h[..|h| - 1], p), Hits(f, op.item, p, f.hashNum);
      if op.Add? then Up(c, k) else Down(c, k)
  }

  function Up(c: int, k: nat): int { if c + k > MAX_COUNT then MAX_COUNT else c + k }

  function Down(c: int, k: nat): int { if c - k < 0 then 0 else c - k }

  /** Only present items are removed. */
  ghost predicate Proper(h: seq<Op>) {
    h != [] ==> Proper(h[..|h| - 1]) && (h[|h| - 1].Remove? ==> Copies(h[..|h| - 1], h[|h| - 1].item) > 0)
  }

  /** The true load of p never passes 255. */
  ghost predicate Fits(f: Params, h: seq<Op>, p: nat)
    requires f.size > 0
  {
    Load(f, h, p) <= MAX_COUNT && (h != [] ==> Fits(f, h[..|h| - 1], p))
  }

  /** The counter of p is right after every operation. */
  ghost predicate Exact(f: Params, h: seq<Op>, p: nat)
    requires f.size > 0
  {
    Counter(f, h, p) == Load(f, h, p) && (h != [] ==> Exact(f, h[..|h| - 1], p))
  }

  ghost predicate AddOnly(h: seq<Op>) { forall i | 0 <= i < |h| :: h[i].Add? }

  // ------------------------------------------------ load and copies

  lemma {:induction false} CopiesNonNegative(h: seq<Op>, x: Item)
    requires Proper(h)
    ensures Copies(h, x) >= 0
  {
    if h != [] { CopiesNonNegative(h[..|h| - 1], x); }
  }

  function Without(h: seq<Op>, x: Item): seq<Op> {
    if h == [] then []
    else Without(h[..|h| - 1], x) + if h[|h| - 1].item == x then [] else [h[|h| - 1]]
  }

  lemma {:induction false} WithoutCopies(h: seq<Op>, x: Item, y: Item)
    ensures Copies(Without(h, x), y) == if y == x then 0 else Copies(h, y)
  {
    if h != [] {
      var init, op := h[..|h| - 1], h[|h| - 1];
      WithoutCopies(init, x, y);
      if op.item != x { assert Without(h, x)[..|Without(h, x)| - 1] == Without(init, x); }
      else { assert Without(h, x) == Without(init, x); }
    }
  }

  lemma Distribute(a: int, k: int)
    ensures (a + 1) * k == a * k + k && (a - 1) * k == a * k - k
  {
  }

  /** The load splits into the part of x and the rest. */
  lemma {:induction false} LoadSplits(f: Params, h: seq<Op>, x: Item, p: nat)
    requires f.size > 0
    ensures Load(f, h, p) == Copies(h, x) * Hits(f, x, p, f.hashNum) + Load(f, Without(h, x), p)
    ensures |Without(h, x)| <= |h| && (h != [] && h[|h| - 1].item == x ==> |Without(h, x)| < |h|)
  {
    if h != [] {
      var init, op := h[..|h| - 1], h[|h| - 1];
      LoadSplits(f, init, x, p);
      if op.item != x {
        assert Without(h, x)[..|Without(h, x)| - 1] == Without(init, x);
      } else {
        assert Without(h, x) == Without(init, x);
        Distribute(Copies(init, x), Hits(f, x, p, f.hashNum));
      }
    }
  }

  lemma {:induction false} LoadNonNegative(f: Params, h: seq<Op>, p: nat)
    requires f.size > 0 && forall y: Item :: Copies(h, y) >= 0
    ensures Load(f, h, p) >= 0
    decreases |h|
  {
    if h != [] {
      var x := h[|h| - 1].item;
      LoadSplits(f, h, x, p);
      forall y: Item ensures Copies(Without(h, x), y) >= 0 { WithoutCopies(h, x, y); }
      LoadNonNegative(f, Without(h, x), p);
      NonNegativeProduct(Copies(h, x), Hits(f, x, p, f.hashNum));
    }
  }

  lemma NonNegativeProduct(a: int, b: int)
    requires a >= 0 && b >= 0
    ensures a * b >= 0
  {
  }

  /** Every copy of x adds its hits to the load. */
  lemma LoadCoversItem(f: Params, h: seq<Op>, x: Item, p: nat)
    requires f.size > 0 && Proper(h)
    ensures Load(f, h, p) >= Copies(h, x) * Hits(f, x, p, f.hashNum) >= 0
  {
    forall y: Item ensures Copies(Without(h, x), y) >= 0 {
      WithoutCopies(h, x, y);
      CopiesNonNegative(h, y);
    }
    LoadSplits(f, h, x, p);
    LoadNonNegative(f, Without(h, x), p);
    CopiesNonNegative(h, x);
    NonNegativeProduct(Copies(h, x), Hits(f, x, p, f.hashNum));
  }

  // ------------------------------------------------ the counters

  /** The counters are right throughout a history exactly when the true load never
      passes 255. */
  lemma {:induction false} ExactIff(f: Params, h: seq<Op>, p: nat)
    requires f.size > 0 && Proper(h)
    ensures Exact(f, h, p) <==> Fits(f, h, p)
  {
    CounterRange(f, h, p);
    if h != [] {
      var init, op := h[..|h| - 1], h[|h| - 1];
      ExactIff(f, init, p);
      if op.Remove? {
        var k := Hits(f, op.item, p, f.hashNum);
        LoadCoversItem(f, init, op.item, p);
        OneTimes(Copies(init, op.item), k);
      }
    }
  }

  lemma OneTimes(a: int, k: int)
    requires a > 0 && k >= 0
    ensures a * k >= k
  {
    NonNegativeProduct(a - 1, k);
    assert (a - 1) * k == a * k - k;
  }

  lemma {:induction false} CounterRange(f: Params, h: seq<Op>, p: nat)
    requires f.size > 0
    ensures 0 <= Counter(f, h, p) <= MAX_COUNT
  {
    if h != [] { CounterRange(f, h[..|h| - 1], p); }
  }

  /** Without removals the counter is the load cut off at 255. */
  lemma {:induction false} AddOnlyCounter(f: Params, h: seq<Op>, p: nat)
    requires f.size > 0 && AddOnly(h)
    ensures Load(f, h, p) >= 0 && Counter(f, h, p) == if Load(f, h, p) > MAX_COUNT then MAX_COUNT else Load(f, h, p)
    ensures Proper(h)
  {
    if h != [] {
      assert h[|h| - 1].Add?;
      AddOnlyCounter(f, h[..|h| - 1], p);
    }
  }

  lemma {:induction false} HitsOwn(f: Params, x: Item, i: nat, n: nat)
    requires f.size > 0 && i < n
    ensures Hits(f, x, f.Pos(x, i), n) >= 1
  {
    if i < n - 1 { HitsOwn(f, x, i, n - 1); }
  }

  /** No false negatives: every counter of a present item is at least its
      multiplicity, cut off at 255. */
  lemma NoFalseNegatives(f: Params, h: seq<Op>, x: Item, i: nat)
    requires f.size > 0 && i < f.hashNum && Proper(h)
    requires Fits(f, h, f.Pos(x, i)) || AddOnly(h)
    ensures var n := Copies(h, x); Counter(f, h, f.Pos(x, i)) >= if n > MAX_COUNT then MAX_COUNT else n
  {
    var p := f.Pos(x, i);
    LoadCoversItem(f, h, x, p);
    HitsOwn(f, x, i, f.hashNum);
    CopiesNonNegative(h, x);
    AtLeast(Copies(h, x), Hits(f, x, p, f.hashNum));
    if Fits(f, h, p) { ExactIff(f, h, p); } else { AddOnlyCounter(f, h, p); }
  }

  lemma AtLeast(n: int, k: int)
    requires n >= 0 && k >= 1
    ensures n * k >= n
  {
    NonNegativeProduct(n, k - 1);
    assert n * (k - 1) == n * k - n;
  }

  /** Histories the filter answers for: removals of present items only, and either no
      removals or no position ever loaded beyond 255. */
  ghost predicate Reliable(f: Params, h: seq<Op>)
    requires f.size > 0
  {
    Proper(h) && ((forall p: nat | p < f.size :: Fits(f, h, p)) || AddOnly(h))
  }

  // ------------------------------------------------ exactly when nothing present is missed

  /** The greatest load of p since p was last empty. */
  function Peak(f: Params, h: seq<Op>, p: nat): int
    requires f.size > 0
  {
    if h == [] || Load(f, h, p) == 0 then 0
    else
      var before := Peak(f, h[..|h| - 1], p);
      if before > Load(f, h, p) then before else Load(f, h, p)
  }

  /** At no time has the load of p fallen by 255 or more without reaching zero. */
  ghost predicate Shallow(f: Params, h: seq<Op>, p: nat)
    requires f.size > 0
  {
    && (Load(f, h, p) > 0 ==> Peak(f, h, p) - Load(f, h, p) < MAX_COUNT)
    && (h != [] ==> Shallow(f, h[..|h| - 1], p))
  }

  /** The counter of p does not read 0 with something there. */
  predicate Shown(f: Params, h: seq<Op>, p: nat)
    requires f.size > 0
  {
    Load(f, h, p) > 0 ==> Counter(f, h, p) > 0
  }

  ghost predicate Alive(f: Params, h: seq<Op>, p: nat)
    requires f.size > 0
  {
    Shown(f, h, p) && (h != [] ==> Alive(f, h[..|h| - 1], p))
  }

  function Over(peak: int): int { if peak > MAX_COUNT then peak - MAX_COUNT else 0 }

  /** A counter that has never wrongly read 0 is short by what the peak had above 255,
      and the two conditions agree. */
  lemma {:induction false} AliveIff(f: Params, h: seq<Op>, p: nat)
    requires f.size > 0 && Proper(h)
    ensures Load(f, h, p) >= Counter(f, h, p) >= 0
    ensures Alive(f, h, p) <==> Shallow(f, h, p)
    ensures Alive(f, h, p) ==> Peak(f, h, p) >= Load(f, h, p)
    ensures Alive(f, h, p) ==> Counter(f, h, p) == Load(f, h, p) - Over(Peak(f, h, p))
  {
    if h != [] {
      var init, op := h[..|h| - 1], h[|h| - 1];
      AliveIff(f, init, p);
      CounterRange(f, init, p);
      var k := Hits(f, op.item, p, f.hashNum);
      if op.Remove? {
        LoadCoversItem(f, init, op.item, p);
        OneTimes(Copies(init, op.item), k);
        assert Load(f, h, p) == Load(f, init, p) - k >= 0;
      }
    }
  }

  lemma RestLoaded(f: Params, h: seq<Op>, x: Item, p: nat)
    requires f.size > 0 && h != [] && x == h[|h| - 1].item && forall y: Item :: Copies(h, y) >= 0
    requires Copies(h, x) <= 0 || Hits(f, x, p, f.hashNum) == 0
    ensures Load(f, Without(h, x), p) == Load(f, h, p) && |Without(h, x)| < |h|
    ensures forall y: Item :: Copies(Without(h, x), y) >= 0
  {
    LoadSplits(f, h, x, p);
    assert Copies(h, x) == 0 || Hits(f, x, p, f.hashNum) == 0;
    forall y: Item ensures Copies(Without(h, x), y) >= 0 { WithoutCopies(h, x, y); }
  }

  /** A loaded position is hit by something present. */
  lemma {:induction false} SomethingThere(f: Params, h: seq<Op>, p: nat) returns (x: Item, i: nat)
    requires f.size > 0 && Load(f, h, p) > 0 && forall y: Item :: Copies(h, y) >= 0
    ensures Copies(h, x) > 0 && i < f.hashNum && f.Pos(x, i) == p
    decreases |h|
  {
    x := h[|h| - 1].item;
    if Copies(h, x) > 0 && Hits(f, x, p, f.hashNum) > 0 {
      i := SomeSeed(f, x, p, f.hashNum);
    } else {
      var last, rest := x, Without(h, x);
      RestLoaded(f, h, last, p);
      x, i := SomethingThere(f, rest, p);
      WithoutCopies(h, last, x);
    }
  }

  lemma {:induction false} SomeSeed(f: Params, x: Item, p: nat, n: nat) returns (i: nat)
    requires f.size > 0 && Hits(f, x, p, n) > 0
    ensures i < n && f.Pos(x, i) == p
  {
    if f.Pos(x, n - 1) == p { i := n - 1; } else { i := SomeSeed(f, x, p, n - 1); }
  }

  /** Contains answers true. */
  ghost predicate Reported(f: Params, h: seq<Op>, x: Item)
    requires f.size > 0
  {
    forall i: nat | i < f.hashNum :: Counter(f, h, f.Pos(x, i)) > 0
  }

  /** After every operation, everything present is reported. */
  ghost predicate NothingMissed(f: Params, h: seq<Op>)
    requires f.size > 0
  {
    && (forall x: Item | Copies(h, x) > 0 :: Reported(f, h, x))
    && (h != [] ==> NothingMissed(f, h[..|h| - 1]))
  }

  /** One moment: everything present is reported exactly when no loaded position reads 0. */
  lemma ReportedNow(f: Params, h: seq<Op>)
    requires f.size > 0 && Proper(h)
    ensures (forall x: Item | Copies(h, x) > 0 :: Reported(f, h, x))
       <==> (forall p: nat | p < f.size :: Shown(f, h, p))
  {
    forall y: Item ensures Copies(h, y) >= 0 { CopiesNonNegative(h, y); }
    if forall x: Item | Copies(h, x) > 0 :: Reported(f, h, x) {
      forall p: nat | p < f.size ensures Shown(f, h, p) {
        if Load(f, h, p) > 0 {
          var x, i := SomethingThere(f, h, p);
          assert Reported(f, h, x);
        }
      }
    }
    if forall p: nat | p < f.size :: Shown(f, h, p) {
      forall x: Item | Copies(h, x) > 0 ensures Reported(f, h, x) { ShownReports(f, h, x); }
    }
  }

  lemma ShownReports(f: Params, h: seq<Op>, x: Item)
    requires f.size > 0 && Proper(h) && Copies(h, x) > 0 && forall p: nat | p < f.size :: Shown(f, h, p)
    ensures Reported(f, h, x)
  {
    forall i: nat | i < f.hashNum ensures Counter(f, h, f.Pos(x, i)) > 0 {
      LoadCoversItem(f, h, x, f.Pos(x, i));
      HitsOwn(f, x, i, f.hashNum);
      AtLeast(Copies(h, x), Hits(f, x, f.Pos(x, i), f.hashNum));
      assert Shown(f, h, f.Pos(x, i));
    }
  }

  /** No present item is ever missed exactly when no position's load ever falls by 255 or
      more from its peak without reaching zero. */
  lemma NothingMissedIff(f: Params, h: seq<Op>)
    requires f.size > 0 && Proper(h)
    ensures NothingMissed(f, h) <==> AllShallow(f, h)
  {
    NeverMissedIffAlive(f, h);
    if AllAlive(f, h) {
      forall p: nat | p < f.size ensures Shallow(f, h, p) { AliveIff(f, h, p); }
    }
    if AllShallow(f, h) {
      forall p: nat | p < f.size ensures Alive(f, h, p) { AliveIff(f, h, p); }
    }
  }

  ghost predicate AllShallow(f: Params, h: seq<Op>)
    requires f.size > 0
  {
    forall p: nat | p < f.size :: Shallow(f, h, p)
  }

  ghost predicate AllAlive(f: Params, h: seq<Op>)
    requires f.size > 0
  {
    forall p: nat | p < f.size :: Alive(f, h, p)
  }

  lemma {:induction false} NeverMissedIffAlive(f: Params, h: seq<Op>)
    requires f.size > 0 && Proper(h)
    ensures NothingMissed(f, h) <==> AllAlive(f, h)
  {
    ReportedNow(f, h);
    if h != [] {
      var init := h[..|h| - 1];
      NeverMissedIffAlive(f, init);
      if AllAlive(f, h) {
        forall p: nat | p < f.size ensures Shown(f, h, p) && Alive(f, init, p) { assert Alive(f, h, p); }
      }
      if (forall p: nat | p < f.size :: Shown(f, h, p)) && AllAlive(f, init) {
        forall p: nat | p < f.size ensures Alive(f, h, p) { assert Shown(f, h, p) && Alive(f, init, p); }
      }
    }
  }

  // ------------------------------------------------ what saturation loses

  function Repeat(op: Op, n: nat): seq<Op> { if n == 0 then [] else Repeat(op, n - 1) + [op] }

  lemma {:induction false} AddMany(f: Params, x: Item, n: nat, p: nat)
    requires f.size > 0 && Hits(f, x, p, f.hashNum) == 1
    ensures var h := Repeat(Add(x), n);
            Proper(h) && Copies(h, x) == n && Counter(f, h, p) == if n > MAX_COUNT then MAX_COUNT else n
  {
    if n > 0 {
      AddMany(f, x, n - 1, p);
      assert Repeat(Add(x), n)[..|Repeat(Add(x), n)| - 1] == Repeat(Add(x), n - 1);
    }
  }

  lemma {:induction false} RemoveMany(f: Params, h: seq<Op>, x: Item, n: nat, p: nat)
    requires f.size > 0 && Hits(f, x, p, f.hashNum) == 1 && Proper(h) && Copies(h, x) >= n
    ensures var h' := h + Repeat(Remove(x), n);
            && Proper(h') && Copies(h', x) == Copies(h, x) - n
            && Counter(f, h', p) == if n > Counter(f, h, p) then 0 else Counter(f, h, p) - n
  {
    CounterRange(f, h, p);
    if n == 0 {
      assert h + [] == h;
    } else {
      RemoveMany(f, h, x, n - 1, p);
      var h' := h + Repeat(Remove(x), n);
      assert h'[..|h'| - 1] == h + Repeat(Remove(x), n - 1);
    }
  }

  /** Beyond 255 the filter does lose items: after 256 additions and 255 removals of
      one item a copy is still present, and its counter reads 0. */
  lemma SaturationLosesAnItem(f: Params, x: Item, p: nat) returns (h: seq<Op>)
    requires f.size > 0 && Hits(f, x, p, f.hashNum) == 1
    ensures Proper(h) && Copies(h, x) == 1 && Counter(f, h, p) == 0
  {
    AddMany(f, x, 256, p);
    RemoveMany(f, Repeat(Add(x), 256), x, 255, p);
    h := Repeat(Add(x), 256) + Repeat(Remove(x), 255);
  }

  // ------------------------------------------------ the filter

  /** Counter contents after the first n seeds of one operation. */
  ghost predicate Raised(f: Params, before: seq<int>, now: seq<int>, x: Item, n: nat)
    requires f.size > 0
  {
    |now| == |before| && forall p | 0 <= p < |before| :: now[p] == Up(before[p], Hits(f, x, p, n))
  }

  ghost predicate Lowered(f: Params, before: seq<int>, now: seq<int>, x: Item, n: nat)
    requires f.size > 0
  {
    |now| == |before| && forall p | 0 <= p < |before| :: now[p] == Down(before[p], Hits(f, x, p, n))
  }

  class CountingBloomFilter {
    const f: Params
    const counters: array<int>
    ghost var history: seq<Op>

    ghost predicate Valid()
      reads this, counters
    {
      f.size > 0 && counters.Length == f.size && forall p | 0 <= p < f.size :: counters[p] == Counter(f, history, p)
    }

    constructor (f: Params)
      requires f.size > 0
      ensures Valid() && this.f == f && history == [] && fresh(counters)
    {
      this.f, history := f, [];
      counters := new int[f.size](_ => 0);
    }

    method AddItem(x: Item)
      requires Valid()
      modifies this`history, counters
      ensures Valid() && history == old(history) + [Add(x)]
    {
      ghost var before := counters[..];
      forall p | 0 <= p < f.size ensures 0 <= before[p] <= MAX_COUNT { CounterRange(f, history, p); }
      for i := 0 to f.hashNum
        invariant history == old(history) && Raised(f, before, counters[..], x, i)
      {
        var pos := f.Pos(x, i);
        if counters[pos] < MAX_COUNT {
          counters[pos] := counters[pos] + 1;
        }
      }
      history := history + [Add(x)];
      assert history[..|history| - 1] == old(history);
      forall p | 0 <= p < f.size ensures counters[p] == Counter(f, history, p)
      { assert counters[..][p] == counters[p]; }
    }

    method RemoveItem(x: Item)
      requires Valid()
      modifies this`history, counters
      ensures Valid() && history == old(history) + [Remove(x)]
    {
      ghost var before := counters[..];
      forall p | 0 <= p < f.size ensures 0 <= before[p] <= MAX_COUNT { CounterRange(f, history, p); }
      for i := 0 to f.hashNum
        invariant history == old(history) && Lowered(f, before, counters[..], x, i)
      {
        var pos := f.Pos(x, i);
        if counters[pos] > 0 {
          counters[pos] := counters[pos] - 1;
        }
      }
      history := history + [Remove(x)];
      assert history[..|history| - 1] == old(history);
      forall p | 0 <= p < f.size ensures counters[p] == Counter(f, history, p)
      { assert counters[..][p] == counters[p]; }
    }

    /** Present items are always reported, under the conditions of NoFalseNegatives. */
    method Contains(x: Item) returns (r: bool)
      requires Valid()
      ensures r <==> forall i: nat | i < f.hashNum :: Counter(f, history, f.Pos(x, i)) > 0
      ensures Reliable(f, history) && Copies(history, x) > 0 ==> r
    {
      for i := 0 to f.hashNum
        invariant forall j: nat | j < i :: Counter(f, history, f.Pos(x, j)) > 0
      {
        var pos := f.Pos(x, i);
        if counters[pos] == 0 {
          PresentIsCounted(f, history, x, i);
          return false;
        }
        CounterRange(f, history, pos);
      }
      return true;
    }

    method GetCount(x: Item) returns (minCount: int)
      requires Valid()
      ensures minCount <= MAX_COUNT && forall i: nat | i < f.hashNum :: minCount <= Counter(f, history, f.Pos(x, i))
      ensures minCount < MAX_COUNT ==> exists i: nat :: i < f.hashNum && minCount == Counter(f, history, f.Pos(x, i))
      ensures Reliable(f, history) ==>
                minCount >= if Copies(history, x) > MAX_COUNT then MAX_COUNT else Copies(history, x)
    {
      minCount := MAX_COUNT;
      for i := 0 to f.hashNum
        invariant minCount <= MAX_COUNT && forall j: nat | j < i :: minCount <= Counter(f, history, f.Pos(x, j))
        invariant minCount < MAX_COUNT ==> exists j: nat :: j < i && minCount == Counter(f, history, f.Pos(x, j))
      {
        var pos := f.Pos(x, i);
        if counters[pos] < minCount {
          minCount := counters[pos];
        }
      }
      if minCount < MAX_COUNT {
        ghost var i: nat :| i < f.hashNum && minCount == Counter(f, history, f.Pos(x, i));
        PresentIsCounted(f, history, x, i);
      }
    }

    method Clear()
      requires Valid()
      modifies this`history, counters
      ensures Valid() && history == []
    {
      for i := 0 to counters.Length
        invariant forall p | 0 <= p < i :: counters[p] == 0
      {
        counters[i] := 0;
      }
      history := [];
    }
  }

  lemma PresentIsCounted(f: Params, h: seq<Op>, x: Item, i: nat)
    requires f.size > 0 && i < f.hashNum
    ensures Reliable(f, h) ==>
              Counter(f, h, f.Pos(x, i)) >= if Copies(h, x) > MAX_COUNT then MAX_COUNT else Copies(h, x)
  {
    if Reliable(f, h) {
      NoFalseNegatives(f, h, x, i);
    }
  }
}
