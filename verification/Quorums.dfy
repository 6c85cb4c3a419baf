/** How many nodes two quorums of 2f+1 share, with f = (N-1)/3 as the code computes it. */
module Quorums {
  import opened Pbft
  import opened PbftSafety

  function Upto(n: nat): set<nat> { if n == 0 then {} else Upto(n - 1) + {n - 1} }

  lemma {:induction false} UptoIs(n: nat)
    ensures |Upto(n)| == n && forall k: nat :: k in Upto(n) <==> k < n
  {
    if n > 0 { UptoIs(n - 1); }
  }

  ghost predicate Quorum(q: set<nat>, size: nat) {
    q <= Upto(size) && |q| >= 2 * Faults(size) + 1
  }

  lemma {:induction false} UnionSize(xs: set<nat>, ys: set<nat>)
    ensures |xs + ys| + |xs * ys| == |xs| + |ys|
    decreases xs
  {
    if xs == {} {
      assert xs + ys == ys && xs * ys == {};
    } else {
      var x :| x in xs;
      var rest := xs - {x};
      UnionSize(rest, ys);
      if x in ys {
        assert xs + ys == rest + ys && xs * ys == (rest * ys) + {x};
      } else {
        assert xs + ys == (rest + ys) + {x} && xs * ys == rest * ys;
      }
    }
  }

  lemma {:induction false} SubsetAtMost(xs: set<nat>, n: nat)
    requires xs <= Upto(n)
    ensures |xs| <= n
  {
    if n > 0 {
      SubsetAtMost(xs - {n - 1}, n - 1);
    }
  }

  lemma QuorumsOverlap(a: set<nat>, b: set<nat>, size: nat)
    requires size > 0 && Quorum(a, size) && Quorum(b, size)
    ensures |a * b| >= 4 * Faults(size) + 2 - size
  {
    UnionSize(a, b);
    SubsetAtMost(a + b, size);
  }

  /** Two quorums that share as little as possible. */
  lemma ThinOverlap(size: nat) returns (a: set<nat>, b: set<nat>)
    requires size > 0
    ensures Quorum(a, size) && Quorum(b, size)
    ensures |a * b| == if 4 * Faults(size) + 2 > size then 4 * Faults(size) + 2 - size else 0
  {
    var q := 2 * Faults(size) + 1;
    FirstAndLast(size, q);
    a, b := Upto(q), Upto(size) - Upto(size - q);
  }

  /** The first q and the last q of size numbers. */
  lemma FirstAndLast(size: nat, q: nat)
    requires q <= size
    ensures var a, b := Upto(q), Upto(size) - Upto(size - q);
            && a <= Upto(size) && |a| == q && b <= Upto(size) && |b| == q
            && |a * b| == if 2 * q > size then 2 * q - size else 0
  {
    UptoIs(size); UptoIs(q); UptoIs(size - q);
    var a, b := Upto(q), Upto(size) - Upto(size - q);
    SizeMinus(Upto(size), Upto(size - q));
    if size - q <= q {
      assert a * b == Upto(q) - Upto(size - q);
      SizeMinus(Upto(q), Upto(size - q));
    } else {
      assert a * b == {};
    }
  }

  lemma SizeMinus(xs: set<nat>, ys: set<nat>)
    requires ys <= xs
    ensures |xs - ys| == |xs| - |ys|
  {
    assert xs == (xs - ys) + ys;
  }

  /** Any two quorums share f+1 nodes, so at least one beyond any f, exactly for
      shard sizes of the form 3f+1. */
  lemma QuorumsShareIff(size: nat)
    requires size > 0
    ensures size == 3 * Faults(size) + 1
       <==> forall a: set<nat>, b: set<nat> | Quorum(a, size) && Quorum(b, size) :: |a * b| >= Faults(size) + 1
  {
    forall a: set<nat>, b: set<nat> | Quorum(a, size) && Quorum(b, size)
      ensures |a * b| >= 4 * Faults(size) + 2 - size
    {
      QuorumsOverlap(a, b, size);
    }
    var a, b := ThinOverlap(size);
  }

  /** In every run of a shard of 3f+1 nodes, the commit votes behind any two applied
      requests, at whichever nodes, have f+1 voters in common. */
  lemma DecisionsShareVoters(size: nat, run: seq<System>, k: nat, i: nat, j: nat, d: Digest, e: Digest)
    requires size > 0 && size == 3 * Faults(size) + 1 && Run(size, run) && k < |run| && i < size && j < size
    requires |run[k].nodes| == size && d in run[k].nodes[i].applied && e in run[k].nodes[j].applied
    ensures |VotesFor(run[k].nodes[i].commits, d) * VotesFor(run[k].nodes[j].commits, e)| >= Faults(size) + 1
  {
    VotersAreQuorum(size, run, k, i, d);
    VotersAreQuorum(size, run, k, j, e);
    QuorumsOverlap(VotesFor(run[k].nodes[i].commits, d), VotesFor(run[k].nodes[j].commits, e), size);
  }

  lemma VotersAreQuorum(size: nat, run: seq<System>, k: nat, i: nat, d: Digest)
    requires size > 0 && Run(size, run) && k < |run| && i < size
    requires |run[k].nodes| == size && d in run[k].nodes[i].applied
    ensures Quorum(VotesFor(run[k].nodes[i].commits, d), size)
  {
    AppliedHasQuorums(size, run, k, i);
    var votes := VotesFor(run[k].nodes[i].commits, d);
    UptoIs(size);
    forall j | j in votes ensures j in Upto(size) { assert Prepared(run[k], j, d); }
  }
}
