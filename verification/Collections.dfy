/** What several modules need of options, sets and sequences. */
module Collections {
  datatype Option<T> = None | Some(value: T)

  ghost predicate Distinct<T>(xs: seq<T>) {
    forall i, j | 0 <= i < j < |xs| :: xs[i] != xs[j]
  }

  /** A subset is no larger, and as large only if it is all. */
  lemma {:induction false} SubsetSize<T>(xs: set<T>, ys: set<T>)
    requires xs <= ys
    ensures |xs| <= |ys|
    ensures |xs| == |ys| ==> xs == ys
    decreases |xs|
  {
    if xs != {} {
      var x :| x in xs;
      SubsetSize(xs - {x}, ys - {x});
      assert xs == (xs - {x}) + {x} && ys == (ys - {x}) + {x};
    } else if ys != {} {
      var y :| y in ys;
      assert |ys - {y}| + 1 == |ys|;
    }
  }

  lemma DistinctParts<T>(head: seq<T>, tail: seq<T>)
    requires Distinct(head + tail)
    ensures forall x | x in head :: x !in tail
  {
    forall x | x in head ensures x !in tail {
      var a :| 0 <= a < |head| && head[a] == x;
      assert (head + tail)[a] == x;
      assert forall b | 0 <= b < |tail| :: (head + tail)[|head| + b] == tail[b];
    }
  }
}
