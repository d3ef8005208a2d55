/** Finite sets of offsets and their sizes. */
module Intervals {

  ghost function Interval(lo: int, stop: int): (s: set<int>)
    ensures forall o :: o in s <==> lo <= o < stop
    decreases stop - lo
  {
    if stop <= lo then {} else Interval(lo, stop - 1) + {stop - 1}
  }

  lemma {:induction false} IntervalSize(lo: int, stop: int)
    requires lo <= stop
    ensures |Interval(lo, stop)| == stop - lo
    decreases stop - lo
  {
    if lo < stop {
      IntervalSize(lo, stop - 1);
    }
  }

  lemma {:induction false} SubsetSize<T>(a: set<T>, b: set<T>)
    requires a <= b
    ensures |a| <= |b|
    ensures |a| == |b| ==> a == b
  {
    assert b == a + (b - a);
    if |a| == |b| {
      assert |b - a| == 0;
    }
  }

  /** As many offsets as the interval is long leaves none of the interval out. */
  lemma {:induction false} FullCover(s: set<int>, lo: int, stop: int)
    requires lo <= stop && s <= Interval(lo, stop)
    ensures |s| <= stop - lo
    ensures |s| == stop - lo <==> s == Interval(lo, stop)
  {
    IntervalSize(lo, stop);
    SubsetSize(s, Interval(lo, stop));
  }

  lemma {:induction false} UnionSize<T>(a: set<T>, b: set<T>)
    ensures |a + b| <= |a| + |b|
    ensures |a + b| == |a| + |b| <==> a !! b
  {
    assert a + b == a + (b - a) && a !! (b - a);
    SubsetSize(b - a, b);
    assert b - a == b <==> a !! b;
  }

  lemma {:induction false} SpanAdds(covered: set<int>, at: int, len: nat)
    requires Interval(at, at + len) !! covered
    ensures |covered + Interval(at, at + len)| == |covered| + len
  {
    hide Interval;
    IntervalSize(at, at + len);
    UnionSize(covered, Interval(at, at + len));
  }
}
