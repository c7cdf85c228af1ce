/**
 * Finite sums over integer ranges, and the reindexing facts the
 * line-length scans of the RQA engine need: splitting, shifting,
 * pointwise comparison and exchanging the order of a double sum.
 */
module Sums {

  /** Sum of f(i) for lo <= i < hi (zero when the range is empty). */
  function Sum(lo: int, hi: int, f: int -> int): int
    decreases hi - lo
  {
    if lo >= hi then 0 else f(lo) + Sum(lo + 1, hi, f)
  }

  lemma {:induction false} SumExt(lo: int, hi: int, f: int -> int, g: int -> int)
    requires forall i :: lo <= i < hi ==> f(i) == g(i)
    ensures Sum(lo, hi, f) == Sum(lo, hi, g)
    decreases hi - lo
  {
    if lo < hi {
      SumExt(lo + 1, hi, f, g);
    }
  }

  lemma {:induction false} SumZero(lo: int, hi: int, f: int -> int)
    requires forall i :: lo <= i < hi ==> f(i) == 0
    ensures Sum(lo, hi, f) == 0
    decreases hi - lo
  {
    if lo < hi {
      SumZero(lo + 1, hi, f);
    }
  }

  lemma {:induction false} SumConst(lo: int, hi: int, f: int -> int, c: int)
    requires lo <= hi
    requires forall i :: lo <= i < hi ==> f(i) == c
    ensures Sum(lo, hi, f) == (hi - lo) * c
    decreases hi - lo
  {
    if lo < hi {
      SumConst(lo + 1, hi, f, c);
    }
  }

  lemma {:induction false} SumSplit(lo: int, mid: int, hi: int, f: int -> int)
    requires lo <= mid <= hi
    ensures Sum(lo, hi, f) == Sum(lo, mid, f) + Sum(mid, hi, f)
    decreases mid - lo
  {
    if lo < mid {
      SumSplit(lo + 1, mid, hi, f);
    }
  }

  /** Reindexing: g agrees with f moved d places to the right. */
  lemma {:induction false} SumShift(lo: int, hi: int, d: int, f: int -> int, g: int -> int)
    requires forall i :: lo <= i < hi ==> g(i + d) == f(i)
    ensures Sum(lo, hi, f) == Sum(lo + d, hi + d, g)
    decreases hi - lo
  {
    if lo < hi {
      SumShift(lo + 1, hi, d, f, g);
    }
  }

  lemma {:induction false} SumAdd(lo: int, hi: int, f: int -> int, g: int -> int, h: int -> int)
    requires forall i :: lo <= i < hi ==> h(i) == f(i) + g(i)
    ensures Sum(lo, hi, h) == Sum(lo, hi, f) + Sum(lo, hi, g)
    decreases hi - lo
  {
    if lo < hi {
      SumAdd(lo + 1, hi, f, g, h);
    }
  }

  lemma {:induction false} SumMono(lo: int, hi: int, f: int -> int, g: int -> int)
    requires forall i :: lo <= i < hi ==> f(i) <= g(i)
    ensures Sum(lo, hi, f) <= Sum(lo, hi, g)
    decreases hi - lo
  {
    if lo < hi {
      SumMono(lo + 1, hi, f, g);
    }
  }

  lemma {:induction false} SumNonNegative(lo: int, hi: int, f: int -> int)
    requires forall i :: lo <= i < hi ==> 0 <= f(i)
    ensures 0 <= Sum(lo, hi, f)
    decreases hi - lo
  {
    if lo < hi {
      SumNonNegative(lo + 1, hi, f);
    }
  }

  /** A double sum over a rectangle may be taken in either order. */
  lemma {:induction false} SumSwap(lo1: int, hi1: int, lo2: int, hi2: int, g: (int, int) -> int)
    ensures Sum(lo1, hi1, i => Sum(lo2, hi2, j => g(i, j)))
         == Sum(lo2, hi2, j => Sum(lo1, hi1, i => g(i, j)))
    decreases hi1 - lo1
  {
    var rows := j => Sum(lo1, hi1, i => g(i, j));
    if lo1 >= hi1 {
      SumZero(lo2, hi2, rows);
    } else {
      var first := j => g(lo1, j);
      var rest := j => Sum(lo1 + 1, hi1, i => g(i, j));
      SumSwap(lo1 + 1, hi1, lo2, hi2, g);
      SumAdd(lo2, hi2, first, rest, rows);
    }
  }
}
