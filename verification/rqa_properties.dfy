/**
 * Properties of `calc_rqa` that relate several calls or fix a parameter
 * regime: threshold and lmin monotonicity, the degenerate threshold, the
 * auto-recurrence lower bound, and the lmin <= 1 saturation.
 */
module RqaProperties {
  import opened RqaScan
  import opened Rqa

  /* ---------------------------------------------------------------- */
  /* Counting helpers                                                  */
  /* ---------------------------------------------------------------- */

  lemma {:induction false} CountOfMono(l1: seq<bool>, l2: seq<bool>)
    requires |l1| == |l2|
    requires forall t | 0 <= t < |l1| :: l1[t] ==> l2[t]
    ensures CountOf(l1, true) <= CountOf(l2, true)
    decreases |l1|
  {
    if |l1| > 0 {
      CountOfMono(l1[1..], l2[1..]);
    }
  }

  lemma {:induction false} MatrixCountMono(r1: seq<seq<bool>>, r2: seq<seq<bool>>, m: nat)
    requires |r1| == |r2|
    requires forall i | 0 <= i < |r1| :: |r1[i]| == m && |r2[i]| == m
    requires forall i, j | 0 <= i < |r1| && 0 <= j < m :: r1[i][j] ==> r2[i][j]
    ensures MatrixCountOf(r1, true) <= MatrixCountOf(r2, true)
    decreases |r1|
  {
    if |r1| > 0 {
      CountOfMono(r1[0], r2[0]);
      MatrixCountMono(r1[1..], r2[1..], m);
    }
  }

  lemma {:induction false} CountOfNone(line: seq<bool>)
    requires forall t | 0 <= t < |line| :: !line[t]
    ensures CountOf(line, true) == 0
    decreases |line|
  {
    if |line| > 0 {
      CountOfNone(line[1..]);
    }
  }

  lemma {:induction false} MatrixCountNone(r: seq<seq<bool>>)
    requires forall i, j | 0 <= i < |r| && 0 <= j < |r[i]| :: !r[i][j]
    ensures MatrixCountOf(r, true) == 0
    decreases |r|
  {
    if |r| > 0 {
      CountOfNone(r[0]);
      MatrixCountNone(r[1..]);
    }
  }

  lemma {:induction false} CountOfWitness(line: seq<bool>, t: nat)
    requires t < |line| && line[t]
    ensures CountOf(line, true) >= 1
    decreases t
  {
    if t > 0 {
      CountOfWitness(line[1..], t - 1);
    }
  }

  /** A matrix with a True cell in every row has at least as many True cells as rows. */
  lemma {:induction false} MatrixCountAtLeastRows(r: seq<seq<bool>>)
    requires forall i | 0 <= i < |r| :: CountOf(r[i], true) >= 1
    ensures MatrixCountOf(r, true) >= |r|
    decreases |r|
  {
    if |r| > 0 {
      var tail := r[1..];
      forall i | 0 <= i < |tail|
        ensures CountOf(tail[i], true) >= 1
      {
        assert tail[i] == r[i + 1];
      }
      MatrixCountAtLeastRows(tail);
    }
  }

  /* ---------------------------------------------------------------- */
  /* Recurrence rate                                                   */
  /* ---------------------------------------------------------------- */

  /** The fields of `calc_rqa` are the statistics of its recurrence matrix. */
  lemma CalcRqaFields(x: seq<real>, y: seq<real>, dim: nat, tau: nat, threshold: real, lmin: int, ln: real -> real)
    requires |x| == |y| && EmbeddingFits(|x|, dim, tau)
    ensures var r := RecurrenceMatrix(x, y, dim, tau, threshold);
            var m := PointCount(|x|, dim, tau);
            var s := CalcRqa(x, y, dim, tau, threshold, lmin, ln);
            s.recurrenceRate == RecurrenceRate(r, m)
            && s.determinism == Determinism(r, m, lmin)
            && s.laminarity == Laminarity(r, m, lmin)
            && s.avgDiagLength == AvgDiagLength(r, m, lmin)
            && s.avgVertLength == AvgVertLength(r, m, lmin)
  {
  }

  /** rr does not decrease as the threshold grows. */
  lemma RecurrenceRateMonotone(x: seq<real>, y: seq<real>, dim: nat, tau: nat, t1: real, t2: real, lmin: int, ln: real -> real)
    requires |x| == |y| && EmbeddingFits(|x|, dim, tau) && t1 <= t2
    ensures CalcRqa(x, y, dim, tau, t1, lmin, ln).recurrenceRate
         <= CalcRqa(x, y, dim, tau, t2, lmin, ln).recurrenceRate
  {
    var m := PointCount(|x|, dim, tau);
    var r1 := RecurrenceMatrix(x, y, dim, tau, t1);
    var r2 := RecurrenceMatrix(x, y, dim, tau, t2);
    forall i, j | 0 <= i < m && 0 <= j < m
      ensures r1[i][j] ==> r2[i][j]
    {
      RecurrenceMonotone(x, y, dim, tau, t1, t2, i, j);
    }
    MatrixCountMono(r1, r2, m);
    CalcRqaFields(x, y, dim, tau, t1, lmin, ln);
    CalcRqaFields(x, y, dim, tau, t2, lmin, ln);
    RateMono(MatrixCountOf(r1, true), MatrixCountOf(r2, true), m);
  }

  lemma RateMono(c1: nat, c2: nat, m: nat)
    requires m >= 1 && c1 <= c2
    ensures c1 as real / (m * m) as real <= c2 as real / (m * m) as real
  {
    assert (m * m) as real > 0.0;
  }

  /** A histogram tail is bounded by the whole histogram, which here is empty. */
  lemma EmptyTail(h: seq<nat>, start: nat)
    requires TailWeight(h, 0) == 0
    ensures TailWeight(h, start) == 0
    ensures 0 < start ==> TailCount(h, start) == 0
  {
    TailWeightAntitone(h, 0, start);
    TailWeightAtLeast(h, start);
  }

  /** With no recurrent cell, det, lam and rr are 0, and no line of length >= 1 exists. */
  lemma EmptyMatrixStatistics(r: seq<seq<bool>>, m: nat, lmin: int)
    requires IsSquare(r, m) && m >= 1 && MatrixCountOf(r, true) == 0
    ensures RecurrenceRate(r, m) == 0.0 && Determinism(r, m, lmin) == 0.0 && Laminarity(r, m, lmin) == 0.0
    ensures 0 < lmin ==> AvgDiagLength(r, m, lmin) == 0.0 && AvgVertLength(r, m, lmin) == 0.0
  {
    var start := SliceStart(lmin, m + 1);
    DiagonalHistogramInvariants(r, m);
    VerticalHistogramInvariants(r, m);
    EmptyTail(DiagonalHistogram(r, m), start);
    EmptyTail(VerticalHistogram(r, m), start);
  }

  /**
   * A threshold <= 0 admits no recurrence (every distance is >= 0), so
   * rr, det and lam are 0, and so are both average lengths when lmin > 0.
   */
  lemma NonPositiveThreshold(x: seq<real>, y: seq<real>, dim: nat, tau: nat, threshold: real, lmin: int, ln: real -> real)
    requires |x| == |y| && EmbeddingFits(|x|, dim, tau) && threshold <= 0.0
    ensures var s := CalcRqa(x, y, dim, tau, threshold, lmin, ln);
            s.recurrenceRate == 0.0 && s.determinism == 0.0 && s.laminarity == 0.0
            && (0 < lmin ==> s.avgDiagLength == 0.0 && s.avgVertLength == 0.0)
  {
    var m := PointCount(|x|, dim, tau);
    var r := RecurrenceMatrix(x, y, dim, tau, threshold);
    forall i, j | 0 <= i < |r| && 0 <= j < |r[i]|
      ensures !r[i][j]
    {
      RecurrenceCell(x, y, dim, tau, threshold, i, j);
    }
    MatrixCountNone(r);
    EmptyMatrixStatistics(r, m, lmin);
    CalcRqaFields(x, y, dim, tau, threshold, lmin, ln);
  }

  /**
   * Auto-recurrence with threshold > 0: every point recurs with itself,
   * so at least M of the M^2 cells recur and rr >= 1/M.
   */
  lemma SelfRecurrenceRate(x: seq<real>, dim: nat, tau: nat, threshold: real, lmin: int, ln: real -> real)
    requires EmbeddingFits(|x|, dim, tau) && threshold > 0.0
    ensures CalcRqa(x, x, dim, tau, threshold, lmin, ln).recurrenceRate
         >= 1.0 / PointCount(|x|, dim, tau) as real
  {
    var m := PointCount(|x|, dim, tau);
    var r := RecurrenceMatrix(x, x, dim, tau, threshold);
    forall i | 0 <= i < m
      ensures CountOf(r[i], true) >= 1
    {
      SelfRecurrence(x, dim, tau, threshold, i, i);
      CountOfWitness(r[i], i);
    }
    MatrixCountAtLeastRows(r);
    CalcRqaFields(x, x, dim, tau, threshold, lmin, ln);
    RateAtLeastInverse(MatrixCountOf(r, true), m);
  }

  lemma RateAtLeastInverse(c: nat, m: nat)
    requires m >= 1 && c >= m
    ensures c as real / (m * m) as real >= 1.0 / m as real
  {
    var mr := m as real;
    assert (m * m) as real == mr * mr;
    assert c as real / (mr * mr) >= mr / (mr * mr);
    assert mr / (mr * mr) == 1.0 / mr;
  }

  /* ---------------------------------------------------------------- */
  /* Determinism and laminarity against lmin                           */
  /* ---------------------------------------------------------------- */

  /**
   * With 0 <= lmin <= 1 the tails cover every line length >= 1, so the
   * weighted sums are the whole recurrent mass and det = lam = 1 whenever
   * some cell recurs.
   */
  lemma ShortLminSaturates(r: seq<seq<bool>>, m: nat, lmin: int)
    requires IsSquare(r, m) && m >= 1 && 0 <= lmin <= 1 && MatrixCountOf(r, true) > 0
    ensures Determinism(r, m, lmin) == 1.0
    ensures Laminarity(r, m, lmin) == 1.0
  {
    var start := SliceStart(lmin, m + 1);
    DiagonalHistogramInvariants(r, m);
    VerticalHistogramInvariants(r, m);
    WholeTail(DiagonalHistogram(r, m), start);
    WholeTail(VerticalHistogram(r, m), start);
    RatioSelf(MatrixCountOf(r, true));
    assert Determinism(r, m, lmin) == Ratio(TailWeight(DiagonalHistogram(r, m), start), MatrixCountOf(r, true));
    assert Laminarity(r, m, lmin) == Ratio(TailWeight(VerticalHistogram(r, m), start), MatrixCountOf(r, true));
  }

  lemma RatioSelf(n: nat)
    requires n > 0
    ensures Ratio(n, n) == 1.0
  {
  }

  /** Slots 0 and 1 start the same weighted tail: length-0 records weigh nothing. */
  lemma WholeTail(h: seq<nat>, start: nat)
    requires |h| >= 1 && start <= 1
    ensures TailWeight(h, start) == TailWeight(h, 0)
  {
  }

  /** The same saturation, stated on `calc_rqa` itself. */
  lemma CalcRqaShortLmin(x: seq<real>, y: seq<real>, dim: nat, tau: nat, threshold: real, lmin: int, ln: real -> real)
    requires |x| == |y| && EmbeddingFits(|x|, dim, tau) && 0 <= lmin <= 1
    requires CalcRqa(x, y, dim, tau, threshold, lmin, ln).recurrenceRate > 0.0
    ensures CalcRqa(x, y, dim, tau, threshold, lmin, ln).determinism == 1.0
    ensures CalcRqa(x, y, dim, tau, threshold, lmin, ln).laminarity == 1.0
  {
    CalcRqaFields(x, y, dim, tau, threshold, lmin, ln);
    ShortLminSaturates(RecurrenceMatrix(x, y, dim, tau, threshold), PointCount(|x|, dim, tau), lmin);
  }

  lemma RatioMonoNumerator(a: nat, b: nat, den: nat)
    requires a <= b
    ensures Ratio(a, den) <= Ratio(b, den)
  {
    if den > 0 {
      assert a as real / den as real <= b as real / den as real;
    }
  }

  /** det and lam do not increase as lmin grows (for lmin >= 0). */
  lemma DeterminismAntitone(r: seq<seq<bool>>, m: nat, l1: int, l2: int)
    requires IsSquare(r, m) && m >= 1 && 0 <= l1 <= l2
    ensures Determinism(r, m, l2) <= Determinism(r, m, l1)
    ensures Laminarity(r, m, l2) <= Laminarity(r, m, l1)
  {
    var d := DiagonalHistogram(r, m);
    var v := VerticalHistogram(r, m);
    var s1 := SliceStart(l1, m + 1);
    var s2 := SliceStart(l2, m + 1);
    TailWeightAntitone(d, s1, s2);
    TailWeightAntitone(v, s1, s2);
    RatioMonoNumerator(TailWeight(d, s2), TailWeight(d, s1), MatrixCountOf(r, true));
    RatioMonoNumerator(TailWeight(v, s2), TailWeight(v, s1), MatrixCountOf(r, true));
  }

  /** The same monotonicity, stated on `calc_rqa` itself. */
  lemma CalcRqaLminAntitone(x: seq<real>, y: seq<real>, dim: nat, tau: nat, threshold: real, l1: int, l2: int, ln: real -> real)
    requires |x| == |y| && EmbeddingFits(|x|, dim, tau) && 0 <= l1 <= l2
    ensures CalcRqa(x, y, dim, tau, threshold, l2, ln).determinism <= CalcRqa(x, y, dim, tau, threshold, l1, ln).determinism
    ensures CalcRqa(x, y, dim, tau, threshold, l2, ln).laminarity <= CalcRqa(x, y, dim, tau, threshold, l1, ln).laminarity
  {
    CalcRqaFields(x, y, dim, tau, threshold, l1, ln);
    CalcRqaFields(x, y, dim, tau, threshold, l2, ln);
    DeterminismAntitone(RecurrenceMatrix(x, y, dim, tau, threshold), PointCount(|x|, dim, tau), l1, l2);
  }

  /**
   * An lmin past the last histogram slot leaves empty tails: det, lam,
   * both averages and both entropies are 0.
   */
  lemma LminBeyondLongestLine(r: seq<seq<bool>>, m: nat, lmin: int, ln: real -> real)
    requires IsSquare(r, m) && m >= 1 && lmin > m
    ensures var s := Statistics(r, m, lmin, ln);
            s.determinism == 0.0 && s.laminarity == 0.0
            && s.avgDiagLength == 0.0 && s.avgVertLength == 0.0
            && s.dEntropy == 0.0 && s.vEntropy == 0.0
  {
    var d := DiagonalHistogram(r, m);
    var v := VerticalHistogram(r, m);
    assert d[m + 1..] == [] && v[m + 1..] == [];
  }
}
