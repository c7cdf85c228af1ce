/**
 * Recurrence Quantification Analysis (calc_rqa, src/mopipe/core/analysis/rqa.py).
 *
 * Two equally long sample sequences are delay-embedded with dimension
 * `dim` and delay `tau`; point t of an embedding is the vector
 * (x[t], x[t + tau], ..., x[t + (dim-1) tau]). Point i of x and point j of
 * y recur when their Euclidean distance is strictly below `threshold`.
 * Samples are exact reals, and the distance test is stated on the squared
 * distance (no square root is needed: for a non-negative distance d,
 * d < threshold iff threshold > 0 and d * d < threshold * threshold).
 *
 * The statistics are computed from the histograms of `RqaScan`.
 */
module Rqa {
  import opened Sums
  import opened RqaScan

  /* ---------------------------------------------------------------- */
  /* Delay embedding (rqa.py:27-32)                                    */
  /* ---------------------------------------------------------------- */

  /** The embedding leaves at least one point. */
  predicate EmbeddingFits(n: nat, dim: nat, tau: nat) {
    dim >= 1 && n > (dim - 1) * tau
  }

  /** M, the number of embedded points (`msize`). */
  function PointCount(n: nat, dim: nat, tau: nat): nat
    requires EmbeddingFits(n, dim, tau)
  {
    n - (dim - 1) * tau
  }

  /** Multiplying by a natural number keeps the order of the factors. */
  lemma MulLe(a: nat, b: nat, t: nat)
    requires a <= b
    ensures a * t <= b * t
  {
    var d := b - a;
    assert b * t == a * t + d * t;
  }

  /** Multiplication distributes over a sum of natural numbers. */
  lemma MulAdd(t: nat, a: nat, b: nat)
    ensures t * (a + b) == t * a + t * b
  {
  }

  /** The product of two naturals, taken as a real, is the product of the reals. */
  lemma MulAsReal(a: nat, b: nat)
    ensures (a * b) as real == a as real * b as real
  {
  }

  lemma DelayArithmetic(dim: nat, tau: nat, c: nat)
    requires c < dim
    ensures c * tau + (dim - c - 1) * tau == (dim - 1) * tau
  {
    assert (dim - 1) * tau == (c + (dim - c - 1)) * tau;
  }

  /** Row c of the delay matrix: `x[c*tau : n - (dim-c-1)*tau]`. */
  function DelayRow(x: seq<real>, dim: nat, tau: nat, c: nat): (row: seq<real>)
    requires EmbeddingFits(|x|, dim, tau) && c < dim
    ensures |row| == PointCount(|x|, dim, tau)
    ensures forall t | 0 <= t < |row| :: row[t] == x[c * tau + t]
  {
    DelayArithmetic(dim, tau, c);
    x[c * tau .. |x| - (dim - c - 1) * tau]
  }

  /** The dim x M delay matrix `np.array(embed_data_x)`. */
  function Embed(x: seq<real>, dim: nat, tau: nat): (e: seq<seq<real>>)
    requires EmbeddingFits(|x|, dim, tau)
    ensures |e| == dim
    ensures forall c | 0 <= c < dim :: |e[c]| == PointCount(|x|, dim, tau)
    ensures forall c, t | 0 <= c < dim && 0 <= t < PointCount(|x|, dim, tau) :: e[c][t] == x[c * tau + t]
  {
    var e := seq(dim, c requires 0 <= c < dim => DelayRow(x, dim, tau, c));
    assert forall c | 0 <= c < dim :: e[c] == DelayRow(x, dim, tau, c);
    e
  }

  /** With dim = 1 the embedding is the sequence itself, whatever the delay. */
  lemma EmbedDimOne(x: seq<real>, tau: nat)
    requires |x| > 0
    ensures Embed(x, 1, tau) == [x]
  {
    assert Embed(x, 1, tau)[0] == x;
  }

  /** Point t of an embedding: column t of the delay matrix. */
  function Point(e: seq<seq<real>>, t: nat): (p: seq<real>)
    requires forall c | 0 <= c < |e| :: t < |e[c]|
    ensures |p| == |e|
    ensures forall c | 0 <= c < |e| :: p[c] == e[c][t]
  {
    seq(|e|, c requires 0 <= c < |e| => e[c][t])
  }

  /* ---------------------------------------------------------------- */
  /* Distances and recurrence (rqa.py:34-35)                           */
  /* ---------------------------------------------------------------- */

  function Sq(a: real): real {
    a * a
  }

  /** Squared Euclidean distance between two points of equal dimension. */
  function SquaredDistance(p: seq<real>, q: seq<real>): (d: real)
    requires |p| == |q|
    ensures d >= 0.0
    decreases |p|
  {
    if |p| == 0 then 0.0
    else SquaredDistance(p[..|p| - 1], q[..|q| - 1]) + Sq(p[|p| - 1] - q[|q| - 1])
  }

  /** One cell of the recurrence matrix: distance strictly below threshold. */
  predicate Recurrent(p: seq<real>, q: seq<real>, threshold: real)
    requires |p| == |q|
  {
    threshold > 0.0 && SquaredDistance(p, q) < threshold * threshold
  }

  /**
   * The squared-distance test is the strict Euclidean test: for the
   * non-negative root `dist` of the squared distance, the cell recurs iff
   * dist < threshold.
   */
  lemma RecurrentIffCloser(p: seq<real>, q: seq<real>, threshold: real, dist: real)
    requires |p| == |q|
    requires dist >= 0.0 && dist * dist == SquaredDistance(p, q)
    ensures Recurrent(p, q, threshold) <==> dist < threshold
  {
    if threshold > 0.0 {
      if dist < threshold {
        SquareStrictMono(dist, threshold);
      } else {
        SquareMono(threshold, dist);
      }
    }
  }

  /** `distance_matrix(...) < threshold`: the M x M recurrence matrix. */
  function RecurrenceMatrix(x: seq<real>, y: seq<real>, dim: nat, tau: nat, threshold: real): (r: seq<seq<bool>>)
    requires |x| == |y| && EmbeddingFits(|x|, dim, tau)
    ensures IsSquare(r, PointCount(|x|, dim, tau))
  {
    var ex := Embed(x, dim, tau);
    var ey := Embed(y, dim, tau);
    var m := PointCount(|x|, dim, tau);
    seq(m, i requires 0 <= i < m =>
      seq(m, j requires 0 <= j < m => Recurrent(Point(ex, i), Point(ey, j), threshold)))
  }

  lemma RecurrenceCell(x: seq<real>, y: seq<real>, dim: nat, tau: nat, threshold: real, i: nat, j: nat)
    requires |x| == |y| && EmbeddingFits(|x|, dim, tau)
    requires i < PointCount(|x|, dim, tau) && j < PointCount(|x|, dim, tau)
    ensures RecurrenceMatrix(x, y, dim, tau, threshold)[i][j]
        == Recurrent(Point(Embed(x, dim, tau), i), Point(Embed(y, dim, tau), j), threshold)
  {
  }

  /**
   * Squared distance between delay points i of x and j of y, summed over
   * the first k coordinates straight from the samples.
   */
  function DelaySquaredDistance(x: seq<real>, y: seq<real>, tau: nat, i: nat, j: nat, k: nat): real
    requires forall c | 0 <= c < k :: i + c * tau < |x| && j + c * tau < |y|
  {
    if k == 0 then 0.0
    else DelaySquaredDistance(x, y, tau, i, j, k - 1) + Sq(x[i + (k - 1) * tau] - y[j + (k - 1) * tau])
  }

  lemma DelayIndexBound(n: nat, dim: nat, tau: nat, i: nat, c: nat)
    requires EmbeddingFits(n, dim, tau) && i < PointCount(n, dim, tau) && c < dim
    ensures i + c * tau < n
  {
    MulLe(c, dim - 1, tau);
  }

  lemma DelayIndexBounds(x: seq<real>, y: seq<real>, dim: nat, tau: nat, i: nat, j: nat, k: nat)
    requires |x| == |y| && EmbeddingFits(|x|, dim, tau)
    requires i < PointCount(|x|, dim, tau) && j < PointCount(|x|, dim, tau) && k <= dim
    ensures forall c | 0 <= c < k :: i + c * tau < |x| && j + c * tau < |y|
  {
    forall c | 0 <= c < k
      ensures i + c * tau < |x| && j + c * tau < |y|
    {
      DelayIndexBound(|x|, dim, tau, i, c);
      DelayIndexBound(|x|, dim, tau, j, c);
    }
  }

  lemma {:induction false} CoordinatesDistance(p: seq<real>, q: seq<real>, x: seq<real>, y: seq<real>, tau: nat, i: nat, j: nat, k: nat)
    requires |p| == |q| && k <= |p|
    requires forall c | 0 <= c < k :: i + c * tau < |x| && j + c * tau < |y|
    requires forall c | 0 <= c < k :: p[c] == x[i + c * tau] && q[c] == y[j + c * tau]
    ensures SquaredDistance(p[..k], q[..k]) == DelaySquaredDistance(x, y, tau, i, j, k)
  {
    if k > 0 {
      CoordinatesDistance(p, q, x, y, tau, i, j, k - 1);
      assert p[..k][..k - 1] == p[..k - 1];
      assert q[..k][..k - 1] == q[..k - 1];
    }
  }

  /**
   * Meaning of the recurrence matrix in terms of the samples: R[i][j]
   * holds iff threshold > 0 and the sum over the dim delay coordinates of
   * (x[i + c tau] - y[j + c tau])^2 is below threshold^2.
   */
  lemma RecurrenceFromSamples(x: seq<real>, y: seq<real>, dim: nat, tau: nat, threshold: real, i: nat, j: nat)
    requires |x| == |y| && EmbeddingFits(|x|, dim, tau)
    requires i < PointCount(|x|, dim, tau) && j < PointCount(|x|, dim, tau)
    ensures forall c | 0 <= c < dim :: i + c * tau < |x| && j + c * tau < |y|
    ensures RecurrenceMatrix(x, y, dim, tau, threshold)[i][j]
        <==> threshold > 0.0 && DelaySquaredDistance(x, y, tau, i, j, dim) < threshold * threshold
  {
    DelayIndexBounds(x, y, dim, tau, i, j, dim);
    RecurrenceCell(x, y, dim, tau, threshold, i, j);
    var p := Point(Embed(x, dim, tau), i);
    var q := Point(Embed(y, dim, tau), j);
    CoordinatesDistance(p, q, x, y, tau, i, j, dim);
    assert p[..dim] == p;
    assert q[..dim] == q;
  }

  lemma {:induction false} SquaredDistanceSymmetric(p: seq<real>, q: seq<real>)
    requires |p| == |q|
    ensures SquaredDistance(p, q) == SquaredDistance(q, p)
    decreases |p|
  {
    if |p| > 0 {
      SquaredDistanceSymmetric(p[..|p| - 1], q[..|q| - 1]);
      assert Sq(p[|p| - 1] - q[|q| - 1]) == Sq(q[|q| - 1] - p[|p| - 1]);
    }
  }

  lemma {:induction false} SquaredDistanceSelf(p: seq<real>)
    ensures SquaredDistance(p, p) == 0.0
    decreases |p|
  {
    if |p| > 0 {
      SquaredDistanceSelf(p[..|p| - 1]);
    }
  }

  /**
   * Auto-recurrence: with x = y and threshold > 0 every point recurs with
   * itself, and recurrence is symmetric.
   */
  lemma SelfRecurrence(x: seq<real>, dim: nat, tau: nat, threshold: real, i: nat, j: nat)
    requires EmbeddingFits(|x|, dim, tau) && threshold > 0.0
    requires i < PointCount(|x|, dim, tau) && j < PointCount(|x|, dim, tau)
    ensures RecurrenceMatrix(x, x, dim, tau, threshold)[i][i]
    ensures RecurrenceMatrix(x, x, dim, tau, threshold)[i][j] == RecurrenceMatrix(x, x, dim, tau, threshold)[j][i]
  {
    var e := Embed(x, dim, tau);
    RecurrenceCell(x, x, dim, tau, threshold, i, i);
    RecurrenceCell(x, x, dim, tau, threshold, i, j);
    RecurrenceCell(x, x, dim, tau, threshold, j, i);
    var pi := Point(e, i);
    var pj := Point(e, j);
    SquaredDistanceSelf(pi);
    SquaredDistanceSymmetric(pi, pj);
    SquareStrictMono(0.0, threshold);
    assert Recurrent(pi, pi, threshold);
    assert Recurrent(pi, pj, threshold) == Recurrent(pj, pi, threshold);
  }

  /** Raising the threshold never removes a recurrence. */
  lemma RecurrenceMonotone(x: seq<real>, y: seq<real>, dim: nat, tau: nat, t1: real, t2: real, i: nat, j: nat)
    requires |x| == |y| && EmbeddingFits(|x|, dim, tau) && t1 <= t2
    requires i < PointCount(|x|, dim, tau) && j < PointCount(|x|, dim, tau)
    ensures RecurrenceMatrix(x, y, dim, tau, t1)[i][j] ==> RecurrenceMatrix(x, y, dim, tau, t2)[i][j]
  {
    RecurrenceCell(x, y, dim, tau, t1, i, j);
    RecurrenceCell(x, y, dim, tau, t2, i, j);
    if t1 > 0.0 {
      SquareMono(t1, t2);
    }
  }

  /* ---------------------------------------------------------------- */
  /* Statistics (rqa.py:60-78)                                         */
  /* ---------------------------------------------------------------- */

  /** The seven values `calc_rqa` returns, in order. */
  datatype RqaStats = RqaStats(
    recurrenceRate: real,
    determinism: real,
    laminarity: real,
    avgDiagLength: real,
    avgVertLength: real,
    dEntropy: real,
    vEntropy: real)

  /**
   * Start of the numpy slice `h[lmin:]` on an array of length len: a
   * negative lmin counts from the end, and both ends clamp.
   */
  function SliceStart(lmin: int, len: nat): (s: nat)
    ensures s <= len
  {
    if lmin >= 0 then (if lmin <= len then lmin else len)
    else if len + lmin >= 0 then len + lmin
    else 0
  }

  /** `num / den if den > 0 else 0`. */
  function Ratio(num: nat, den: nat): real {
    if den > 0 then num as real / den as real else 0.0
  }

  /** The positive entries of h, in order (`h[h > 0]`). */
  function Positive(h: seq<nat>): (p: seq<nat>)
    ensures forall k | 0 <= k < |p| :: p[k] > 0
    ensures SeqSum(p) == SeqSum(h)
    ensures |p| <= |h|
    decreases |h|
  {
    if |h| == 0 then []
    else if h[0] > 0 then [h[0]] + Positive(h[1..])
    else Positive(h[1..])
  }

  /** Sum of (c / total) * ln(c / total) over the counts. */
  function PLogP(counts: seq<nat>, total: nat, ln: real -> real): real
    decreases |counts|
  {
    if |counts| == 0 || total == 0 then 0.0
    else
      var p := counts[0] as real / total as real;
      p * ln(p) + PLogP(counts[1..], total, ln)
  }

  /**
   * Shannon entropy of the line-length distribution h[start:], over the
   * positive entries only (rqa.py:70-76). The natural logarithm is a
   * parameter: the model does not fix its values.
   */
  function Entropy(h: seq<nat>, start: nat, ln: real -> real): (e: real)
    ensures (forall k | start <= k < |h| :: h[k] == 0) ==> e == 0.0
  {
    var tail := if start <= |h| then h[start..] else [];
    PositiveOfZeros(tail);
    var counts := Positive(tail);
    -PLogP(counts, SeqSum(counts), ln)
  }

  /** Without positive entries there is nothing to keep. */
  lemma {:induction false} PositiveOfZeros(h: seq<nat>)
    ensures (forall k | 0 <= k < |h| :: h[k] == 0) ==> Positive(h) == []
    decreases |h|
  {
    if |h| > 0 {
      PositiveOfZeros(h[1..]);
    }
  }

  /** Exactly one positive entry leaves exactly that entry. */
  lemma {:induction false} PositiveOfSingle(h: seq<nat>, j: nat)
    requires j < |h| && h[j] > 0
    requires forall k | 0 <= k < |h| && k != j :: h[k] == 0
    ensures Positive(h) == [h[j]]
    decreases |h|
  {
    var t := h[1..];
    if j == 0 {
      PositiveOfZeros(t);
    } else {
      PositiveOfSingle(t, j - 1);
    }
  }

  /**
   * When every line from lmin on has one and the same length, the
   * distribution is a single point and its entropy is -1·ln 1 = 0.
   */
  lemma EntropyOneLength(h: seq<nat>, start: nat, ln: real -> real, j: nat)
    requires ln(1.0) == 0.0
    requires start <= j < |h| && h[j] > 0
    requires forall k | start <= k < |h| && k != j :: h[k] == 0
    ensures Entropy(h, start, ln) == 0.0
  {
    var tail := h[start..];
    PositiveOfSingle(tail, j - start);
    var c := [h[j]];
    assert SeqSum(c) == h[j] by { assert c[1..] == []; }
    assert h[j] as real / h[j] as real == 1.0;
    assert PLogP(c, h[j], ln) == 1.0 * ln(1.0) + PLogP(c[1..], h[j], ln);
    assert c[1..] == [];
  }

  /** rr = rr_sum / M^2 (rqa.py:60-61). */
  function RecurrenceRate(r: seq<seq<bool>>, m: nat): (rr: real)
    requires IsSquare(r, m) && m >= 1
    ensures 0.0 <= rr <= 1.0
    ensures rr == 0.0 <==> MatrixCountOf(r, true) == 0
  {
    MatrixCountBound(r, m, true);
    RateAtMostOne(MatrixCountOf(r, true), m);
    MatrixCountOf(r, true) as real / (m * m) as real
  }

  /** det: share of recurrent cells on diagonal lines of length >= lmin (rqa.py:62). */
  function Determinism(r: seq<seq<bool>>, m: nat, lmin: int): (det: real)
    requires IsSquare(r, m) && m >= 1
    ensures 0.0 <= det <= 1.0
    ensures MatrixCountOf(r, true) == 0 ==> det == 0.0
  {
    var d := DiagonalHistogram(r, m);
    var start := SliceStart(lmin, m + 1);
    DiagonalHistogramInvariants(r, m);
    TailWeightAntitone(d, 0, start);
    RatioAtMostOne(TailWeight(d, start), MatrixCountOf(r, true));
    Ratio(TailWeight(d, start), MatrixCountOf(r, true))
  }

  /** lam: share of recurrent cells on vertical lines of length >= lmin (rqa.py:63). */
  function Laminarity(r: seq<seq<bool>>, m: nat, lmin: int): (lam: real)
    requires IsSquare(r, m) && m >= 1
    ensures 0.0 <= lam <= 1.0
    ensures MatrixCountOf(r, true) == 0 ==> lam == 0.0
  {
    var v := VerticalHistogram(r, m);
    var start := SliceStart(lmin, m + 1);
    VerticalHistogramInvariants(r, m);
    TailWeightAntitone(v, 0, start);
    RatioAtMostOne(TailWeight(v, start), MatrixCountOf(r, true));
    Ratio(TailWeight(v, start), MatrixCountOf(r, true))
  }

  /**
   * Mean length of the lines of length >= lmin in histogram h (0 when
   * there are none). It lies between the shortest length counted and the
   * longest line possible.
   */
  function MeanLineLength(h: seq<nat>, start: nat): (avg: real)
    requires |h| >= 1
    ensures 0.0 <= avg <= (|h| - 1) as real
    ensures TailCount(h, start) > 0 ==> start as real <= avg
    ensures TailCount(h, start) == 0 ==> avg == 0.0
  {
    AverageLengthBound(h, start);
    AverageLengthAtLeast(h, start);
    Ratio(TailWeight(h, start), TailCount(h, start))
  }

  /** avg_diag_length (rqa.py:65-66). */
  function AvgDiagLength(r: seq<seq<bool>>, m: nat, lmin: int): (avg: real)
    requires IsSquare(r, m)
    ensures 0.0 <= avg <= m as real
  {
    MeanLineLength(DiagonalHistogram(r, m), SliceStart(lmin, m + 1))
  }

  /**
   * avg_vert_length, with the vertical tail sum as denominator. The source
   * divides by the diagonal tail sum instead (AvgVertLengthAsWritten).
   */
  function AvgVertLength(r: seq<seq<bool>>, m: nat, lmin: int): (avg: real)
    requires IsSquare(r, m)
    ensures 0.0 <= avg <= m as real
  {
    MeanLineLength(VerticalHistogram(r, m), SliceStart(lmin, m + 1))
  }

  /**
   * avg_vert_length as written at rqa.py:67-68: the vertical weighted sum
   * divided by the tail sum of the DIAGONAL histogram.
   */
  function AvgVertLengthAsWritten(r: seq<seq<bool>>, m: nat, lmin: int): (avg: real)
    requires IsSquare(r, m)
    ensures avg >= 0.0
    ensures TailCount(DiagonalHistogram(r, m), SliceStart(lmin, m + 1)) == 0 ==> avg == 0.0
  {
    var start := SliceStart(lmin, m + 1);
    Ratio(TailWeight(VerticalHistogram(r, m), start), TailCount(DiagonalHistogram(r, m), start))
  }

  /** The seven statistics of a recurrence matrix. */
  function Statistics(r: seq<seq<bool>>, m: nat, lmin: int, ln: real -> real): (s: RqaStats)
    requires IsSquare(r, m) && m >= 1
    ensures 0.0 <= s.recurrenceRate <= 1.0
    ensures 0.0 <= s.determinism <= 1.0 && 0.0 <= s.laminarity <= 1.0
    ensures 0.0 <= s.avgDiagLength <= m as real && 0.0 <= s.avgVertLength <= m as real
  {
    var start := SliceStart(lmin, m + 1);
    RqaStats(
      RecurrenceRate(r, m),
      Determinism(r, m, lmin),
      Laminarity(r, m, lmin),
      AvgDiagLength(r, m, lmin),
      AvgVertLength(r, m, lmin),
      Entropy(DiagonalHistogram(r, m), start, ln),
      Entropy(VerticalHistogram(r, m), start, ln))
  }

  /** `calc_rqa(x, y, dim, tau, threshold, lmin)`, with avg_vert_length corrected. */
  function CalcRqa(x: seq<real>, y: seq<real>, dim: nat, tau: nat, threshold: real, lmin: int, ln: real -> real): (s: RqaStats)
    requires |x| == |y| && EmbeddingFits(|x|, dim, tau)
    ensures 0.0 <= s.recurrenceRate <= 1.0
    ensures 0.0 <= s.determinism <= 1.0 && 0.0 <= s.laminarity <= 1.0
    ensures 0.0 <= s.avgDiagLength <= PointCount(|x|, dim, tau) as real
    ensures 0.0 <= s.avgVertLength <= PointCount(|x|, dim, tau) as real
  {
    Statistics(RecurrenceMatrix(x, y, dim, tau, threshold), PointCount(|x|, dim, tau), lmin, ln)
  }

  /* ---------------------------------------------------------------- */
  /* Arithmetic facts used by Statistics                               */
  /* ---------------------------------------------------------------- */

  lemma {:induction false} CountOfBound(line: seq<bool>, b: bool)
    ensures CountOf(line, b) <= |line|
    decreases |line|
  {
    if |line| > 0 {
      CountOfBound(line[1..], b);
    }
  }

  lemma {:induction false} MatrixCountBound(r: seq<seq<bool>>, m: nat, b: bool)
    requires forall i | 0 <= i < |r| :: |r[i]| == m
    ensures MatrixCountOf(r, b) <= |r| * m
    decreases |r|
  {
    if |r| > 0 {
      CountOfBound(r[0], b);
      MatrixCountBound(r[1..], m, b);
      assert |r| * m == m + (|r| - 1) * m;
    }
  }

  lemma {:induction false} TailWeightAntitone(h: seq<nat>, lo: nat, hi: nat)
    requires lo <= hi
    ensures TailWeight(h, hi) <= TailWeight(h, lo)
    ensures TailCount(h, hi) <= TailCount(h, lo)
    decreases hi - lo
  {
    if lo < hi {
      TailWeightAntitone(h, lo + 1, hi);
    }
  }

  /** Every length l in the tail satisfies lo <= l, so the weighted sum is at least lo per record. */
  lemma {:induction false} TailWeightAtLeast(h: seq<nat>, lo: nat)
    ensures lo * TailCount(h, lo) <= TailWeight(h, lo)
    decreases |h| - lo
  {
    if lo < |h| {
      TailWeightAtLeast(h, lo + 1);
      var c := TailCount(h, lo + 1);
      MulLe(lo, lo + 1, c);
      MulAdd(lo, h[lo], c);
    }
  }

  /** Every length l in the histogram satisfies l <= |h| - 1, so the weighted sum is at most that per record. */
  lemma {:induction false} TailWeightAtMost(h: seq<nat>, lo: nat)
    requires |h| >= 1
    ensures TailWeight(h, lo) <= (|h| - 1) * TailCount(h, lo)
    decreases |h| - lo
  {
    if lo < |h| {
      TailWeightAtMost(h, lo + 1);
      var top := |h| - 1;
      var c := TailCount(h, lo + 1);
      MulLe(lo, top, h[lo]);
      MulAdd(top, h[lo], c);
    }
  }

  lemma AverageLengthAtLeast(h: seq<nat>, lo: nat)
    ensures TailCount(h, lo) > 0 ==> lo as real <= Ratio(TailWeight(h, lo), TailCount(h, lo))
  {
    TailWeightAtLeast(h, lo);
    var w := TailWeight(h, lo);
    var c := TailCount(h, lo);
    if c > 0 {
      MulAsReal(lo, c);
      DivAtLeast(w as real, c as real, lo as real);
    }
  }

  lemma DivAtLeast(w: real, c: real, lo: real)
    requires c > 0.0 && lo * c <= w
    ensures lo <= w / c
  {
    var q := w / c;
    assert q * c == w;
    if q < lo {
      assert (lo - q) * c > 0.0;
    }
  }

  lemma AverageLengthBound(h: seq<nat>, lo: nat)
    requires |h| >= 1
    ensures 0.0 <= Ratio(TailWeight(h, lo), TailCount(h, lo)) <= (|h| - 1) as real
  {
    TailWeightAtMost(h, lo);
    var w := TailWeight(h, lo);
    var c := TailCount(h, lo);
    if c > 0 {
      DivAtMost(w, c, |h| - 1);
    }
  }

  lemma DivAtMost(w: nat, c: nat, top: nat)
    requires c > 0 && w <= top * c
    ensures w as real / c as real <= top as real
  {
    MulAsReal(top, c);
    assert w as real <= top as real * c as real;
  }

  lemma MulPositive(a: real, b: real)
    requires a > 0.0 && b > 0.0
    ensures a * b > 0.0
  {
  }

  lemma SquareStrictMono(a: real, b: real)
    requires 0.0 <= a < b
    ensures a * a < b * b
  {
    MulPositive(b - a, b + a);
    assert (b - a) * (b + a) == b * b - a * a;
  }

  lemma SquareMono(a: real, b: real)
    requires 0.0 <= a <= b
    ensures a * a <= b * b
  {
    if a < b {
      SquareStrictMono(a, b);
    }
  }

  lemma RatioAtMostOne(num: nat, den: nat)
    requires num <= den
    ensures 0.0 <= Ratio(num, den) <= 1.0
  {
    if den > 0 {
      assert num as real / den as real <= den as real / den as real;
    }
  }

  lemma RateAtMostOne(rrSum: nat, m: nat)
    requires m >= 1 && rrSum <= m * m
    ensures 0.0 <= rrSum as real / (m * m) as real <= 1.0
  {
    assert (m * m) as real > 0.0;
    assert rrSum as real <= (m * m) as real;
  }
}
