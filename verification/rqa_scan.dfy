/**
 * The line-length extractor of the RQA engine (calc_rqa, rqa.py:38-58).
 *
 * Every diagonal and every column of the M x M boolean recurrence matrix
 * is walked with a running count `cline`: a False cell writes `cline` into
 * the histogram and resets it, and the end of the line writes whatever
 * `cline` holds (the array edge acts as an implicit False). Histograms have
 * M + 1 slots, indexed by run length.
 *
 * The scan is modelled in two layers: `RunRecords` is the list of lengths
 * one line writes, and `Tally` adds a list of lengths to a histogram. The
 * theorems at the end state the invariants of the whole scan: the
 * length-weighted sum of each histogram is the number of True cells, and
 * the number of records is the number of False cells plus one per line.
 */
module RqaScan {
  import opened Sums

  /* ---------------------------------------------------------------- */
  /* Matrices and counts                                               */
  /* ---------------------------------------------------------------- */

  /** r is an m x m matrix. */
  predicate IsSquare(r: seq<seq<bool>>, m: nat) {
    |r| == m && forall i | 0 <= i < m :: |r[i]| == m
  }

  /** Number of entries of `line` equal to b. */
  function CountOf(line: seq<bool>, b: bool): nat
    decreases |line|
  {
    if |line| == 0 then 0 else (if line[0] == b then 1 else 0) + CountOf(line[1..], b)
  }

  /** Number of cells of r equal to b (`recurrence_matrix.sum()` for b = true). */
  function MatrixCountOf(r: seq<seq<bool>>, b: bool): nat
    decreases |r|
  {
    if |r| == 0 then 0 else CountOf(r[0], b) + MatrixCountOf(r[1..], b)
  }

  /** Sum of a list of naturals. */
  function SeqSum(s: seq<nat>): nat
    decreases |s|
  {
    if |s| == 0 then 0 else s[0] + SeqSum(s[1..])
  }

  /** Indicator of "line[t] == b" over all integers t. */
  function Indicator(line: seq<bool>, b: bool): int -> int {
    t => if 0 <= t < |line| && line[t] == b then 1 else 0
  }

  /** Indicator of "r[i][j] == b" over all integer pairs. */
  function Cell(r: seq<seq<bool>>, b: bool, i: int, j: int): int {
    if 0 <= i < |r| && 0 <= j < |r[i]| && r[i][j] == b then 1 else 0
  }

  /* ---------------------------------------------------------------- */
  /* Lines of the matrix                                               */
  /* ---------------------------------------------------------------- */

  function Abs(k: int): nat {
    if k < 0 then -k else k
  }

  /** Diagonal k of r, as `np.diagonal(r, k)`: r[t][t+k] for k >= 0, r[t-k][t] for k < 0. */
  function Diagonal(r: seq<seq<bool>>, m: nat, k: int): (d: seq<bool>)
    requires IsSquare(r, m) && Abs(k) < m
    ensures |d| == m - Abs(k)
    ensures forall t | 0 <= t < |d| :: d[t] == (if k >= 0 then r[t][t + k] else r[t - k][t])
  {
    if k >= 0 then seq(m - k, t requires 0 <= t < m - k => r[t][t + k])
    else seq(m + k, t requires 0 <= t < m + k => r[t - k][t])
  }

  /** Column j of r, as `r[:, j]`. */
  function Column(r: seq<seq<bool>>, m: nat, j: int): (c: seq<bool>)
    requires IsSquare(r, m) && 0 <= j < m
    ensures |c| == m
    ensures forall i | 0 <= i < m :: c[i] == r[i][j]
  {
    seq(m, i requires 0 <= i < m => r[i][j])
  }

  /** Cells equal to b on diagonal k (zero outside the 2m - 1 diagonals). */
  function DiagCount(r: seq<seq<bool>>, m: nat, k: int, b: bool): nat {
    if IsSquare(r, m) && Abs(k) < m then CountOf(Diagonal(r, m, k), b) else 0
  }

  /** Cells equal to b in column j (zero outside the m columns). */
  function ColCount(r: seq<seq<bool>>, m: nat, j: int, b: bool): nat {
    if IsSquare(r, m) && 0 <= j < m then CountOf(Column(r, m, j), b) else 0
  }

  function DiagCounts(r: seq<seq<bool>>, m: nat, b: bool): int -> int {
    k => DiagCount(r, m, k, b)
  }

  function ColCounts(r: seq<seq<bool>>, m: nat, b: bool): int -> int {
    j => ColCount(r, m, j, b)
  }

  /* ---------------------------------------------------------------- */
  /* One line of the scan                                              */
  /* ---------------------------------------------------------------- */

  /**
   * The run lengths written while walking `line` with a current run of
   * length `cline`: one per False cell, and one at the end of the line.
   * No written length exceeds the run already counted plus the cells left,
   * which is why M + 1 histogram slots suffice.
   */
  function RunRecords(line: seq<bool>, cline: nat): (rs: seq<nat>)
    ensures 1 <= |rs|
    ensures forall k | 0 <= k < |rs| :: rs[k] <= cline + |line|
    decreases |line|
  {
    if |line| == 0 then [cline]
    else if line[0] then RunRecords(line[1..], cline + 1)
    else [cline] + RunRecords(line[1..], 0)
  }

  /** The written lengths add up to the True cells of the line (plus the run carried in). */
  lemma {:induction false} RunRecordsTotal(line: seq<bool>, cline: nat)
    ensures SeqSum(RunRecords(line, cline)) == cline + CountOf(line, true)
    decreases |line|
  {
    if |line| > 0 {
      RunRecordsTotal(line[1..], if line[0] then cline + 1 else 0);
      if !line[0] {
        var rest := RunRecords(line[1..], 0);
        assert ([cline] + rest)[1..] == rest;
      }
    }
  }

  /** A line writes one record per False cell, and one more at its end. */
  lemma {:induction false} RunRecordsCount(line: seq<bool>, cline: nat)
    ensures |RunRecords(line, cline)| == CountOf(line, false) + 1
    decreases |line|
  {
    if |line| > 0 {
      RunRecordsCount(line[1..], if line[0] then cline + 1 else 0);
    }
  }

  /* ---------------------------------------------------------------- */
  /* Histograms                                                        */
  /* ---------------------------------------------------------------- */

  function Zeros(n: nat): (h: seq<nat>)
    ensures |h| == n && forall l | 0 <= l < n :: h[l] == 0
  {
    seq(n, _ => 0)
  }

  /** `hist[l] += 1` for every recorded length l, in order. */
  function Tally(h: seq<nat>, recs: seq<nat>): (h': seq<nat>)
    requires forall k | 0 <= k < |recs| :: recs[k] < |h|
    ensures |h'| == |h|
    decreases |recs|
  {
    if |recs| == 0 then h else Tally(h[recs[0] := h[recs[0]] + 1], recs[1..])
  }

  /** Sum of l * h[l] over lo <= l < |h| (numpy `(h[lo:] * arange(len(h))[lo:]).sum()`). */
  function TailWeight(h: seq<nat>, lo: nat): nat
    decreases |h| - lo
  {
    if lo >= |h| then 0 else lo * h[lo] + TailWeight(h, lo + 1)
  }

  /** Sum of h[l] over lo <= l < |h| (numpy `h[lo:].sum()`). */
  function TailCount(h: seq<nat>, lo: nat): nat
    decreases |h| - lo
  {
    if lo >= |h| then 0 else h[lo] + TailCount(h, lo + 1)
  }

  lemma {:induction false} TailWeightBump(h: seq<nat>, l: nat, lo: nat)
    requires l < |h|
    ensures TailWeight(h[l := h[l] + 1], lo) == TailWeight(h, lo) + (if lo <= l then l else 0)
    decreases |h| - lo
  {
    if lo < |h| {
      TailWeightBump(h, l, lo + 1);
      if lo == l {
        assert lo * (h[lo] + 1) == lo * h[lo] + lo;
      }
    }
  }

  lemma {:induction false} TailCountBump(h: seq<nat>, l: nat, lo: nat)
    requires l < |h|
    ensures TailCount(h[l := h[l] + 1], lo) == TailCount(h, lo) + (if lo <= l then 1 else 0)
    decreases |h| - lo
  {
    if lo < |h| {
      TailCountBump(h, l, lo + 1);
    }
  }

  /** Tallying adds the sum of the recorded lengths to the weighted histogram sum. */
  lemma {:induction false} TallyWeight(h: seq<nat>, recs: seq<nat>)
    requires forall k | 0 <= k < |recs| :: recs[k] < |h|
    ensures TailWeight(Tally(h, recs), 0) == TailWeight(h, 0) + SeqSum(recs)
    decreases |recs|
  {
    if |recs| > 0 {
      var h1 := h[recs[0] := h[recs[0]] + 1];
      TailWeightBump(h, recs[0], 0);
      TallyWeight(h1, recs[1..]);
    }
  }

  /** Tallying adds one to the histogram total per record. */
  lemma {:induction false} TallyCount(h: seq<nat>, recs: seq<nat>)
    requires forall k | 0 <= k < |recs| :: recs[k] < |h|
    ensures TailCount(Tally(h, recs), 0) == TailCount(h, 0) + |recs|
    decreases |recs|
  {
    if |recs| > 0 {
      var h1 := h[recs[0] := h[recs[0]] + 1];
      TailCountBump(h, recs[0], 0);
      TallyCount(h1, recs[1..]);
    }
  }

  lemma {:induction false} TailWeightZeros(n: nat, lo: nat)
    ensures TailWeight(Zeros(n), lo) == 0 && TailCount(Zeros(n), lo) == 0
    decreases n - lo
  {
    if lo < n {
      TailWeightZeros(n, lo + 1);
    }
  }

  /* ---------------------------------------------------------------- */
  /* The two scans                                                     */
  /* ---------------------------------------------------------------- */

  /** Scan diagonals k, k+1, ..., m-1 into h (rqa.py:39-47). */
  function DiagonalScan(r: seq<seq<bool>>, m: nat, k: int, h: seq<nat>): (h': seq<nat>)
    requires IsSquare(r, m) && 1 - m <= k && |h| == m + 1
    ensures |h'| == m + 1
    decreases m - k
  {
    if k >= m then h
    else DiagonalScan(r, m, k + 1, Tally(h, RunRecords(Diagonal(r, m, k), 0)))
  }

  /** Scan columns j, j+1, ..., m-1 into h (rqa.py:50-58). */
  function ColumnScan(r: seq<seq<bool>>, m: nat, j: int, h: seq<nat>): (h': seq<nat>)
    requires IsSquare(r, m) && 0 <= j && |h| == m + 1
    ensures |h'| == m + 1
    decreases m - j
  {
    if j >= m then h
    else ColumnScan(r, m, j + 1, Tally(h, RunRecords(Column(r, m, j), 0)))
  }

  /** `d_line_dist`: every diagonal from -(m-1) to m-1 scanned into m+1 zeroed slots. */
  function DiagonalHistogram(r: seq<seq<bool>>, m: nat): (d: seq<nat>)
    requires IsSquare(r, m)
    ensures |d| == m + 1
  {
    DiagonalScan(r, m, 1 - m, Zeros(m + 1))
  }

  /** `v_line_dist`: every column scanned into m+1 zeroed slots. */
  function VerticalHistogram(r: seq<seq<bool>>, m: nat): (v: seq<nat>)
    requires IsSquare(r, m)
    ensures |v| == m + 1
  {
    ColumnScan(r, m, 0, Zeros(m + 1))
  }

  lemma {:induction false} DiagonalScanTotals(r: seq<seq<bool>>, m: nat, k: int, h: seq<nat>)
    requires IsSquare(r, m) && 1 - m <= k && |h| == m + 1
    ensures TailWeight(DiagonalScan(r, m, k, h), 0)
         == TailWeight(h, 0) + Sum(k, m, DiagCounts(r, m, true))
    ensures k <= m ==>
              TailCount(DiagonalScan(r, m, k, h), 0)
              == TailCount(h, 0) + Sum(k, m, DiagCounts(r, m, false)) + (m - k)
    decreases m - k
  {
    if k < m {
      var line := Diagonal(r, m, k);
      var recs := RunRecords(line, 0);
      var h1 := Tally(h, recs);
      TallyWeight(h, recs);
      TallyCount(h, recs);
      RunRecordsTotal(line, 0);
      RunRecordsCount(line, 0);
      DiagonalScanTotals(r, m, k + 1, h1);
    }
  }

  lemma {:induction false} ColumnScanTotals(r: seq<seq<bool>>, m: nat, j: int, h: seq<nat>)
    requires IsSquare(r, m) && 0 <= j && |h| == m + 1
    ensures TailWeight(ColumnScan(r, m, j, h), 0)
         == TailWeight(h, 0) + Sum(j, m, ColCounts(r, m, true))
    ensures j <= m ==>
              TailCount(ColumnScan(r, m, j, h), 0)
              == TailCount(h, 0) + Sum(j, m, ColCounts(r, m, false)) + (m - j)
    decreases m - j
  {
    if j < m {
      var line := Column(r, m, j);
      var recs := RunRecords(line, 0);
      var h1 := Tally(h, recs);
      TallyWeight(h, recs);
      TallyCount(h, recs);
      RunRecordsTotal(line, 0);
      RunRecordsCount(line, 0);
      ColumnScanTotals(r, m, j + 1, h1);
    }
  }

  /* ---------------------------------------------------------------- */
  /* Diagonals and columns partition the matrix                        */
  /* ---------------------------------------------------------------- */

  lemma {:induction false} CountOfIsSum(line: seq<bool>, b: bool)
    ensures CountOf(line, b) == Sum(0, |line|, Indicator(line, b))
    decreases |line|
  {
    if |line| > 0 {
      var tail := line[1..];
      CountOfIsSum(tail, b);
      SumShift(0, |tail|, 1, Indicator(tail, b), Indicator(line, b));
    }
  }

  function RowCounts(r: seq<seq<bool>>, b: bool): int -> int {
    i => if 0 <= i < |r| then CountOf(r[i], b) else 0
  }

  lemma {:induction false} MatrixCountIsSum(r: seq<seq<bool>>, b: bool)
    ensures MatrixCountOf(r, b) == Sum(0, |r|, RowCounts(r, b))
    decreases |r|
  {
    if |r| > 0 {
      var tail := r[1..];
      MatrixCountIsSum(tail, b);
      forall i | 0 <= i < |tail| ensures RowCounts(r, b)(i + 1) == RowCounts(tail, b)(i) {
        assert tail[i] == r[i + 1];
      }
      SumShift(0, |tail|, 1, RowCounts(tail, b), RowCounts(r, b));
      assert Sum(0, |r|, RowCounts(r, b)) == CountOf(r[0], b) + Sum(1, |r|, RowCounts(r, b));
    }
  }

  /** Row i of r, counted cell by cell over column indices. */
  lemma RowAsCells(r: seq<seq<bool>>, m: nat, i: int, b: bool)
    requires IsSquare(r, m) && 0 <= i < m
    ensures CountOf(r[i], b) == Sum(0, m, j => Cell(r, b, i, j))
  {
    CountOfIsSum(r[i], b);
    SumExt(0, m, Indicator(r[i], b), j => Cell(r, b, i, j));
  }

  /** Cell (i, i + k) as a function of the row i. */
  function DiagonalCells(r: seq<seq<bool>>, b: bool, k: int): int -> int {
    i => Cell(r, b, i, i + k)
  }

  lemma UpperDiagonalCells(r: seq<seq<bool>>, m: nat, k: int, b: bool, t: int)
    requires IsSquare(r, m) && 0 <= k < m
    ensures 0 <= t < m - k ==> Indicator(Diagonal(r, m, k), b)(t) == DiagonalCells(r, b, k)(t)
    ensures m - k <= t < m ==> DiagonalCells(r, b, k)(t) == 0
  {
    assert DiagonalCells(r, b, k)(t) == Cell(r, b, t, t + k);
    if 0 <= t < m {
      assert |r[t]| == m;
    }
  }

  lemma LowerDiagonalCells(r: seq<seq<bool>>, m: nat, k: int, b: bool, t: int)
    requires IsSquare(r, m) && k < 0 && 0 < m + k
    ensures -k <= t < m ==> Indicator(Diagonal(r, m, k), b)(t + k) == DiagonalCells(r, b, k)(t)
    ensures 0 <= t < -k ==> DiagonalCells(r, b, k)(t) == 0
  {
    assert DiagonalCells(r, b, k)(t) == Cell(r, b, t, t + k);
    if -k <= t < m {
      var d := Diagonal(r, m, k);
      assert d[t + k] == r[t][t + k];
      assert |r[t]| == m;
    }
  }

  lemma {:induction false} UpperDiagonalAsCells(r: seq<seq<bool>>, m: nat, k: int, b: bool)
    requires IsSquare(r, m) && 0 <= k < m
    ensures CountOf(Diagonal(r, m, k), b) == Sum(0, m, DiagonalCells(r, b, k))
  {
    var d := Diagonal(r, m, k);
    var cells := DiagonalCells(r, b, k);
    CountOfIsSum(d, b);
    forall t | 0 <= t < m {
      UpperDiagonalCells(r, m, k, b, t);
    }
    SumExt(0, m - k, Indicator(d, b), cells);
    SumSplit(0, m - k, m, cells);
    SumZero(m - k, m, cells);
  }

  lemma {:induction false} LowerDiagonalAsCells(r: seq<seq<bool>>, m: nat, k: int, b: bool)
    requires IsSquare(r, m) && k < 0 && 0 < m + k
    ensures CountOf(Diagonal(r, m, k), b) == Sum(0, m, DiagonalCells(r, b, k))
  {
    var d := Diagonal(r, m, k);
    var cells := DiagonalCells(r, b, k);
    var ind := Indicator(d, b);
    CountOfIsSum(d, b);
    assert Sum(0, m + k, ind) == Sum(-k, m, cells) by {
      forall t | -k <= t < m
        ensures ind(t + k) == cells(t)
      {
        LowerDiagonalCells(r, m, k, b, t);
      }
      SumShift(-k, m, k, cells, ind);
    }
    assert Sum(0, -k, cells) == 0 by {
      forall t | 0 <= t < -k
        ensures cells(t) == 0
      {
        LowerDiagonalCells(r, m, k, b, t);
      }
      SumZero(0, -k, cells);
    }
    SumSplit(0, -k, m, cells);
  }

  /** Diagonal k, counted cell by cell over row indices. */
  lemma DiagonalAsCells(r: seq<seq<bool>>, m: nat, k: int, b: bool)
    requires IsSquare(r, m) && Abs(k) < m
    ensures DiagCount(r, m, k, b) == Sum(0, m, DiagonalCells(r, b, k))
  {
    if k >= 0 {
      UpperDiagonalAsCells(r, m, k, b);
    } else {
      LowerDiagonalAsCells(r, m, k, b);
    }
  }

  /** Column j, counted cell by cell over row indices. */
  lemma ColumnAsCells(r: seq<seq<bool>>, m: nat, j: int, b: bool)
    requires IsSquare(r, m) && 0 <= j < m
    ensures ColCount(r, m, j, b) == Sum(0, m, i => Cell(r, b, i, j))
  {
    var c := Column(r, m, j);
    CountOfIsSum(c, b);
    SumExt(0, m, Indicator(c, b), i => Cell(r, b, i, j));
  }

  /** Row i, counted over all 2m - 1 diagonal offsets. */
  lemma RowOverOffsets(r: seq<seq<bool>>, m: nat, i: int, b: bool)
    requires IsSquare(r, m) && 0 <= i < m
    ensures Sum(1 - m, m, k => Cell(r, b, i, i + k)) == CountOf(r[i], b)
  {
    var byCol := j => Cell(r, b, i, j);
    SumShift(1 - m, m, i, k => Cell(r, b, i, i + k), byCol);
    SumSplit(1 - m + i, 0, m + i, byCol);
    SumSplit(0, m, m + i, byCol);
    SumZero(1 - m + i, 0, byCol);
    SumZero(m, m + i, byCol);
    RowAsCells(r, m, i, b);
  }

  /** Cell (i, i + k), as a function of the offset k and the row i. */
  function OffsetCells(r: seq<seq<bool>>, b: bool): (int, int) -> int {
    (k, i) => Cell(r, b, i, i + k)
  }

  /** Diagonal k, counted over the rows as offset cells. */
  lemma DiagonalAsOffsets(r: seq<seq<bool>>, m: nat, k: int, b: bool)
    requires IsSquare(r, m) && 1 - m <= k < m
    ensures DiagCounts(r, m, b)(k) == Sum(0, m, i => OffsetCells(r, b)(k, i))
  {
    DiagonalAsCells(r, m, k, b);
    var g := OffsetCells(r, b);
    assert forall i :: DiagonalCells(r, b, k)(i) == g(k, i);
    SumExt(0, m, DiagonalCells(r, b, k), i => g(k, i));
  }

  lemma DiagonalsAsDoubleSum(r: seq<seq<bool>>, m: nat, b: bool)
    requires IsSquare(r, m)
    ensures Sum(1 - m, m, DiagCounts(r, m, b))
         == Sum(1 - m, m, k => Sum(0, m, i => OffsetCells(r, b)(k, i)))
  {
    var h := k => Sum(0, m, i => OffsetCells(r, b)(k, i));
    forall k | 1 - m <= k < m
      ensures DiagCounts(r, m, b)(k) == h(k)
    {
      DiagonalAsOffsets(r, m, k, b);
    }
    SumExt(1 - m, m, DiagCounts(r, m, b), h);
  }

  lemma RowsAsDoubleSum(r: seq<seq<bool>>, m: nat, b: bool)
    requires IsSquare(r, m)
    ensures Sum(0, m, i => Sum(1 - m, m, k => OffsetCells(r, b)(k, i))) == MatrixCountOf(r, b)
  {
    var g := OffsetCells(r, b);
    forall i | 0 <= i < m
      ensures Sum(1 - m, m, k => g(k, i)) == RowCounts(r, b)(i)
    {
      SumExt(1 - m, m, k => g(k, i), k => Cell(r, b, i, i + k));
      RowOverOffsets(r, m, i, b);
    }
    SumExt(0, m, i => Sum(1 - m, m, k => g(k, i)), RowCounts(r, b));
    MatrixCountIsSum(r, b);
  }

  /** Every cell lies on exactly one diagonal. */
  lemma DiagonalsPartition(r: seq<seq<bool>>, m: nat, b: bool)
    requires IsSquare(r, m)
    ensures Sum(1 - m, m, DiagCounts(r, m, b)) == MatrixCountOf(r, b)
  {
    DiagonalsAsDoubleSum(r, m, b);
    SumSwap(1 - m, m, 0, m, OffsetCells(r, b));
    RowsAsDoubleSum(r, m, b);
  }

  /** Every cell lies in exactly one column. */
  lemma ColumnsPartition(r: seq<seq<bool>>, m: nat, b: bool)
    requires IsSquare(r, m)
    ensures Sum(0, m, ColCounts(r, m, b)) == MatrixCountOf(r, b)
  {
    var g := (j, i) => Cell(r, b, i, j);
    forall j | 0 <= j < m
      ensures ColCounts(r, m, b)(j) == Sum(0, m, i => g(j, i))
    {
      ColumnAsCells(r, m, j, b);
      SumExt(0, m, i => Cell(r, b, i, j), i => g(j, i));
    }
    SumExt(0, m, ColCounts(r, m, b), j => Sum(0, m, i => g(j, i)));
    SumSwap(0, m, 0, m, g);
    forall i | 0 <= i < m
      ensures Sum(0, m, j => g(j, i)) == RowCounts(r, b)(i)
    {
      SumExt(0, m, j => g(j, i), j => Cell(r, b, i, j));
      RowAsCells(r, m, i, b);
    }
    SumExt(0, m, i => Sum(0, m, j => g(j, i)), RowCounts(r, b));
    MatrixCountIsSum(r, b);
  }

  /* ---------------------------------------------------------------- */
  /* The scan invariants                                               */
  /* ---------------------------------------------------------------- */

  /**
   * Sum of l * d[l] over the diagonal histogram equals the number of True
   * cells, and the histogram holds one record per False cell plus one per
   * diagonal (2m - 1 of them).
   */
  lemma DiagonalHistogramInvariants(r: seq<seq<bool>>, m: nat)
    requires IsSquare(r, m) && m >= 1
    ensures TailWeight(DiagonalHistogram(r, m), 0) == MatrixCountOf(r, true)
    ensures TailCount(DiagonalHistogram(r, m), 0) == MatrixCountOf(r, false) + (2 * m - 1)
  {
    TailWeightZeros(m + 1, 0);
    DiagonalScanTotals(r, m, 1 - m, Zeros(m + 1));
    DiagonalsPartition(r, m, true);
    DiagonalsPartition(r, m, false);
  }

  /**
   * Sum of l * v[l] over the vertical histogram equals the number of True
   * cells, and the histogram holds one record per False cell plus one per
   * column (m of them).
   */
  lemma VerticalHistogramInvariants(r: seq<seq<bool>>, m: nat)
    requires IsSquare(r, m)
    ensures TailWeight(VerticalHistogram(r, m), 0) == MatrixCountOf(r, true)
    ensures TailCount(VerticalHistogram(r, m), 0) == MatrixCountOf(r, false) + m
  {
    TailWeightZeros(m + 1, 0);
    ColumnScanTotals(r, m, 0, Zeros(m + 1));
    ColumnsPartition(r, m, true);
    ColumnsPartition(r, m, false);
  }
}
