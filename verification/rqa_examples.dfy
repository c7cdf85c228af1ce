/**
 * Worked examples of `calc_rqa` on the small series used by the
 * repository's segment tests, computed exactly over the reals.
 */
module RqaExamples {
  import opened RqaScan
  import opened Rqa
  import opened RqaProperties

  lemma DimOneCell(x: seq<real>, y: seq<real>, threshold: real, i: nat, j: nat)
    requires |x| == |y| && |x| > 0 && i < |x| && j < |x|
    ensures RecurrenceMatrix(x, y, 1, 1, threshold)[i][j]
        == (threshold > 0.0 && Sq(x[i] - y[j]) < threshold * threshold)
  {
    RecurrenceFromSamples(x, y, 1, 1, threshold, i, j);
  }

  const Steps: seq<real> := [1.0, 1.0, 2.0, 2.0]

  const Blocks: seq<seq<bool>> := [
    [true, true, false, false],
    [true, true, false, false],
    [false, false, true, true],
    [false, false, true, true]]

  lemma StepsMatrix()
    ensures RecurrenceMatrix(Steps, Steps, 1, 1, 0.1) == Blocks
  {
    var r := RecurrenceMatrix(Steps, Steps, 1, 1, 0.1);
    forall i, j | 0 <= i < 4 && 0 <= j < 4
      ensures r[i][j] == Blocks[i][j]
    {
      DimOneCell(Steps, Steps, 0.1, i, j);
    }
    forall i | 0 <= i < 4
      ensures r[i] == Blocks[i]
    {
      assert |r[i]| == 4;
    }
  }

  lemma BlocksDiagonals()
    ensures IsSquare(Blocks, 4)
    ensures Diagonal(Blocks, 4, -3) == [false]
    ensures Diagonal(Blocks, 4, -2) == [false, false]
    ensures Diagonal(Blocks, 4, -1) == [true, false, true]
    ensures Diagonal(Blocks, 4, 0) == [true, true, true, true]
    ensures Diagonal(Blocks, 4, 1) == [true, false, true]
    ensures Diagonal(Blocks, 4, 2) == [false, false]
    ensures Diagonal(Blocks, 4, 3) == [false]
  {
  }

  lemma DiagonalStep(r: seq<seq<bool>>, m: nat, k: int, h: seq<nat>, line: seq<bool>, recs: seq<nat>, h': seq<nat>)
    requires IsSquare(r, m) && 1 - m <= k < m && |h| == m + 1
    requires Diagonal(r, m, k) == line && RunRecords(line, 0) == recs
    requires forall t | 0 <= t < |recs| :: recs[t] < |h|
    requires Tally(h, recs) == h'
    ensures DiagonalScan(r, m, k, h) == DiagonalScan(r, m, k + 1, h')
  {
  }

  lemma LineRecords()
    ensures RunRecords([false], 0) == [0, 0]
    ensures RunRecords([false, false], 0) == [0, 0, 0]
    ensures RunRecords([true, false, true], 0) == [1, 1]
    ensures RunRecords([true, true, true, true], 0) == [4]
    ensures RunRecords([true, true, false, false], 0) == [2, 0, 0]
    ensures RunRecords([false, false, true, true], 0) == [0, 0, 2]
  {
  }

  lemma DiagonalTallies()
    ensures Tally([0, 0, 0, 0, 0], [0, 0]) == [2, 0, 0, 0, 0]
    ensures Tally([2, 0, 0, 0, 0], [0, 0, 0]) == [5, 0, 0, 0, 0]
    ensures Tally([5, 0, 0, 0, 0], [1, 1]) == [5, 2, 0, 0, 0]
    ensures Tally([5, 2, 0, 0, 0], [4]) == [5, 2, 0, 0, 1]
    ensures Tally([5, 2, 0, 0, 1], [1, 1]) == [5, 4, 0, 0, 1]
    ensures Tally([5, 4, 0, 0, 1], [0, 0, 0]) == [8, 4, 0, 0, 1]
    ensures Tally([8, 4, 0, 0, 1], [0, 0]) == [10, 4, 0, 0, 1]
  {
  }

  lemma BlocksDiagonalHistogram()
    ensures IsSquare(Blocks, 4)
    ensures DiagonalHistogram(Blocks, 4) == [10, 4, 0, 0, 1]
  {
    BlocksDiagonals();
    LineRecords();
    DiagonalTallies();
    assert Zeros(5) == [0, 0, 0, 0, 0];
    DiagonalStep(Blocks, 4, -3, [0, 0, 0, 0, 0], [false], [0, 0], [2, 0, 0, 0, 0]);
    DiagonalStep(Blocks, 4, -2, [2, 0, 0, 0, 0], [false, false], [0, 0, 0], [5, 0, 0, 0, 0]);
    DiagonalStep(Blocks, 4, -1, [5, 0, 0, 0, 0], [true, false, true], [1, 1], [5, 2, 0, 0, 0]);
    DiagonalStep(Blocks, 4, 0, [5, 2, 0, 0, 0], [true, true, true, true], [4], [5, 2, 0, 0, 1]);
    DiagonalStep(Blocks, 4, 1, [5, 2, 0, 0, 1], [true, false, true], [1, 1], [5, 4, 0, 0, 1]);
    DiagonalStep(Blocks, 4, 2, [5, 4, 0, 0, 1], [false, false], [0, 0, 0], [8, 4, 0, 0, 1]);
    DiagonalStep(Blocks, 4, 3, [8, 4, 0, 0, 1], [false], [0, 0], [10, 4, 0, 0, 1]);
  }

  lemma VerticalStep(r: seq<seq<bool>>, m: nat, j: int, h: seq<nat>, line: seq<bool>, recs: seq<nat>, h': seq<nat>)
    requires IsSquare(r, m) && 0 <= j < m && |h| == m + 1
    requires Column(r, m, j) == line && RunRecords(line, 0) == recs
    requires forall t | 0 <= t < |recs| :: recs[t] < |h|
    requires Tally(h, recs) == h'
    ensures ColumnScan(r, m, j, h) == ColumnScan(r, m, j + 1, h')
  {
  }

  lemma BlocksColumns()
    ensures IsSquare(Blocks, 4)
    ensures Column(Blocks, 4, 0) == [true, true, false, false]
    ensures Column(Blocks, 4, 1) == [true, true, false, false]
    ensures Column(Blocks, 4, 2) == [false, false, true, true]
    ensures Column(Blocks, 4, 3) == [false, false, true, true]
  {
  }

  lemma VerticalTallies()
    ensures Tally([0, 0, 0, 0, 0], [2, 0, 0]) == [2, 0, 1, 0, 0]
    ensures Tally([2, 0, 1, 0, 0], [2, 0, 0]) == [4, 0, 2, 0, 0]
    ensures Tally([4, 0, 2, 0, 0], [0, 0, 2]) == [6, 0, 3, 0, 0]
    ensures Tally([6, 0, 3, 0, 0], [0, 0, 2]) == [8, 0, 4, 0, 0]
  {
  }

  lemma BlocksVerticalHistogram()
    ensures IsSquare(Blocks, 4)
    ensures VerticalHistogram(Blocks, 4) == [8, 0, 4, 0, 0]
  {
    BlocksColumns();
    LineRecords();
    VerticalTallies();
    assert Zeros(5) == [0, 0, 0, 0, 0];
    VerticalStep(Blocks, 4, 0, [0, 0, 0, 0, 0], [true, true, false, false], [2, 0, 0], [2, 0, 1, 0, 0]);
    VerticalStep(Blocks, 4, 1, [2, 0, 1, 0, 0], [true, true, false, false], [2, 0, 0], [4, 0, 2, 0, 0]);
    VerticalStep(Blocks, 4, 2, [4, 0, 2, 0, 0], [false, false, true, true], [0, 0, 2], [6, 0, 3, 0, 0]);
    VerticalStep(Blocks, 4, 3, [6, 0, 3, 0, 0], [false, false, true, true], [0, 0, 2], [8, 0, 4, 0, 0]);
  }

  lemma BlocksCounts()
    ensures MatrixCountOf(Blocks, true) == 8
    ensures TailWeight([10, 4, 0, 0, 1], 2) == 4 && TailCount([10, 4, 0, 0, 1], 2) == 1
    ensures TailWeight([8, 0, 4, 0, 0], 2) == 8 && TailCount([8, 0, 4, 0, 0], 2) == 4
  {
  }

  /** The shares of any 4 x 4 matrix with the counts of the block matrix. */
  lemma RateFromCount(r: seq<seq<bool>>)
    requires IsSquare(r, 4) && MatrixCountOf(r, true) == 8
    ensures RecurrenceRate(r, 4) == 0.5
  {
  }

  lemma DeterminismFromHistogram(r: seq<seq<bool>>)
    requires IsSquare(r, 4)
    requires DiagonalHistogram(r, 4) == [10, 4, 0, 0, 1] && MatrixCountOf(r, true) == 8
    ensures Determinism(r, 4, 2) == 0.5
  {
    BlocksCounts();
    assert SliceStart(2, 5) == 2;
  }

  lemma LaminarityFromHistogram(r: seq<seq<bool>>)
    requires IsSquare(r, 4)
    requires VerticalHistogram(r, 4) == [8, 0, 4, 0, 0] && MatrixCountOf(r, true) == 8
    ensures Laminarity(r, 4, 2) == 1.0
  {
    BlocksCounts();
    assert SliceStart(2, 5) == 2;
  }

  /** The mean line lengths of any 4 x 4 matrix with the histograms of the block matrix. */
  lemma MeansFromHistograms(r: seq<seq<bool>>)
    requires IsSquare(r, 4)
    requires DiagonalHistogram(r, 4) == [10, 4, 0, 0, 1] && VerticalHistogram(r, 4) == [8, 0, 4, 0, 0]
    ensures AvgDiagLength(r, 4, 2) == 4.0
    ensures AvgVertLength(r, 4, 2) == 2.0
    ensures AvgVertLengthAsWritten(r, 4, 2) == 8.0
  {
    BlocksCounts();
    assert SliceStart(2, 5) == 2;
  }

  /** The block matrix of [1, 1, 2, 2] with lmin = 2: rr = det = 0.5, lam = 1, mean lengths 4 and 2. */
  lemma BlocksStatistics()
    ensures RecurrenceRate(Blocks, 4) == 0.5
    ensures Determinism(Blocks, 4, 2) == 0.5
    ensures Laminarity(Blocks, 4, 2) == 1.0
    ensures AvgDiagLength(Blocks, 4, 2) == 4.0
    ensures AvgVertLength(Blocks, 4, 2) == 2.0
    ensures AvgVertLengthAsWritten(Blocks, 4, 2) == 8.0
  {
    BlocksRateAndDeterminism();
    BlocksLaminarity();
    BlocksMeans();
  }

  lemma BlocksRateAndDeterminism()
    ensures RecurrenceRate(Blocks, 4) == 0.5
    ensures Determinism(Blocks, 4, 2) == 0.5
  {
    BlocksDiagonalHistogram();
    BlocksCounts();
    RateFromCount(Blocks);
    DeterminismFromHistogram(Blocks);
  }

  lemma BlocksLaminarity()
    ensures Laminarity(Blocks, 4, 2) == 1.0
  {
    BlocksVerticalHistogram();
    BlocksCounts();
    LaminarityFromHistogram(Blocks);
  }

  lemma BlocksMeans()
    ensures AvgDiagLength(Blocks, 4, 2) == 4.0
    ensures AvgVertLength(Blocks, 4, 2) == 2.0
    ensures AvgVertLengthAsWritten(Blocks, 4, 2) == 8.0
  {
    BlocksDiagonalHistogram();
    BlocksVerticalHistogram();
    MeansFromHistograms(Blocks);
  }

  /**
   * `calc_rqa([1,1,2,2], [1,1,2,2])` with the defaults dim = 1, tau = 1,
   * threshold = 0.1, lmin = 2: rr = 0.5 and det = 0.5; with lmin = 5,
   * det = 0.
   */
  lemma StepsRqa(ln: real -> real)
    ensures CalcRqa(Steps, Steps, 1, 1, 0.1, 2, ln).recurrenceRate == 0.5
    ensures CalcRqa(Steps, Steps, 1, 1, 0.1, 2, ln).determinism == 0.5
    ensures CalcRqa(Steps, Steps, 1, 1, 0.1, 5, ln).determinism == 0.0
  {
    StepsMatrix();
    BlocksStatistics();
    CalcRqaFields(Steps, Steps, 1, 1, 0.1, 2, ln);
    CalcRqaFields(Steps, Steps, 1, 1, 0.1, 5, ln);
    LminBeyondLongestLine(Blocks, 4, 5, ln);
  }

  const AllRecurrent: seq<seq<bool>> := [
    [true, true, true, true],
    [true, true, true, true],
    [true, true, true, true],
    [true, true, true, true]]

  lemma AllRecurrentCount()
    ensures MatrixCountOf(AllRecurrent, true) == 16
  {
  }

  /** With threshold = 2 every pair of [1, 1, 2, 2] recurs. */
  lemma WideMatrix()
    ensures RecurrenceMatrix(Steps, Steps, 1, 1, 2.0) == AllRecurrent
  {
    var r := RecurrenceMatrix(Steps, Steps, 1, 1, 2.0);
    forall i, j | 0 <= i < 4 && 0 <= j < 4
      ensures r[i][j]
    {
      DimOneCell(Steps, Steps, 2.0, i, j);
    }
    forall i | 0 <= i < 4
      ensures r[i] == AllRecurrent[i]
    {
      assert |r[i]| == 4;
    }
  }

  lemma FullRate(r: seq<seq<bool>>)
    requires IsSquare(r, 4) && MatrixCountOf(r, true) == 16
    ensures RecurrenceRate(r, 4) == 1.0
  {
  }

  /** `calc_rqa([1,1,2,2], [1,1,2,2], threshold=2)`: rr = 1. */
  lemma StepsWideThreshold(ln: real -> real)
    ensures CalcRqa(Steps, Steps, 1, 1, 2.0, 2, ln).recurrenceRate == 1.0
  {
    WideMatrix();
    AllRecurrentCount();
    FullRate(AllRecurrent);
    CalcRqaFields(Steps, Steps, 1, 1, 2.0, 2, ln);
  }

  /**
   * The block matrix exhibits the avg_vert_length defect: divided by the
   * diagonal tail sum (one line of length >= 2) the vertical weighted sum
   * 8 gives 8.0, twice the longest possible line (M = 4), where the mean
   * of the four vertical lines of length 2 is 2.0.
   */
  lemma AvgVertLengthDefect()
    ensures AvgVertLengthAsWritten(Blocks, 4, 2) == 8.0
    ensures AvgVertLength(Blocks, 4, 2) == 2.0
    ensures AvgVertLengthAsWritten(Blocks, 4, 2) > 4 as real
  {
    BlocksStatistics();
  }
}
