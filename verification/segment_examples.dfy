/**
 * The examples of the repository's segment tests, worked through the
 * model: the auto-, cross- and windowed RQA segments, `CalcShift` and
 * `ColMeans` on small frames, all in exact real arithmetic.
 */
module SegmentExamples {
  import opened Errors
  import opened Tables
  import opened SegmentIO
  import opened Inputs
  import opened Outputs
  import opened Seg
  import opened RqaScan
  import opened Rqa
  import opened RqaProperties
  import opened RqaExamples
  import opened RqaSegments
  import opened Transforms
  import opened Util

  /* ---------------------------------------------------------------- */
  /* Recurrence matrices of the cross-RQA test                         */
  /* ---------------------------------------------------------------- */

  const A: seq<real> := [1.0, 1.0, 2.0, 2.0, 1.0, 1.0, 2.0, 2.0]
  const B: seq<real> := [3.0, 3.0, 2.0, 2.0, 3.0, 3.0, 2.0, 2.0]

  const Off: seq<bool> := [false, false, false, false, false, false, false, false]
  const Twos: seq<bool> := [false, false, true, true, false, false, true, true]
  const Ones: seq<bool> := [true, true, false, false, true, true, false, false]

  /** a against b: only the 2s of a meet the 2s of b. */
  const CrossAB: seq<seq<bool>> := [Off, Off, Twos, Twos, Off, Off, Twos, Twos]

  /** a against itself: equal values recur. */
  const SelfAA: seq<seq<bool>> := [Ones, Ones, Twos, Twos, Ones, Ones, Twos, Twos]

  lemma CrossMatrix()
    ensures RecurrenceMatrix(A, B, 1, 1, 0.1) == CrossAB
  {
    var r := RecurrenceMatrix(A, B, 1, 1, 0.1);
    forall i, j | 0 <= i < 8 && 0 <= j < 8
      ensures r[i][j] == CrossAB[i][j]
    {
      DimOneCell(A, B, 0.1, i, j);
    }
    forall i | 0 <= i < 8
      ensures r[i] == CrossAB[i]
    {
      assert |r[i]| == 8;
    }
  }

  lemma SelfMatrix()
    ensures RecurrenceMatrix(A, A, 1, 1, 0.1) == SelfAA
  {
    var r := RecurrenceMatrix(A, A, 1, 1, 0.1);
    forall i, j | 0 <= i < 8 && 0 <= j < 8
      ensures r[i][j] == SelfAA[i][j]
    {
      DimOneCell(A, A, 0.1, i, j);
    }
    forall i | 0 <= i < 8
      ensures r[i] == SelfAA[i]
    {
      assert |r[i]| == 8;
    }
  }

  lemma EightCounts()
    ensures MatrixCountOf(CrossAB, true) == 16
    ensures MatrixCountOf(SelfAA, true) == 32
  {
    CrossCount();
    SelfCount();
  }

  lemma RowCounts()
    ensures CountOf(Off, true) == 0 && CountOf(Twos, true) == 4 && CountOf(Ones, true) == 4
  {
  }

  lemma CrossCount()
    ensures MatrixCountOf(CrossAB, true) == 16
  {
    RowCounts();
    CountFromRows(CrossAB, [0, 0, 4, 4, 0, 0, 4, 4]);
  }

  lemma SelfCount()
    ensures MatrixCountOf(SelfAA, true) == 32
  {
    RowCounts();
    CountFromRows(SelfAA, [4, 4, 4, 4, 4, 4, 4, 4]);
  }

  /** The recurrent-cell count of a matrix is the sum of its row counts. */
  lemma {:induction false} CountFromRows(r: seq<seq<bool>>, rows: seq<nat>)
    requires |rows| == |r| && forall i | 0 <= i < |r| :: CountOf(r[i], true) == rows[i]
    ensures MatrixCountOf(r, true) == SeqSum(rows)
    decreases |r|
  {
    if |r| > 0 {
      CountFromRows(r[1..], rows[1..]);
    }
  }

  lemma RateOfEight(r: seq<seq<bool>>)
    requires IsSquare(r, 8)
    ensures MatrixCountOf(r, true) == 16 ==> RecurrenceRate(r, 8) == 0.25
    ensures MatrixCountOf(r, true) == 32 ==> RecurrenceRate(r, 8) == 0.5
  {
  }

  /** `calc_rqa(a, b)` has rr = 0.25 and `calc_rqa(a, a)` has rr = 0.5. */
  lemma CrossRates(ln: real -> real)
    ensures CalcRqa(A, B, 1, 1, 0.1, 2, ln).recurrenceRate == 0.25
    ensures CalcRqa(A, A, 1, 1, 0.1, 2, ln).recurrenceRate == 0.5
  {
    CrossRate(ln);
    SelfRate(ln);
  }

  lemma CrossRate(ln: real -> real)
    ensures CalcRqa(A, B, 1, 1, 0.1, 2, ln).recurrenceRate == 0.25
  {
    CrossMatrix();
    CrossCount();
    RateOfEight(CrossAB);
    CalcRqaFields(A, B, 1, 1, 0.1, 2, ln);
  }

  lemma SelfRate(ln: real -> real)
    ensures CalcRqa(A, A, 1, 1, 0.1, 2, ln).recurrenceRate == 0.5
  {
    SelfMatrix();
    SelfCount();
    RateOfEight(SelfAA);
    CalcRqaFields(A, A, 1, 1, 0.1, 2, ln);
  }

  /* ---------------------------------------------------------------- */
  /* The segments on the test frames                                   */
  /* ---------------------------------------------------------------- */

  /** A frame with the default index and two numeric columns "a" and "b". */
  function TwoColumns(a: seq<real>, b: seq<real>): (t: WfTable)
    requires |a| == |b|
    ensures t.Rows() == |a| && t.Cols() == 2 && t.Labels() == ["a", "b"]
    ensures t.columns[0].cells == Cells(a) && t.columns[1].cells == Cells(b)
  {
    var t := Table(RangeIndex(|a|), [Column("a", Cells(a)), Column("b", Cells(b))]);
    assert t.Labels() == ["a", "b"];
    t
  }

  /** The recurrence-rate cell of row k of a result frame. */
  lemma RateCell(rows: seq<RqaStats>, k: nat)
    requires k < |rows|
    ensures StatsTable(rows).columns[0].name == "recurrence_rate"
    ensures StatsTable(rows).columns[0].cells[k] == Num(rows[k].recurrenceRate)
    ensures StatsTable(rows).columns[1].cells[k] == Num(rows[k].determinism)
  {
    assert StatsTable(rows).Labels()[0] == StatNames[0];
  }

  /** RQAStats on [1, 1, 2, 2]: one row with rr = 0.5 and det = 0.5; det = 0 with lmin = 5. */
  lemma AutoRqaSteps(ln: real -> real)
    ensures AutoRqa(Series(Column("x", Cells(Steps))), DefaultParams(ln))
              == Ok(StatsTable([CalcRqa(Steps, Steps, 1, 1, 0.1, 2, ln)]))
    ensures AutoRqa(Series(Column("x", Cells(Steps))), DefaultParams(ln).(lmin := 5))
              == Ok(StatsTable([CalcRqa(Steps, Steps, 1, 1, 0.1, 5, ln)]))
    ensures StatsTable([CalcRqa(Steps, Steps, 1, 1, 0.1, 2, ln)]).columns[0].cells[0] == Num(0.5)
    ensures StatsTable([CalcRqa(Steps, Steps, 1, 1, 0.1, 2, ln)]).columns[1].cells[0] == Num(0.5)
    ensures StatsTable([CalcRqa(Steps, Steps, 1, 1, 0.1, 5, ln)]).columns[1].cells[0] == Num(0.0)
  {
    StepsRqa(ln);
    RateCell([CalcRqa(Steps, Steps, 1, 1, 0.1, 2, ln)], 0);
    RateCell([CalcRqa(Steps, Steps, 1, 1, 0.1, 5, ln)], 0);
  }

  /**
   * CrossRQAStats on the frame a = [1,1,2,2,1,1,2,2], b = [3,3,2,2,3,3,2,2]:
   * rr = 0.25 for a against b, selected by position or by label, and
   * rr = 0.5 for a against itself, which the default selectors 0 and 0 give.
   */
  lemma CrossRqaExample(ln: real -> real)
    ensures var t, p := TwoColumns(A, B), DefaultParams(ln);
            CrossRqa(t, ByPosition(0), ByPosition(1), p) == Ok(StatsTable([CalcRqa(A, B, 1, 1, 0.1, 2, ln)]))
            && CrossRqa(t, ByName("a"), ByName("b"), p) == Ok(StatsTable([CalcRqa(A, B, 1, 1, 0.1, 2, ln)]))
            && CrossRqa(t, ByName("a"), ByName("a"), p) == Ok(StatsTable([CalcRqa(A, A, 1, 1, 0.1, 2, ln)]))
            && CrossRqa(t, ByPosition(0), ByPosition(0), p) == Ok(StatsTable([CalcRqa(A, A, 1, 1, 0.1, 2, ln)]))
    ensures StatsTable([CalcRqa(A, B, 1, 1, 0.1, 2, ln)]).columns[0].cells[0] == Num(0.25)
    ensures StatsTable([CalcRqa(A, A, 1, 1, 0.1, 2, ln)]).columns[0].cells[0] == Num(0.5)
  {
    CrossPairs(ln);
    SelfPairs(ln);
    CrossRates(ln);
    RateCell([CalcRqa(A, B, 1, 1, 0.1, 2, ln)], 0);
    RateCell([CalcRqa(A, A, 1, 1, 0.1, 2, ln)], 0);
  }

  /** Column 0 against column 1, by position or by label. */
  lemma CrossPairs(ln: real -> real)
    ensures var t, p := TwoColumns(A, B), DefaultParams(ln);
            CrossRqa(t, ByPosition(0), ByPosition(1), p) == Ok(StatsTable([CalcRqa(A, B, 1, 1, 0.1, 2, ln)]))
            && CrossRqa(t, ByName("a"), ByName("b"), p) == Ok(StatsTable([CalcRqa(A, B, 1, 1, 0.1, 2, ln)]))
  {
    CrossByName(ln);
  }

  lemma CrossByName(ln: real -> real)
    ensures var t, p := TwoColumns(A, B), DefaultParams(ln);
            CrossRqa(t, ByName("a"), ByName("b"), p) == Ok(StatsTable([CalcRqa(A, B, 1, 1, 0.1, 2, ln)]))
  {
    var t := TwoColumns(A, B);
    assert ColumnsNamed(t.columns, "a") == [t.columns[0]];
    assert ColumnsNamed(t.columns, "b") == [t.columns[1]];
    CalcOnNumbers(A, B, ln);
  }

  /** Column 0 against itself, by position or by label. */
  lemma SelfPairs(ln: real -> real)
    ensures var t, p := TwoColumns(A, B), DefaultParams(ln);
            CrossRqa(t, ByName("a"), ByName("a"), p) == Ok(StatsTable([CalcRqa(A, A, 1, 1, 0.1, 2, ln)]))
            && CrossRqa(t, ByPosition(0), ByPosition(0), p) == Ok(StatsTable([CalcRqa(A, A, 1, 1, 0.1, 2, ln)]))
  {
    var t := TwoColumns(A, B);
    assert ColumnsNamed(t.columns, "a") == [t.columns[0]];
  }

  /* ---------------------------------------------------------------- */
  /* The windowed test                                                 */
  /* ---------------------------------------------------------------- */

  const W: seq<real> := [1.0, 1.0, 2.0, 2.0, 1.0, 1.0, 1.0, 1.0]

  const Lower: seq<seq<bool>> := [
    [false, false, false, false],
    [false, false, false, false],
    [false, false, true, true],
    [false, false, true, true]]

  const Upper: seq<seq<bool>> := [
    [true, true, false, false],
    [true, true, false, false],
    [false, false, false, false],
    [false, false, false, false]]

  const Empty4: seq<seq<bool>> := [
    [false, false, false, false],
    [false, false, false, false],
    [false, false, false, false],
    [false, false, false, false]]

  lemma WindowMatrix(x: seq<real>, y: seq<real>, expected: seq<seq<bool>>)
    requires |x| == |y| == 4 && IsSquare(expected, 4)
    requires forall i, j | 0 <= i < 4 && 0 <= j < 4 :: expected[i][j] == (x[i] == y[j])
    requires forall i, j | 0 <= i < 4 && 0 <= j < 4 :: x[i] == y[j] || x[i] - y[j] >= 1.0 || y[j] - x[i] >= 1.0
    ensures RecurrenceMatrix(x, y, 1, 1, 0.1) == expected
  {
    var r := RecurrenceMatrix(x, y, 1, 1, 0.1);
    forall i, j | 0 <= i < 4 && 0 <= j < 4
      ensures r[i][j] == expected[i][j]
    {
      DimOneCell(x, y, 0.1, i, j);
      if x[i] != y[j] {
        assert Sq(x[i] - y[j]) >= 1.0 by { SquareAtLeastOne(x[i] - y[j]); }
      }
    }
    forall i | 0 <= i < 4
      ensures r[i] == expected[i]
    {
      assert |r[i]| == 4;
    }
  }

  lemma SquareAtLeastOne(d: real)
    requires d >= 1.0 || -d >= 1.0
    ensures Sq(d) >= 1.0
  {
    if d >= 1.0 {
      assert d * d >= d * 1.0;
    } else {
      assert (-d) * (-d) >= (-d) * 1.0;
    }
  }

  lemma RateOfFour(r: seq<seq<bool>>)
    requires IsSquare(r, 4)
    ensures MatrixCountOf(r, true) == 4 ==> RecurrenceRate(r, 4) == 0.25
    ensures MatrixCountOf(r, true) == 0 ==> RecurrenceRate(r, 4) == 0.0
  {
  }

  lemma WindowRate(x: seq<real>, y: seq<real>, expected: seq<seq<bool>>, ln: real -> real)
    requires |x| == |y| == 4 && IsSquare(expected, 4)
    requires forall i, j | 0 <= i < 4 && 0 <= j < 4 :: expected[i][j] == (x[i] == y[j])
    requires forall i, j | 0 <= i < 4 && 0 <= j < 4 :: x[i] == y[j] || x[i] - y[j] >= 1.0 || y[j] - x[i] >= 1.0
    ensures CalcRqa(x, y, 1, 1, 0.1, 2, ln).recurrenceRate == RecurrenceRate(expected, 4)
  {
    WindowMatrix(x, y, expected);
    CalcRqaFields(x, y, 1, 1, 0.1, 2, ln);
  }

  lemma LowerRate()
    ensures RecurrenceRate(Lower, 4) == 0.25
  {
    assert CountOf(Lower[0], true) == 0 && CountOf(Lower[2], true) == 2;
    CountFromRows(Lower, [0, 0, 2, 2]);
    RateOfFour(Lower);
  }

  lemma UpperRate()
    ensures RecurrenceRate(Upper, 4) == 0.25
  {
    assert CountOf(Upper[0], true) == 2 && CountOf(Upper[2], true) == 0;
    CountFromRows(Upper, [2, 2, 0, 0]);
    RateOfFour(Upper);
  }

  lemma EmptyRate()
    ensures RecurrenceRate(Empty4, 4) == 0.0
  {
    assert CountOf(Empty4[0], true) == 0;
    CountFromRows(Empty4, [0, 0, 0, 0]);
    RateOfFour(Empty4);
  }

  lemma FirstWindow(ln: real -> real)
    ensures CalcRqa(W[0..4], B[0..4], 1, 1, 0.1, 2, ln).recurrenceRate == 0.25
  {
    assert W[0..4] == [1.0, 1.0, 2.0, 2.0] && B[0..4] == [3.0, 3.0, 2.0, 2.0];
    WindowRate([1.0, 1.0, 2.0, 2.0], [3.0, 3.0, 2.0, 2.0], Lower, ln);
    LowerRate();
  }

  lemma SecondWindow(ln: real -> real)
    ensures CalcRqa(W[2..6], B[2..6], 1, 1, 0.1, 2, ln).recurrenceRate == 0.25
  {
    assert W[2..6] == [2.0, 2.0, 1.0, 1.0] && B[2..6] == [2.0, 2.0, 3.0, 3.0];
    WindowRate([2.0, 2.0, 1.0, 1.0], [2.0, 2.0, 3.0, 3.0], Upper, ln);
    UpperRate();
  }

  lemma ThirdWindow(ln: real -> real)
    ensures CalcRqa(W[4..8], B[4..8], 1, 1, 0.1, 2, ln).recurrenceRate == 0.0
  {
    assert W[4..8] == [1.0, 1.0, 1.0, 1.0] && B[4..8] == [3.0, 3.0, 2.0, 2.0];
    WindowRate([1.0, 1.0, 1.0, 1.0], [3.0, 3.0, 2.0, 2.0], Empty4, ln);
    EmptyRate();
  }

  lemma CollectThree<T>(f: int -> Result<T>, a: int, b: int, c: int)
    requires f(a).Ok? && f(b).Ok? && f(c).Ok?
    ensures Collect([a, b, c], f) == Ok([f(a).value, f(b).value, f(c).value])
  {
    var s := [a, b, c];
    assert s[0] == a && s[1] == b && s[2] == c;
    assert forall k | 0 <= k < |s| :: f(s[k]).Ok?;
    var r := Collect(s, f);
    assert r.Ok? && |r.value| == 3;
    assert r.value[0] == f(a).value && r.value[1] == f(b).value && r.value[2] == f(c).value;
    assert r.value == [f(a).value, f(b).value, f(c).value];
  }

  lemma CellsSlice(xs: seq<real>, lo: nat, hi: nat)
    requires lo <= hi <= |xs|
    ensures Cells(xs)[lo..hi] == Cells(xs[lo..hi])
  {
  }

  /** Two numeric columns of equal, positive length go through `calc_rqa` unchanged. */
  lemma CalcOnNumbers(xs: seq<real>, ys: seq<real>, ln: real -> real)
    requires |xs| == |ys| >= 1
    ensures CalcOnCells(Cells(xs), Cells(ys), DefaultParams(ln)) == Ok(CalcRqa(xs, ys, 1, 1, 0.1, 2, ln))
  {
    assert EmbeddingFits(|xs|, 1, 1);
    NumericEmbeds(Cells(xs), 1, 1);
    NumericEmbeds(Cells(ys), 1, 1);
  }

  /** A window of two numeric columns under the default parameters is `calc_rqa` of the window's numbers. */
  lemma NumericWindow(x: seq<real>, y: seq<real>, ln: real -> real, w: nat, window: nat)
    requires |x| == |y| && 1 <= window && w + window <= |x|
    ensures WindowStats(Flat(Cells(x)), Flat(Cells(y)), window, DefaultParams(ln))(w)
              == Ok(CalcRqa(x[w..w + window], y[w..w + window], 1, 1, 0.1, 2, ln))
  {
    var p := DefaultParams(ln);
    var xa, xb := Cells(x), Cells(y);
    var xw, yw := x[w..w + window], y[w..w + window];
    WindowAtSlice(xa, xb, window, p, w);
    CellsSlice(x, w, w + window);
    CellsSlice(y, w, w + window);
    CalcOnNumbers(xw, yw, ln);
  }

  /** The window function at w is `calc_rqa` on the plain slices. */
  lemma WindowAtSlice(xa: seq<Cell>, xb: seq<Cell>, window: nat, p: RqaParams, w: nat)
    requires |xa| == |xb| && w + window <= |xa|
    ensures WindowStats(Flat(xa), Flat(xb), window, p)(w) == CalcOnCells(xa[w..w + window], xb[w..w + window], p)
  {
    WindowSlice(xa, xb, window, p, w);
  }

  /**
   * WindowedCrossRQAStats on a = [1,1,2,2,1,1,1,1], b = [3,3,2,2,3,3,2,2]
   * with window 4 and step 2: three rows, for the windows starting at 0,
   * 2 and 4, with rr = 0.25, 0.25 and 0.
   */
  lemma WindowedExample(ln: real -> real)
    ensures WindowedRqaRows(TwoColumns(W, B), ByPosition(0), ByPosition(1), DefaultParams(ln), 4, 2)
              == Ok([WindowRow(0, ln), WindowRow(2, ln), WindowRow(4, ln)])
  {
    var t := TwoColumns(W, B);
    assert PickPair(t, ByPosition(0), ByPosition(1)) == Ok((Flat(Cells(W)), Flat(Cells(B))));
    assert PyRange(0, 5, 2) == [0, 2, 4] by {
      assert PyRange(6, 5, 2) == [];
      assert PyRange(4, 5, 2) == [4];
      assert PyRange(2, 5, 2) == [2, 4];
    }
    assert WindowStarts(8, 4, 2) == Ok([0, 2, 4]);
    NumericWindow(W, B, ln, 0, 4);
    NumericWindow(W, B, ln, 2, 4);
    NumericWindow(W, B, ln, 4, 4);
    CollectThree(WindowStats(Flat(Cells(W)), Flat(Cells(B)), 4, DefaultParams(ln)), 0, 2, 4);
  }

  /** The statistics of the window of W against B starting at row i. */
  function WindowRow(i: nat, ln: real -> real): RqaStats
    requires i <= 4
  {
    CalcRqa(W[i..i + 4], B[i..i + 4], 1, 1, 0.1, 2, ln)
  }

  /** The rates of the three windows of `WindowedExample`. */
  lemma WindowedRates(ln: real -> real)
    ensures CalcRqa(W[0..4], B[0..4], 1, 1, 0.1, 2, ln).recurrenceRate == 0.25
    ensures CalcRqa(W[2..6], B[2..6], 1, 1, 0.1, 2, ln).recurrenceRate == 0.25
    ensures CalcRqa(W[4..8], B[4..8], 1, 1, 0.1, 2, ln).recurrenceRate == 0.0
  {
    FirstWindow(ln);
    SecondWindow(ln);
    ThirdWindow(ln);
  }

  /* ---------------------------------------------------------------- */
  /* CalcShift                                                         */
  /* ---------------------------------------------------------------- */

  const WDiff: seq<real> := [0.0, 0.0, 1.0, 1.0, -1.0, -1.0, 0.0, 0.0]

  lemma WShiftDiff()
    ensures ShiftDiff(W, 2) == Ok(WDiff)
  {
    var d := ShiftDiff(W, 2).value;
    assert |d| == 8;
    assert forall i | 0 <= i < 8 :: d[i] == WDiff[i];
    assert d == WDiff;
  }

  /**
   * `CalcShift(cols=["a"], shift=2)` on the frame (a, b): a third column
   * "a_shift" holding a[i] - a[i-2], with zeros in the first two rows.
   */
  lemma CalcShiftExample()
    ensures var t := TwoColumns(W, B);
            CalcShift(t, Some(["a"]), 2) == Ok(Table(t.index, t.columns + [Column("a_shift", Cells(WDiff))]))
  {
    var t := TwoColumns(W, B);
    assert ColumnsNamed(t.columns, "a") == [t.columns[0]];
    assert ShiftName("a") == "a_shift";
    assert FreshShiftLabels(t, ["a"]);
    ShiftAppends(t, ["a"], 2);
    ShiftedAllAt(t, ["a"], 2);
    WShiftDiff();
    assert ShiftedColumn(t, "a", 2) == Ok(Column("a_shift", Cells(WDiff)));
    assert ShiftedAll(t, ["a"], 2).value == [Column("a_shift", Cells(WDiff))];
  }

  /** Called as a segment, the shift passes both multivariate gates. */
  lemma CalcShiftSegmentExample(name: string, uuid: string)
    ensures var t := TwoColumns(W, B);
            Call(CalcShiftSegment(name, None, uuid, Some(["a"]), 2), map["x" := Frame(t)])
              == Ok(Frame(Table(t.index, t.columns + [Column("a_shift", Cells(WDiff))])))
  {
    CalcShiftExample();
    CalcShiftCallSucceeds(name, None, uuid, Some(["a"]), 2, TwoColumns(W, B));
  }

  /**
   * The edges of the differences: past the column both slices are empty
   * and only the `shift` zeros remain; a zero shift broadcasts against at
   * most one value.
   */
  lemma ShiftDiffEdges()
    ensures ShiftDiff([1.0, 2.0], 3) == Ok([0.0, 0.0, 0.0])
    ensures ShiftDiff([], 2) == Ok([0.0, 0.0])
    ensures ShiftDiff([5.0], 0) == Ok([])
    ensures ShiftDiff([1.0, 2.0], 0) == Err(ValueError)
  {
    assert ShiftDiff([1.0, 2.0], 3).value == [0.0, 0.0, 0.0];
    assert ShiftDiff([], 2).value == [0.0, 0.0];
  }

  /**
   * A shift longer than the frame makes a column that does not fit the
   * rows (ValueError); on a frame with no rows pandas grows the frame
   * instead, which the model reports as `GrowthError`.
   */
  lemma CalcShiftEdges()
    ensures CalcShift(TwoColumns(W, B), Some(["a"]), 9) == Err(ValueError)
    ensures CalcShift(Table([], [Column("a", [])]), Some(["a"]), 1) == Err(GrowthError)
  {
    var t := TwoColumns(W, B);
    assert ColumnsNamed(t.columns, "a") == [t.columns[0]];
    var e := Table([], [Column("a", [])]);
    assert e.WellFormed();
    assert ColumnsNamed(e.columns, "a") == [e.columns[0]];
  }

  /* ---------------------------------------------------------------- */
  /* ColMeans                                                          */
  /* ---------------------------------------------------------------- */

  function RealSum(xs: seq<real>): real {
    if xs == [] then 0.0 else xs[0] + RealSum(xs[1..])
  }

  /** The arithmetic mean, `pandas.Series.mean` without missing values. */
  function Mean(xs: seq<real>): real {
    if xs == [] then 0.0 else RealSum(xs) / (|xs| as real)
  }

  const CA: seq<real> := [1.0, 2.0, 3.0]
  const CB: seq<real> := [4.0, 5.0, 6.0]
  const CC: seq<real> := [7.0, 8.0, 9.0]

  /** The frame A = [1, 2, 3], B = [4, 5, 6], C = [7, 8, 9]. */
  function ThreeColumns(): (t: WfTable)
    ensures t.Rows() == 3 && t.Cols() == 3 && t.Labels() == ["A", "B", "C"]
    ensures t.columns == [Column("A", Cells(CA)), Column("B", Cells(CB)), Column("C", Cells(CC))]
  {
    var t := Table(RangeIndex(3), [Column("A", Cells(CA)), Column("B", Cells(CB)), Column("C", Cells(CC))]);
    assert t.Labels() == ["A", "B", "C"];
    t
  }

  lemma ColumnMeans()
    ensures Mean(Numbers(Cells(CA))) == 2.0
    ensures Mean(Numbers(Cells(CB))) == 5.0
    ensures Mean(Numbers(Cells(CC))) == 8.0
  {
    assert RealSum(CA) == 6.0 by {
      assert CA[1..] == [2.0, 3.0] && CA[1..][1..] == [3.0] && CA[1..][1..][1..] == [];
    }
    assert RealSum(CB) == 15.0 by {
      assert CB[1..] == [5.0, 6.0] && CB[1..][1..] == [6.0] && CB[1..][1..][1..] == [];
    }
    assert RealSum(CC) == 24.0 by {
      assert CC[1..] == [8.0, 9.0] && CC[1..][1..] == [9.0] && CC[1..][1..][1..] == [];
    }
  }

  lemma MeansOfAll()
    ensures MeansOf(ThreeColumns().columns, Mean) == Ok([2.0, 5.0, 8.0])
  {
    ColumnMeans();
    var cs := ThreeColumns().columns;
    assert cs[0].cells == Cells(CA) && cs[1].cells == Cells(CB) && cs[2].cells == Cells(CC);
    var r := MeansOf(cs, Mean);
    assert r.Ok? && |r.value| == 3;
    assert r.value[0] == 2.0 && r.value[1] == 5.0 && r.value[2] == 8.0;
    assert r.value == [2.0, 5.0, 8.0];
  }

  /** `ColMeans` on (A, B, C): the positional slice [0:3] and no selector both give [2, 5, 8]. */
  lemma ColMeansAll()
    ensures ColMeans(ThreeColumns(), ColSlice(IntBound(0), IntBound(3)), Mean) == Ok([2.0, 5.0, 8.0])
    ensures ColMeans(ThreeColumns(), ColAll, Mean) == Ok([2.0, 5.0, 8.0])
  {
    var t := ThreeColumns();
    MeansOfAll();
    assert PySlice(t.columns, Some(0), Some(3)) == t.columns;
    assert forall c | 0 <= c < t.Cols() :: IsNumeric(t.columns[c].cells);
    AllEqualsFullSlice(t, Mean);
  }

  /** The label slice "A":"B" includes its end label. */
  lemma ColMeansLabelSlice()
    ensures ColMeans(ThreeColumns(), ColSlice(StrBound("A"), StrBound("B")), Mean) == Ok([2.0, 5.0])
  {
    var t := ThreeColumns();
    ColumnMeans();
    LabelSliceUnique(t.columns, "A", "B", 0, 1);
    var cs := LabelSlice(t.columns, "A", "B").value;
    assert cs == PySlice(t.columns, Some(0), Some(2)) == t.columns[0..2];
    assert cs[0].cells == Cells(CA) && cs[1].cells == Cells(CB);
    var r := MeansOf(cs, Mean);
    assert r.Ok? && |r.value| == 2;
    assert r.value[0] == 2.0 && r.value[1] == 5.0;
    assert r.value == [2.0, 5.0];
  }

  /** Column 0 and column "A" give [2]; any other selector is a ValueError. */
  lemma ColMeansSingle()
    ensures ColMeans(ThreeColumns(), ColPos(0), Mean) == Ok([2.0])
    ensures ColMeans(ThreeColumns(), ColName("A"), Mean) == Ok([2.0])
    ensures ColMeans(ThreeColumns(), ColOther, Mean) == Err(ValueError)
  {
    var t := ThreeColumns();
    ColumnMeans();
    assert ColumnAt(t, 0) == Ok(t.columns[0]);
    assert ColumnsNamed(t.columns, "A") == [t.columns[0]];
  }

  lemma ColMeansBodyAll()
    ensures ColMeansBody(ColAll, Mean)(map["x" := Frame(ThreeColumns())]) == Ok(Series(Column("", Cells([2.0, 5.0, 8.0]))))
  {
    ColMeansAll();
  }

  lemma ColMeansGates()
    ensures ValidateInput(MultivariateSeriesInput, map["x" := Frame(ThreeColumns())]) == Ok(true)
    ensures ValidateOutput(UnivariateSeriesOutput, Series(Column("", Cells([2.0, 5.0, 8.0])))) == Ok(true)
  {
    MultivariateInputShapes(Frame(ThreeColumns()));
  }

  /** As a segment: the three means come back as a univariate Series. */
  lemma ColMeansSegmentExample(name: string, uuid: string)
    ensures Call(ColMeansSegment(name, None, uuid, ColAll, Mean), map["x" := Frame(ThreeColumns())])
              == Ok(Series(Column("", Cells([2.0, 5.0, 8.0]))))
  {
    ColMeansBodyAll();
    ColMeansGates();
    DefaultHooksReturnProcessOutput(name, None, uuid, MultivariateSeriesInput, UnivariateSeriesOutput,
                                    ColMeansBody(ColAll, Mean), map["x" := Frame(ThreeColumns())]);
  }

  /* ---------------------------------------------------------------- */
  /* A repeated column label                                           */
  /* ---------------------------------------------------------------- */

  /** The frame A = [1, 2, 3], A = [4, 5, 6]: the label A carried twice, as `pd.concat` along columns can leave it. */
  function RepeatedA(): (t: WfTable)
    ensures t.Rows() == 3 && t.Labels() == ["A", "A"]
    ensures t.columns == [Column("A", Cells(CA)), Column("A", Cells(CB))]
  {
    var t := Table(RangeIndex(3), [Column("A", Cells(CA)), Column("A", Cells(CB))]);
    assert t.Labels() == ["A", "A"];
    t
  }

  lemma RepeatedASelects()
    ensures ColumnsNamed(RepeatedA().columns, "A") == RepeatedA().columns
    ensures SelectNamed(RepeatedA(), "A") == Ok(Several(RepeatedA().columns))
  {
    var cs := RepeatedA().columns;
    assert cs[1..][1..] == [];
    assert ColumnsNamed(cs[1..], "A") == cs[1..];
  }

  /** The mean of a repeated label is one mean per column carrying it. */
  lemma ColMeansRepeatedLabel()
    ensures ColMeans(RepeatedA(), ColName("A"), Mean) == Ok([2.0, 5.0])
  {
    RepeatedASelects();
    ColumnMeans();
    var cs := RepeatedA().columns;
    var r := MeansOf(cs, Mean);
    assert r.Ok? && |r.value| == 2;
    assert r.value[0] == 2.0 && r.value[1] == 5.0;
    assert r.value == [2.0, 5.0];
  }

  /** Shifting a repeated label raises ValueError instead of adding a column. */
  lemma CalcShiftRepeatedLabel()
    ensures CalcShift(RepeatedA(), Some(["A"]), 1) == Err(ValueError)
  {
    RepeatedASelects();
  }

  /** Cross-RQA of a repeated label against column 0 raises ValueError. */
  lemma CrossRqaRepeatedLabel(ln: real -> real)
    ensures CrossRqa(RepeatedA(), ByName("A"), ByPosition(0), DefaultParams(ln)) == Err(ValueError)
  {
    RepeatedASelects();
    RepeatedLabelRaises(RepeatedA(), "A", ByPosition(0), DefaultParams(ln));
  }

  /* ---------------------------------------------------------------- */
  /* Embeddings without points                                         */
  /* ---------------------------------------------------------------- */

  /**
   * On three samples: dim 4, tau 1 spans exactly the series (the NaN-rate
   * row of the source), dim 3, tau 2 leaves delay rows of unequal length,
   * and dim 0 leaves no rows; the last two raise ValueError.
   */
  lemma EmbeddingOutcomes(ln: real -> real)
    ensures CalcOnCells(Cells(CA), Cells(CA), RqaParams(4, 1, 0.1, 2, ln)) == Err(EmbeddingError)
    ensures CalcOnCells(Cells(CA), Cells(CA), RqaParams(3, 2, 0.1, 2, ln)) == Err(ValueError)
    ensures CalcOnCells(Cells(CA), Cells(CA), RqaParams(0, 1, 0.1, 2, ln)) == Err(ValueError)
    ensures CalcOnCells(Cells(CA), Cells(CA), RqaParams(7, 1, 0.1, 2, ln)) == Err(EmbeddingError)
  {
  }

  const Gapped: seq<Cell> := [Num(1.0), Txt("a"), Txt("b"), Num(2.0)]

  /**
   * With dim 2 and tau 3 on four cells the delay rows are x[0:1] and
   * x[3:4]: the two text cells between them are never read, so the
   * column computes, exactly as it would with any numbers in their
   * place. With tau 1 the rows cover the text and the distances fail.
   */
  lemma GapTextIsNeverRead(ln: real -> real)
    ensures CalcOnCells(Gapped, Gapped, RqaParams(2, 3, 0.1, 2, ln)).Ok?
    ensures CalcOnCells(Gapped, Gapped, RqaParams(2, 3, 0.1, 2, ln))
              == CalcOnCells(Cells([1.0, 5.0, 7.0, 2.0]), Cells([1.0, 5.0, 7.0, 2.0]), RqaParams(2, 3, 0.1, 2, ln))
    ensures CalcOnCells(Gapped, Gapped, RqaParams(2, 1, 0.1, 2, ln)) == Err(TypeError)
  {
    GapRowsNumeric();
    GapRowsAgree();
    CalcOnCellsReadsEmbedding(Gapped, Gapped, Cells([1.0, 5.0, 7.0, 2.0]), Cells([1.0, 5.0, 7.0, 2.0]), RqaParams(2, 3, 0.1, 2, ln));
    GapTextRead();
  }

  lemma GapRowsNumeric()
    ensures EmbeddingFits(4, 2, 3) && EmbeddedNumeric(Gapped, 2, 3)
  {
    assert CellRow(Gapped, 2, 3, 0) == [Num(1.0)];
    assert CellRow(Gapped, 2, 3, 1) == [Num(2.0)];
  }

  lemma GapRowsAgree()
    ensures EmbeddingFits(4, 2, 3)
    ensures forall c | 0 <= c < 2 :: CellRow(Gapped, 2, 3, c) == CellRow(Cells([1.0, 5.0, 7.0, 2.0]), 2, 3, c)
  {
    var full := Cells([1.0, 5.0, 7.0, 2.0]);
    assert full[0] == Num(1.0) && full[3] == Num(2.0);
    assert CellRow(Gapped, 2, 3, 0) == [Num(1.0)];
    assert CellRow(full, 2, 3, 0) == [Num(1.0)];
    assert CellRow(Gapped, 2, 3, 1) == [Num(2.0)];
    assert CellRow(full, 2, 3, 1) == [Num(2.0)];
  }

  lemma GapTextRead()
    ensures EmbeddingFits(4, 2, 1) && !EmbeddedNumeric(Gapped, 2, 1)
  {
    assert CellRow(Gapped, 2, 1, 0)[1] == Txt("a");
  }
}
