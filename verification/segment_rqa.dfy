/**
 * The three RQA segments of src/mopipe/segment.py: auto-RQA of one
 * series, cross-RQA of two columns of a frame, and cross-RQA over a
 * moving window. Each returns a frame with the seven `calc_rqa`
 * statistics as columns and one row per analysed stretch.
 */
module RqaSegments {
  import opened Errors
  import opened Tables
  import opened SegmentIO
  import opened Inputs
  import opened Outputs
  import opened Seg
  import opened Rqa

  /** The keyword parameters of the RQA segments, shared by all three. */
  datatype RqaParams = RqaParams(dim: nat, tau: nat, threshold: real, lmin: int, ln: real -> real)

  /** dim = 1, tau = 1, threshold = 0.1, lmin = 2 (segment.py:137-140). */
  function DefaultParams(ln: real -> real): RqaParams {
    RqaParams(1, 1, 0.1, 2, ln)
  }

  /** The column labels of the result, in order (segment.py:155-165). */
  const StatNames: seq<string> := [
    "recurrence_rate", "determinism", "laminarity", "avg_diag_length",
    "avg_vert_length", "d_entropy", "v_entropy"]

  /** The seven values of one result row, in column order. */
  function StatValues(s: RqaStats): (vs: seq<real>)
    ensures |vs| == 7
  {
    [s.recurrenceRate, s.determinism, s.laminarity, s.avgDiagLength,
     s.avgVertLength, s.dEntropy, s.vEntropy]
  }

  /**
   * The result frame: one row per statistics record, appended in order
   * with `out.loc[len(out)] = ...`, so the index is 0, 1, ...
   */
  function StatsTable(rows: seq<RqaStats>): (t: WfTable)
    ensures t.Rows() == |rows| && t.Cols() == 7 && t.Labels() == StatNames
    ensures t.index == RangeIndex(|rows|)
    ensures forall c, k | 0 <= c < 7 && 0 <= k < |rows| :: t.columns[c].cells[k] == Num(StatValues(rows[k])[c])
  {
    var cols := seq(7, c requires 0 <= c < 7 =>
      Column(StatNames[c], seq(|rows|, k requires 0 <= k < |rows| => Num(StatValues(rows[k])[c]))));
    var t := Table(RangeIndex(|rows|), cols);
    assert t.Labels() == StatNames;
    t
  }

  /**
   * The delay rows `x[i tau : n - (dim - i - 1) tau]` all come out
   * empty: the span (dim - 1) tau equals n, or reaches 2n so that even
   * the first row's negative stop wraps round to nothing. The matrix is
   * then 0 x 0 and the recurrence rate is 0 / 0.
   */
  predicate EmptyEmbedding(n: nat, dim: nat, tau: nat) {
    dim >= 1 && ((dim - 1) * tau == n || (dim - 1) * tau >= 2 * n)
  }

  /** Row c of the delay matrix over cells: `x[c*tau : n - (dim-c-1)*tau]`. */
  function CellRow(cells: seq<Cell>, dim: nat, tau: nat, c: nat): (row: seq<Cell>)
    requires EmbeddingFits(|cells|, dim, tau) && c < dim
    ensures |row| == PointCount(|cells|, dim, tau)
    ensures forall t | 0 <= t < |row| :: row[t] == cells[c * tau + t]
    ensures forall t | 0 <= t < |row| :: row[t] in cells
  {
    DelayArithmetic(dim, tau, c);
    cells[c * tau .. |cells| - (dim - c - 1) * tau]
  }

  /** Sample t of delay row c lies inside the column. */
  lemma RowIndex(n: nat, dim: nat, tau: nat, c: nat, t: nat)
    requires EmbeddingFits(n, dim, tau) && c < dim && t < PointCount(n, dim, tau)
    ensures c * tau + t < n
  {
    DelayArithmetic(dim, tau, c);
    MulLe(0, dim - c - 1, tau);
  }

  /** Every cell the delay matrix reads is a number; cells between the delay rows are never read. */
  predicate EmbeddedNumeric(cells: seq<Cell>, dim: nat, tau: nat)
    requires EmbeddingFits(|cells|, dim, tau)
  {
    forall c | 0 <= c < dim :: IsNumeric(CellRow(cells, dim, tau, c))
  }

  /**
   * `calc_rqa` on two equally long columns. The delay embedding is cut
   * first. An embedding with points goes on to the distances, which fail
   * (TypeError) when a cell they read is text; cells that no delay row
   * covers are never read. An embedding whose rows are all empty gives
   * the source's NaN-rate row, reported here as EmbeddingError because
   * NaN is not a value of the model. Any other embedding without points
   * (dim = 0, or rows of unequal length) makes numpy raise ValueError.
   */
  function CalcOnCells(xa: seq<Cell>, xb: seq<Cell>, p: RqaParams): (r: Result<RqaStats>)
    requires |xa| == |xb|
    ensures r.Ok? <==> EmbeddingFits(|xa|, p.dim, p.tau) && EmbeddedNumeric(xa, p.dim, p.tau) && EmbeddedNumeric(xb, p.dim, p.tau)
    ensures EmptyEmbedding(|xa|, p.dim, p.tau) ==> r == Err(EmbeddingError)
    ensures !EmbeddingFits(|xa|, p.dim, p.tau) && !EmptyEmbedding(|xa|, p.dim, p.tau) ==> r == Err(ValueError)
    ensures EmbeddingFits(|xa|, p.dim, p.tau) && !(EmbeddedNumeric(xa, p.dim, p.tau) && EmbeddedNumeric(xb, p.dim, p.tau)) ==>
              r == Err(TypeError)
    ensures r.Ok? ==> r.value == CalcRqa(Reals(xa), Reals(xb), p.dim, p.tau, p.threshold, p.lmin, p.ln)
    ensures r.Ok? && IsNumeric(xa) && IsNumeric(xb) ==> r.value == CalcRqa(Numbers(xa), Numbers(xb), p.dim, p.tau, p.threshold, p.lmin, p.ln)
  {
    if EmbeddingFits(|xa|, p.dim, p.tau) then
      if !EmbeddedNumeric(xa, p.dim, p.tau) || !EmbeddedNumeric(xb, p.dim, p.tau) then Err(TypeError)
      else Ok(CalcRqa(Reals(xa), Reals(xb), p.dim, p.tau, p.threshold, p.lmin, p.ln))
    else if EmptyEmbedding(|xa|, p.dim, p.tau) then Err(EmbeddingError)
    else Err(ValueError)
  }

  /** A numeric column passes the embedded-cell test whatever the embedding. */
  lemma NumericEmbeds(cells: seq<Cell>, dim: nat, tau: nat)
    requires EmbeddingFits(|cells|, dim, tau) && IsNumeric(cells)
    ensures EmbeddedNumeric(cells, dim, tau)
  {
    forall c | 0 <= c < dim ensures IsNumeric(CellRow(cells, dim, tau, c)) {
      var row := CellRow(cells, dim, tau, c);
      assert forall t | 0 <= t < |row| :: row[t] in cells;
    }
  }

  /**
   * `calc_rqa` reads only the delay rows: two pairs of columns whose
   * delay rows agree give the same outcome, whatever the cells between
   * the rows hold.
   */
  lemma CalcOnCellsReadsEmbedding(xa: seq<Cell>, xb: seq<Cell>, ya: seq<Cell>, yb: seq<Cell>, p: RqaParams)
    requires |xa| == |xb| == |ya| == |yb|
    requires EmbeddingFits(|xa|, p.dim, p.tau) ==>
               forall c | 0 <= c < p.dim :: CellRow(xa, p.dim, p.tau, c) == CellRow(ya, p.dim, p.tau, c)
                                            && CellRow(xb, p.dim, p.tau, c) == CellRow(yb, p.dim, p.tau, c)
    ensures CalcOnCells(xa, xb, p) == CalcOnCells(ya, yb, p)
  {
    if EmbeddingFits(|xa|, p.dim, p.tau) && EmbeddedNumeric(xa, p.dim, p.tau) && EmbeddedNumeric(xb, p.dim, p.tau) {
      SameEmbedding(xa, ya, p.dim, p.tau);
      SameEmbedding(xb, yb, p.dim, p.tau);
      assert RecurrenceMatrix(Reals(xa), Reals(xb), p.dim, p.tau, p.threshold)
             == RecurrenceMatrix(Reals(ya), Reals(yb), p.dim, p.tau, p.threshold);
    }
  }

  /** Columns with the same numeric delay rows have the same delay matrix. */
  lemma SameEmbedding(x: seq<Cell>, y: seq<Cell>, dim: nat, tau: nat)
    requires |x| == |y| && EmbeddingFits(|x|, dim, tau) && EmbeddedNumeric(x, dim, tau)
    requires forall c | 0 <= c < dim :: CellRow(x, dim, tau, c) == CellRow(y, dim, tau, c)
    ensures Embed(Reals(x), dim, tau) == Embed(Reals(y), dim, tau)
  {
    var ex, ey := Embed(Reals(x), dim, tau), Embed(Reals(y), dim, tau);
    var m := PointCount(|x|, dim, tau);
    forall c | 0 <= c < dim ensures ex[c] == ey[c] {
      var row := CellRow(x, dim, tau, c);
      assert row == CellRow(y, dim, tau, c);
      forall t | 0 <= t < m ensures ex[c][t] == ey[c][t] {
        RowIndex(|x|, dim, tau, c, t);
        var k := c * tau + t;
        assert row[t].Num?;
        assert x[k] == row[t] == y[k];
        assert Reals(x)[k] == x[k].x && Reals(y)[k] == y[k].x;
      }
    }
  }

  /**
   * The three ways an embedding can go: it has points, its rows are all
   * empty, or it cannot be built; exactly one holds for every n, dim and
   * tau, and with dim >= 1 the last is n < (dim - 1) tau < 2n.
   */
  lemma EmbeddingCases(n: nat, dim: nat, tau: nat)
    ensures EmbeddingFits(n, dim, tau) ==> !EmptyEmbedding(n, dim, tau)
    ensures !EmbeddingFits(n, dim, tau) && !EmptyEmbedding(n, dim, tau) <==>
              dim == 0 || n < (dim - 1) * tau < 2 * n
  {
  }

  /**
   * `RQAStats.process` (segment.py:134-171). An empty series gives the
   * empty result; otherwise one row, `calc_rqa(x, x, ...)`. The values
   * of a DataFrame are two-dimensional, which the distance computation
   * refuses (ValueError); a value that is neither has no `.empty`.
   */
  function AutoRqa(x: Value, p: RqaParams): (r: Result<WfTable>)
    ensures x.Series? && x.column.cells == [] ==> r == Ok(StatsTable([]))
    ensures x.Series? && x.column.cells != [] ==>
              (r.Ok? <==> CalcOnCells(x.column.cells, x.column.cells, p).Ok?)
    ensures x.Series? && x.column.cells != [] && r.Ok? ==>
              r.value == StatsTable([CalcOnCells(x.column.cells, x.column.cells, p).value])
    ensures x.Frame? && x.table.IsEmpty() ==> r == Ok(StatsTable([]))
    ensures x.Frame? && !x.table.IsEmpty() ==> r == Err(ValueError)
    ensures !x.Series? && !x.Frame? ==> r == Err(AttributeError)
  {
    match x
    case Series(col) =>
      if col.cells == [] then Ok(StatsTable([]))
      else
        var stats :- CalcOnCells(col.cells, col.cells, p);
        Ok(StatsTable([stats]))
    case Frame(t) =>
      if t.IsEmpty() then Ok(StatsTable([])) else Err(ValueError)
    case _ => Err(AttributeError)
  }

  /** A column selector: an int (by position), a str (by label), or anything else. */
  datatype Selector = ByPosition(i: int) | ByName(name: string) | OtherSelector

  /**
   * The `.values` of a selection: the cells of one column, or, for a
   * label that several columns carry, the two-dimensional block of all
   * of them.
   */
  datatype Picked = Flat(cells: seq<Cell>) | Wide(block: seq<Column>)

  /**
   * The column a selector picks (segment.py:215-222): `iloc` for an int,
   * `loc` for a str. Any other selector assigns nothing, which is
   * `None` here; the unbound variable only fails when it is read.
   */
  function Pick(t: WfTable, sel: Selector): (r: Result<Option<Picked>>)
    ensures sel.OtherSelector? ==> r == Ok(None)
    ensures sel.ByPosition? ==> (r.Ok? <==> ColumnAt(t, sel.i).Ok?)
    ensures sel.ByPosition? && r.Ok? ==> r.value == Some(Flat(ColumnAt(t, sel.i).value.cells))
    ensures sel.ByName? ==> (r.Ok? <==> exists c | 0 <= c < t.Cols() :: t.columns[c].name == sel.name)
    ensures sel.ByName? && r.Err? ==> r.error == KeyError
    ensures !sel.OtherSelector? && r.Ok? ==> r.value.Some?
    ensures sel.ByName? && r.Ok? ==>
              (r.value.value.Flat? <==> forall c | 0 <= c < t.Cols() && t.columns[c].name == sel.name ::
                                          c == FindLabel(t.columns, sel.name).value)
    ensures sel.ByName? && r.Ok? && r.value.value.Flat? ==>
              r.value.value.cells == t.columns[FindLabel(t.columns, sel.name).value].cells
    ensures sel.ByName? && r.Ok? && r.value.value.Wide? ==>
              r.value.value.block == ColumnsNamed(t.columns, sel.name) && |r.value.value.block| >= 2
    ensures r.Ok? && r.value.Some? && r.value.value.Flat? ==> |r.value.value.cells| == t.Rows()
  {
    match sel
    case ByPosition(i) =>
      var c :- ColumnAt(t, i);
      Ok(Some(Flat(c.cells)))
    case ByName(name) =>
      var picked :- SelectNamed(t, name);
      (match picked
       case Single(c) => Ok(Some(Flat(c.cells)))
       case Several(cs) => Ok(Some(Wide(cs))))
    case OtherSelector => Ok(None)
  }

  /**
   * Both selections, a resolved before b; reading a selection that
   * assigned nothing is an UnboundLocalError.
   */
  function PickPair(t: WfTable, a: Selector, b: Selector): (r: Result<(Picked, Picked)>)
    ensures r.Ok? <==> Pick(t, a).Ok? && Pick(t, b).Ok? && !a.OtherSelector? && !b.OtherSelector?
    ensures Pick(t, a).Err? ==> r == Err(Pick(t, a).error)
    ensures Pick(t, a).Ok? && Pick(t, b).Err? ==> r == Err(Pick(t, b).error)
    ensures (a.OtherSelector? || b.OtherSelector?) && Pick(t, a).Ok? && Pick(t, b).Ok? ==> r == Err(UnboundLocalError)
    ensures r.Ok? ==> Some(r.value.0) == Pick(t, a).value && Some(r.value.1) == Pick(t, b).value
    ensures r.Ok? && r.value.0.Flat? ==> |r.value.0.cells| == t.Rows()
    ensures r.Ok? && r.value.1.Flat? ==> |r.value.1.cells| == t.Rows()
  {
    var ca :- Pick(t, a);
    var cb :- Pick(t, b);
    if ca.None? || cb.None? then Err(UnboundLocalError)
    else Ok((ca.value, cb.value))
  }

  /**
   * `calc_rqa` on two selections of the same frame. A block makes the
   * embedded points three-dimensional, which the distance computation
   * refuses with ValueError whatever the parameters; two single columns
   * go to `CalcOnCells`.
   */
  function CalcOnPicked(t: WfTable, xa: Picked, xb: Picked, p: RqaParams): (r: Result<RqaStats>)
    requires xa.Flat? ==> |xa.cells| == t.Rows()
    requires xb.Flat? ==> |xb.cells| == t.Rows()
    ensures xa.Wide? || xb.Wide? ==> r == Err(ValueError)
    ensures r.Ok? <==> xa.Flat? && xb.Flat? && CalcOnCells(xa.cells, xb.cells, p).Ok?
    ensures r.Ok? ==> r.value == CalcRqa(Reals(xa.cells), Reals(xb.cells), p.dim, p.tau, p.threshold, p.lmin, p.ln)
  {
    if xa.Wide? || xb.Wide? then Err(ValueError)
    else CalcOnCells(xa.cells, xb.cells, p)
  }

  /** `CrossRQAStats.process` (segment.py:177-225). */
  function CrossRqa(t: WfTable, a: Selector, b: Selector, p: RqaParams): (r: Result<WfTable>)
    ensures t.IsEmpty() ==> r == Ok(StatsTable([]))
    ensures !t.IsEmpty() && PickPair(t, a, b).Err? ==> r == Err(PickPair(t, a, b).error)
    ensures !t.IsEmpty() && PickPair(t, a, b).Ok? ==>
              var (xa, xb) := PickPair(t, a, b).value;
              (r.Ok? <==> CalcOnPicked(t, xa, xb, p).Ok?)
              && (r.Ok? ==> r.value == StatsTable([CalcOnPicked(t, xa, xb, p).value]))
  {
    if t.IsEmpty() then Ok(StatsTable([]))
    else
      var (xa, xb) :- PickPair(t, a, b);
      var stats :- CalcOnPicked(t, xa, xb, p);
      Ok(StatsTable([stats]))
  }

  /**
   * On a non-empty frame, cross-RQA succeeds exactly when both selectors
   * pick one column each, the embedding has points and every cell of
   * both columns is a number; it then holds the one row of `calc_rqa`.
   */
  lemma CrossRqaOk(t: WfTable, a: Selector, b: Selector, p: RqaParams)
    requires !t.IsEmpty()
    ensures CrossRqa(t, a, b, p).Ok? <==>
              PickPair(t, a, b).Ok? && PickPair(t, a, b).value.0.Flat? && PickPair(t, a, b).value.1.Flat?
              && EmbeddingFits(t.Rows(), p.dim, p.tau)
              && EmbeddedNumeric(PickPair(t, a, b).value.0.cells, p.dim, p.tau)
              && EmbeddedNumeric(PickPair(t, a, b).value.1.cells, p.dim, p.tau)
    ensures CrossRqa(t, a, b, p).Ok? ==>
              var (xa, xb) := PickPair(t, a, b).value;
              CrossRqa(t, a, b, p).value == StatsTable([CalcRqa(Reals(xa.cells), Reals(xb.cells), p.dim, p.tau, p.threshold, p.lmin, p.ln)])
  {
  }

  /** A label carried by two columns makes cross-RQA raise ValueError once the other selector resolves. */
  lemma RepeatedLabelRaises(t: WfTable, name: string, b: Selector, p: RqaParams)
    requires !t.IsEmpty()
    requires |ColumnsNamed(t.columns, name)| >= 2
    requires Pick(t, b).Ok? && !b.OtherSelector?
    ensures CrossRqa(t, ByName(name), b, p) == Err(ValueError)
  {
    assert SelectNamed(t, name) == Ok(Several(ColumnsNamed(t.columns, name)));
  }

  /** Cross-RQA of a column with itself is the auto-RQA of that column as a series. */
  lemma CrossWithItself(t: WfTable, c: int, p: RqaParams)
    requires !t.IsEmpty() && ColumnAt(t, c).Ok?
    ensures CrossRqa(t, ByPosition(c), ByPosition(c), p) == AutoRqa(Series(ColumnAt(t, c).value), p)
  {
  }

  /** Python's `range(start, stop, step)` for a non-zero step. */
  function PyRange(start: int, stop: int, step: int): (r: seq<int>)
    requires step != 0
    decreases if step > 0 then stop - start else start - stop
  {
    if step > 0 && start < stop then [start] + PyRange(start + step, stop, step)
    else if step < 0 && start > stop then [start] + PyRange(start + step, stop, step)
    else []
  }

  /**
   * With a positive step, range(start, stop, step) counts off start,
   * start + step, ... and stops at the first value not below stop.
   */
  lemma {:induction false} PyRangeUp(start: int, stop: int, step: int)
    requires step > 0
    ensures var r := PyRange(start, stop, step);
            (forall k | 0 <= k < |r| :: r[k] == start + k * step && r[k] < stop)
            && start + |r| * step >= stop
    decreases stop - start
  {
    var r := PyRange(start, stop, step);
    if start < stop {
      PyRangeUp(start + step, stop, step);
      var rest := PyRange(start + step, stop, step);
      assert r == [start] + rest;
      forall k | 0 <= k < |r|
        ensures r[k] == start + k * step && r[k] < stop
      {
        if k > 0 {
          assert r[k] == rest[k - 1] == start + step + (k - 1) * step;
        }
      }
      assert start + step + |rest| * step == start + |r| * step;
    }
  }

  /**
   * The window starts of `WindowedCrossRQAStats` (segment.py:282):
   * `range(0, n - window + 1, step)`; a zero step is a ValueError.
   */
  function WindowStarts(n: nat, window: int, step: int): (r: Result<seq<int>>)
    ensures r.Err? <==> step == 0
    ensures r.Err? ==> r.error == ValueError
    ensures r.Ok? ==> r.value == PyRange(0, n - window + 1, step)
  {
    if step == 0 then Err(ValueError) else Ok(PyRange(0, n - window + 1, step))
  }

  /**
   * With a positive step the windows start at 0, step, 2 step, ... : every
   * one of them fits in the n samples, and one more would not.
   */
  lemma WindowCount(n: nat, window: int, step: int)
    requires step > 0
    ensures WindowStarts(n, window, step).Ok?
    ensures var starts := WindowStarts(n, window, step).value;
            (forall k | 0 <= k < |starts| :: starts[k] == k * step && starts[k] + window <= n)
            && |starts| * step + window > n
  {
    PyRangeUp(0, n - window + 1, step);
  }

  /** `f` applied to each start in order, stopping at the first failure. */
  function Collect<T>(starts: seq<int>, f: int -> Result<T>): (r: Result<seq<T>>)
    ensures r.Ok? <==> forall k | 0 <= k < |starts| :: f(starts[k]).Ok?
    ensures r.Ok? ==> |r.value| == |starts| && forall k | 0 <= k < |starts| :: r.value[k] == f(starts[k]).value
    ensures r.Err? ==> exists k | 0 <= k < |starts| :: f(starts[k]) == Err(r.error)
    decreases |starts|
  {
    if starts == [] then Ok([])
    else
      match f(starts[0])
      case Err(e) => Err(e)
      case Ok(first) =>
        var rest := Collect(starts[1..], f);
        assert forall k | 1 <= k < |starts| :: starts[k] == starts[1..][k - 1];
        match rest
        case Err(e) => Err(e)
        case Ok(more) => Ok([first] + more)
  }

  /**
   * The statistics of the window `[w : w + window]` of both selections;
   * a window of a block is still a block, which `calc_rqa` refuses.
   */
  function WindowAt(xa: Picked, xb: Picked, window: int, p: RqaParams, w: int): Result<RqaStats> {
    match (xa, xb)
    case (Flat(ca), Flat(cb)) =>
      var sa := PySlice(ca, Some(w), Some(w + window));
      var sb := PySlice(cb, Some(w), Some(w + window));
      if |sa| == |sb| then CalcOnCells(sa, sb, p) else Err(ValueError)
    case _ => Err(ValueError)
  }

  function WindowStats(xa: Picked, xb: Picked, window: int, p: RqaParams): int -> Result<RqaStats> {
    w => WindowAt(xa, xb, window, p, w)
  }

  /** The rows of `WindowedCrossRQAStats.process` (segment.py:270-283), before they become a frame. */
  function WindowedRqaRows(t: WfTable, a: Selector, b: Selector, p: RqaParams, window: int, step: int): (r: Result<seq<RqaStats>>)
    ensures t.IsEmpty() ==> r == Ok([])
    ensures !t.IsEmpty() && PickPair(t, a, b).Err? ==> r == Err(PickPair(t, a, b).error)
    ensures !t.IsEmpty() && PickPair(t, a, b).Ok? && step == 0 ==> r == Err(ValueError)
    ensures !t.IsEmpty() && r.Ok? ==>
              PickPair(t, a, b).Ok? && WindowStarts(t.Rows(), window, step).Ok?
              && Collect(WindowStarts(t.Rows(), window, step).value,
                      WindowStats(PickPair(t, a, b).value.0, PickPair(t, a, b).value.1, window, p)) == r
  {
    if t.IsEmpty() then Ok([])
    else
      var (xa, xb) :- PickPair(t, a, b);
      var starts :- WindowStarts(t.Rows(), window, step);
      Collect(starts, WindowStats(xa, xb, window, p))
  }

  /** `WindowedCrossRQAStats.process` (segment.py:231-284): one row per window. */
  function WindowedCrossRqa(t: WfTable, a: Selector, b: Selector, p: RqaParams, window: int, step: int): (r: Result<WfTable>)
    ensures r.Ok? <==> WindowedRqaRows(t, a, b, p, window, step).Ok?
    ensures r.Err? ==> r.error == WindowedRqaRows(t, a, b, p, window, step).error
    ensures r.Ok? ==> r.value == StatsTable(WindowedRqaRows(t, a, b, p, window, step).value)
    ensures r.Ok? ==> r.value.Labels() == StatNames && r.value.index == RangeIndex(r.value.Rows())
  {
    var rows :- WindowedRqaRows(t, a, b, p, window, step);
    Ok(StatsTable(rows))
  }

  /**
   * With a positive step the frame has one row per window that fits: the
   * last window, at (rows - 1) step, ends inside the frame, and a window
   * one step further would not.
   */
  lemma WindowedRowsFit(t: WfTable, a: Selector, b: Selector, p: RqaParams, window: int, step: int)
    requires !t.IsEmpty() && step > 0
    requires WindowedCrossRqa(t, a, b, p, window, step).Ok?
    ensures var m := WindowedCrossRqa(t, a, b, p, window, step).value.Rows();
            (m > 0 ==> (m - 1) * step + window <= t.Rows()) && m * step + window > t.Rows()
  {
    WindowCount(t.Rows(), window, step);
    var starts := WindowStarts(t.Rows(), window, step).value;
    var rows := WindowedRqaRows(t, a, b, p, window, step).value;
    assert |rows| == |starts|;
    var m := |starts|;
    if m > 0 {
      assert starts[m - 1] == (m - 1) * step && starts[m - 1] + window <= t.Rows();
    }
  }

  /**
   * Cell (k, c) of the windowed frame is statistic c of `calc_rqa` on the
   * window [w, w + window) of both columns, w = k step.
   */
  lemma WindowedCell(t: WfTable, a: Selector, b: Selector, p: RqaParams, window: int, step: int, k: nat, c: nat)
    returns (w: nat)
    requires !t.IsEmpty() && step > 0 && window >= 0
    requires WindowedCrossRqa(t, a, b, p, window, step).Ok?
    requires k < WindowedCrossRqa(t, a, b, p, window, step).value.Rows() && c < 7
    ensures w == k * step && w + window <= t.Rows()
    ensures PickPair(t, a, b).Ok? && PickPair(t, a, b).value.0.Flat? && PickPair(t, a, b).value.1.Flat?
    ensures |PickPair(t, a, b).value.0.cells| == |PickPair(t, a, b).value.1.cells| == t.Rows()
    ensures var s := CalcOnCells(PickPair(t, a, b).value.0.cells[w..w + window],
                                 PickPair(t, a, b).value.1.cells[w..w + window], p);
            s.Ok? && WindowedCrossRqa(t, a, b, p, window, step).value.columns[c].cells[k] == Num(StatValues(s.value)[c])
  {
    w := WindowedRow(t, a, b, p, window, step, k);
  }

  /** A window longer than the frame leaves no window at all: the result is the empty frame. */
  lemma WindowTooLongIsEmpty(t: WfTable, a: Selector, b: Selector, p: RqaParams, window: int, step: int)
    requires PickPair(t, a, b).Ok? && step > 0 && window > t.Rows()
    ensures WindowedCrossRqa(t, a, b, p, window, step) == Ok(StatsTable([]))
  {
    WindowCount(t.Rows(), window, step);
  }

  /**
   * Row k of the windowed result is the statistics of the plain slice
   * [w, w + window) of both columns, where w = k step, and every such
   * window lies inside the frame; a result with a row at all means both
   * selectors picked one column each.
   */
  lemma WindowedRow(t: WfTable, a: Selector, b: Selector, p: RqaParams, window: int, step: int, k: nat)
    returns (w: nat)
    requires !t.IsEmpty() && step > 0 && window >= 0
    requires WindowedRqaRows(t, a, b, p, window, step).Ok?
    requires k < |WindowedRqaRows(t, a, b, p, window, step).value|
    ensures w == k * step && w + window <= t.Rows()
    ensures PickPair(t, a, b).Ok? && PickPair(t, a, b).value.0.Flat? && PickPair(t, a, b).value.1.Flat?
    ensures |PickPair(t, a, b).value.0.cells| == |PickPair(t, a, b).value.1.cells| == t.Rows()
    ensures CalcOnCells(PickPair(t, a, b).value.0.cells[w..w + window],
                        PickPair(t, a, b).value.1.cells[w..w + window], p)
              == Ok(WindowedRqaRows(t, a, b, p, window, step).value[k])
  {
    var start := WindowedRowAt(t, a, b, p, window, step, k);
    NonNegativeProduct(k, step);
    w := start;
    FlatWindow(PickPair(t, a, b).value.0, PickPair(t, a, b).value.1, window, p, w, t.Rows());
  }

  lemma NonNegativeProduct(a: nat, b: nat)
    ensures 0 <= a * b
  {
  }

  /** Row k of the windowed result is `WindowAt` of the k-th start, k step. */
  lemma WindowedRowAt(t: WfTable, a: Selector, b: Selector, p: RqaParams, window: int, step: int, k: nat)
    returns (w: int)
    requires !t.IsEmpty() && step > 0
    requires WindowedRqaRows(t, a, b, p, window, step).Ok?
    requires k < |WindowedRqaRows(t, a, b, p, window, step).value|
    ensures PickPair(t, a, b).Ok?
    ensures w == k * step && w + window <= t.Rows()
    ensures WindowAt(PickPair(t, a, b).value.0, PickPair(t, a, b).value.1, window, p, w)
              == Ok(WindowedRqaRows(t, a, b, p, window, step).value[k])
  {
    var rows := WindowedRqaRows(t, a, b, p, window, step).value;
    var xa, xb := PickPair(t, a, b).value.0, PickPair(t, a, b).value.1;
    WindowCount(t.Rows(), window, step);
    var starts := WindowStarts(t.Rows(), window, step).value;
    var f := WindowStats(xa, xb, window, p);
    assert Collect(starts, f) == Ok(rows);
    w := starts[k];
    assert f(w) == WindowAt(xa, xb, window, p, w);
  }

  /** A window that yields statistics is one of two single columns, and inside the frame it is their plain slice. */
  lemma FlatWindow(xa: Picked, xb: Picked, window: int, p: RqaParams, w: int, n: nat)
    requires WindowAt(xa, xb, window, p, w).Ok?
    requires xa.Flat? ==> |xa.cells| == n
    requires xb.Flat? ==> |xb.cells| == n
    requires 0 <= w && 0 <= window && w + window <= n
    ensures xa.Flat? && xb.Flat?
    ensures CalcOnCells(xa.cells[w..w + window], xb.cells[w..w + window], p) == WindowAt(xa, xb, window, p, w)
  {
    WindowSlice(xa.cells, xb.cells, window, p, w);
  }

  /**
   * A label carried by two columns makes the windowed segment raise
   * ValueError as soon as there is one window to analyse.
   */
  lemma WindowedRepeatedLabelRaises(t: WfTable, name: string, b: Selector, p: RqaParams, window: int, step: int)
    requires !t.IsEmpty() && step > 0 && window <= t.Rows()
    requires |ColumnsNamed(t.columns, name)| >= 2
    requires Pick(t, b).Ok? && !b.OtherSelector?
    ensures WindowedCrossRqa(t, ByName(name), b, p, window, step) == Err(ValueError)
  {
    assert SelectNamed(t, name) == Ok(Several(ColumnsNamed(t.columns, name)));
    WindowCount(t.Rows(), window, step);
    var starts := WindowStarts(t.Rows(), window, step).value;
    assert |starts| > 0;
  }


  /** A window inside the columns is their plain slice. */
  lemma WindowSlice(xa: seq<Cell>, xb: seq<Cell>, window: int, p: RqaParams, w: int)
    requires |xa| == |xb| && 0 <= w && 0 <= window && w + window <= |xa|
    ensures WindowAt(Flat(xa), Flat(xb), window, p, w) == CalcOnCells(xa[w..w + window], xb[w..w + window], p)
  {
    assert PySlice(xa, Some(w), Some(w + window)) == xa[w..w + window];
    assert PySlice(xb, Some(w), Some(w + window)) == xb[w..w + window];
  }

  /* ---------------------------------------------------------------- */
  /* The segments as pipeline steps                                    */
  /* ---------------------------------------------------------------- */

  /** The body of the auto-RQA segment: `x` is read from the keyword arguments. */
  function AutoRqaBody(p: RqaParams): Kwargs -> Result<Value> {
    (kw: Kwargs) => if "x" in kw then (match AutoRqa(kw["x"], p) case Ok(t) => Ok(Frame(t)) case Err(e) => Err(e))
          else Err(TypeError)
  }

  function WindowedBody(a: Selector, b: Selector, p: RqaParams, window: int, step: int): Kwargs -> Result<Value> {
    (kw: Kwargs) => if "x" in kw && kw["x"].Frame? then
            (match WindowedCrossRqa(kw["x"].table, a, b, p, window, step) case Ok(t) => Ok(Frame(t)) case Err(e) => Err(e))
          else Err(AttributeError)
  }

  /** `RQAStats` as a segment: univariate input, any-series output. */
  function AutoRqaSegment(name: string, id: Option<string>, uuid: string, p: RqaParams): (s: Segment)
    ensures s.input == UnivariateSeriesInput && s.output == AnySeriesOutput
  {
    MakeSegment(name, id, uuid, UnivariateSeriesInput, AnySeriesOutput, AutoRqaBody(p))
  }

  /** `WindowedCrossRQAStats` as a segment: multivariate input, any-series output. */
  function WindowedSegment(name: string, id: Option<string>, uuid: string, a: Selector, b: Selector,
                           p: RqaParams, window: int, step: int): (s: Segment)
    ensures s.input == MultivariateSeriesInput && s.output == AnySeriesOutput
  {
    MakeSegment(name, id, uuid, MultivariateSeriesInput, AnySeriesOutput, WindowedBody(a, b, p, window, step))
  }

  /**
   * A window longer than the frame passes the input gate but yields the
   * zero-row result, which the any-series output gate refuses: called as
   * a segment, it raises ValueError instead of returning an empty table.
   */
  lemma WindowTooLongRaises(name: string, id: Option<string>, uuid: string, a: Selector, b: Selector,
                            p: RqaParams, window: int, step: int, t: WfTable)
    requires t.Rows() >= 2 && t.Cols() >= 2 && step > 0 && window > t.Rows()
    requires PickPair(t, a, b).Ok?
    ensures Call(WindowedSegment(name, id, uuid, a, b, p, window, step), map["x" := Frame(t)]) == Err(ValueError)
  {
    WindowTooLongIsEmpty(t, a, b, p, window, step);
    var s := WindowedSegment(name, id, uuid, a, b, p, window, step);
    var kw := map["x" := Frame(t)];
    assert s.preprocess(kw) == kw;
    assert s.process(kw) == Ok(Frame(StatsTable([])));
    assert s.postprocess(Frame(StatsTable([]))) == Frame(StatsTable([]));
    assert ValidateOutput(AnySeriesOutput, Frame(StatsTable([]))) == Ok(false);
  }

  /** An empty series never reaches the auto-RQA body: the univariate gate wants two rows. */
  lemma AutoRqaEmptyRaises(name: string, id: Option<string>, uuid: string, p: RqaParams, col: string)
    ensures Call(AutoRqaSegment(name, id, uuid, p), map["x" := Series(Column(col, []))]) == Err(ValueError)
  {
  }
}
