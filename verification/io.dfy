/**
 * The values that flow between pipeline segments, and the type and shape
 * predicates every input and output gate is built from
 * (`IOTypeBaseMixin`, src/mopipe/core/segments/io.py).
 */
module SegmentIO {
  import opened Errors
  import opened Tables

  /**
   * A Python value as far as the gates can tell them apart. `Scalar` is a
   * numpy number; `float64` records whether it is an `np.float64`, which
   * is also a Python `float`. `Items` is a list or tuple.
   */
  datatype Value =
    | Series(column: Column)
    | Frame(table: WfTable)
    | Int(i: int)
    | Float(r: real)
    | Str(s: string)
    | Scalar(r: real, float64: bool)
    | Items(items: seq<Value>)
    | NoneValue
    | Opaque

  /** `x.shape[0]` of a Series or a DataFrame. */
  function RowCount(v: Value): nat
    requires v.Series? || v.Frame?
  {
    if v.Series? then |v.column.cells| else v.table.Rows()
  }

  /** `_validate_series_or_dataframe` (io.py:42-46). */
  predicate SeriesOrFrame(v: Value) {
    v.Series? || v.Frame?
  }

  /** `_validate_single_value` (io.py:48-52): an int, float or str. */
  function SingleValue(v: Value): (ok: bool)
    ensures ok <==> v.Int? || v.Float? || v.Str? || (v.Scalar? && v.float64)
  {
    match v
    case Int(_) => true
    case Float(_) => true
    case Str(_) => true
    case Scalar(_, f) => f
    case _ => false
  }

  /** `_validate_multiple_values` (io.py:54-59): a `typing.Sequence` of length > 1 (a str is one). */
  function MultipleValues(v: Value): (ok: bool)
    ensures ok <==> (v.Items? && |v.items| > 1) || (v.Str? && |v.s| > 1)
    ensures ok ==> !v.Series? && !v.Frame?
  {
    match v
    case Items(xs) => |xs| > 1
    case Str(s) => |s| > 1
    case _ => false
  }

  /** `_validate_single_numeric_value` (io.py:61-65): an int, float or numpy number. */
  function SingleNumericValue(v: Value): (ok: bool)
    ensures ok <==> v.Int? || v.Float? || v.Scalar?
  {
    v.Int? || v.Float? || v.Scalar?
  }

  /** `_validate_any_numeric` (io.py:74-84): a number, or a Series/DataFrame with only numeric columns. */
  function AnyNumeric(v: Value): (ok: bool)
    ensures v.Series? ==> (ok <==> IsNumeric(v.column.cells))
    ensures v.Frame? ==> (ok <==> forall c | 0 <= c < v.table.Cols() :: IsNumeric(v.table.columns[c].cells))
    ensures ok && !v.Series? && !v.Frame? ==> v.Int? || v.Float? || (v.Scalar? && v.float64)
  {
    match v
    case Int(_) => true
    case Float(_) => true
    case Scalar(_, f) => f
    case Series(c) => IsNumeric(c.cells)
    case Frame(t) => forall c | 0 <= c < t.Cols() :: IsNumeric(t.columns[c].cells)
    case _ => false
  }

  /** `_validate_any` (io.py:86-88). */
  function AnyValue(v: Value): (ok: bool)
    ensures ok
  {
    true
  }

  /**
   * `_validate_shape` (io.py:90-110). A missing maximum (`None`, i.e.
   * `math.inf`) is unbounded. A 1-D value passes only when colMax is
   * exactly 1, whatever colMin says; a 2-D value needs its column count
   * within [colMin, colMax]. Both need the row count within bounds.
   */
  function ValidateShape(v: Value, rowMin: int, colMin: int, rowMax: Option<int>, colMax: Option<int>): (ok: bool)
    requires SeriesOrFrame(v)
    ensures v.Series? ==>
              (ok <==> rowMin <= RowCount(v) && WithinMax(RowCount(v), rowMax) && colMax == Some(1))
    ensures v.Frame? ==>
              (ok <==> rowMin <= RowCount(v) && WithinMax(RowCount(v), rowMax)
                       && colMin <= v.table.Cols() && WithinMax(v.table.Cols(), colMax))
  {
    var rows := RowCount(v);
    if rowMin <= rows && WithinMax(rows, rowMax) then
      if colMax == Some(1) && v.Series? then true
      else if v.Series? then false
      else colMin <= v.table.Cols() && WithinMax(v.table.Cols(), colMax)
    else false
  }

  /** `n <= max`, with `None` standing for `math.inf`. */
  predicate WithinMax(n: int, max: Option<int>) {
    match max
    case Some(m) => n <= m
    case None => true
  }

  /**
   * `_validate_any_series` (io.py:67-72). Because the shape check leaves
   * colMax unbounded, no 1-D Series ever passes; a DataFrame passes with
   * at least one row and one column.
   */
  function AnySeries(v: Value): (ok: bool)
    ensures v.Series? ==> !ok
    ensures ok <==> v.Frame? && v.table.Rows() >= 1 && v.table.Cols() >= 1
  {
    SeriesOrFrame(v) && ValidateShape(v, 1, 1, None, None)
  }

  /** The shape a univariate gate asks for (inputs.py:40, outputs.py:32). */
  function Univariate(v: Value): (ok: bool)
    ensures ok <==> (v.Series? && |v.column.cells| >= 2)
                    || (v.Frame? && v.table.Rows() >= 2 && v.table.Cols() == 1)
  {
    SeriesOrFrame(v) && ValidateShape(v, 2, 1, None, Some(1))
  }

  /** The shape a multivariate gate asks for (inputs.py:56, outputs.py:46). */
  function Multivariate(v: Value): (ok: bool)
    ensures ok <==> v.Frame? && v.table.Rows() >= 2 && v.table.Cols() >= 2
  {
    SeriesOrFrame(v) && ValidateShape(v, 2, 2, None, None)
  }
}
