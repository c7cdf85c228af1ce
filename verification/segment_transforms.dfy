/**
 * The column transforms and summaries of src/mopipe/segment.py:
 * `CalcShift`, which appends a lagged-difference column per selected
 * column, and the column dispatch of `ColMeans`.
 */
module Transforms {
  import opened Errors
  import opened Tables
  import opened SegmentIO
  import opened Inputs
  import opened Outputs
  import opened Seg
  import opened Util
  import opened Slicing

  /* ---------------------------------------------------------------- */
  /* CalcShift                                                         */
  /* ---------------------------------------------------------------- */

  /**
   * `np.concatenate((np.zeros(shift), d[shift:] - d[:-shift]))`
   * (segment.py:107). A negative shift is refused by `np.zeros`. A shift
   * of 0 makes `d[:-0]` empty, which broadcasts against `d` only when d
   * has at most one value, and leaves nothing to concatenate. A shift
   * beyond the column empties both slices, leaving `shift` zeros. Both
   * refusals are ValueErrors.
   */
  function ShiftDiff(xs: seq<real>, shift: int): (r: Result<seq<real>>)
    ensures r.Err? <==> shift < 0 || (shift == 0 && |xs| > 1)
    ensures r.Err? ==> r.error == ValueError
    ensures r.Ok? && shift == 0 ==> r.value == []
    ensures r.Ok? && shift > 0 ==> |r.value| == if shift <= |xs| then |xs| else shift
    ensures r.Ok? ==> forall i | 0 <= i < |r.value| :: r.value[i] == if i < shift then 0.0 else xs[i] - xs[i - shift]
  {
    if shift < 0 then Err(ValueError)
    else if shift == 0 then (if |xs| <= 1 then Ok([]) else Err(ValueError))
    else if shift > |xs| then Ok(seq(shift, _ => 0.0))
    else Ok(seq(shift, _ => 0.0) + seq(|xs| - shift, i requires 0 <= i < |xs| - shift => xs[i + shift] - xs[i]))
  }

  /** The differences have the column's length exactly when 0 < shift <= n, or when both are 0. */
  predicate ShiftFits(n: nat, shift: int) {
    0 < shift <= n || (shift == 0 && n == 0)
  }

  /** The differences fit the column iff `ShiftFits`. */
  lemma ShiftDiffFits(xs: seq<real>, shift: int)
    ensures (ShiftDiff(xs, shift).Ok? && |ShiftDiff(xs, shift).value| == |xs|) <==> ShiftFits(|xs|, shift)
  {
  }

  /**
   * The first n values recovered from the lagged differences d and the
   * first `shift` original values: each later value is its difference
   * plus the value `shift` places earlier.
   */
  function Unshift(d: seq<real>, head: seq<real>, shift: nat, n: nat): (r: seq<real>)
    requires 0 < shift <= |head| && n <= |d|
    ensures |r| == n
    decreases n
  {
    if n == 0 then []
    else
      var prev := Unshift(d, head, shift, n - 1);
      prev + [if n - 1 < shift then head[n - 1] else d[n - 1] + prev[n - 1 - shift]]
  }

  /** Any lagged differences of xs, with its first `shift` values, recover the first n values of xs. */
  lemma {:induction false} UnshiftRecovers(xs: seq<real>, d: seq<real>, shift: nat, n: nat)
    requires 0 < shift <= |xs| && n <= |xs| && |d| == |xs|
    requires forall i | shift <= i < |xs| :: d[i] == xs[i] - xs[i - shift]
    ensures Unshift(d, xs[..shift], shift, n) == xs[..n]
    decreases n
  {
    if n > 0 {
      UnshiftRecovers(xs, d, shift, n - 1);
      assert xs[..n] == xs[..n - 1] + [xs[n - 1]];
      if n - 1 < shift {
        assert xs[..shift][n - 1] == xs[n - 1];
      }
    }
  }

  /** The shifted differences lose nothing but the first `shift` values: they and d give back the column. */
  lemma UnshiftInverts(xs: seq<real>, shift: nat, n: nat)
    requires 0 < shift <= |xs| && n <= |xs|
    ensures Unshift(ShiftDiff(xs, shift).value, xs[..shift], shift, n) == xs[..n]
  {
    UnshiftRecovers(xs, ShiftDiff(xs, shift).value, shift, n);
  }

  /** The label of the difference column of `name`. */
  function ShiftName(name: string): (s: string)
    ensures |s| == |name| + 6 && s[..|name|] == name
  {
    name + "_shift"
  }

  /** The label selects exactly one column, and that column is numeric. */
  predicate NumericSingle(t: Table, name: string) {
    SelectNamed(t, name).Ok? && SelectNamed(t, name).value.Single? && IsNumeric(SelectNamed(t, name).value.column.cells)
  }

  /**
   * The difference column for one selected label, read from the current
   * frame (segment.py:96-108). An absent label is a KeyError. A repeated
   * label selects a two-dimensional block: the dtype test refuses it when
   * a column is text, and otherwise the concatenation of the
   * one-dimensional zeros with it does; both raise ValueError. The
   * assignment `x[new_col_name] = ...` then needs the differences to be
   * as long as the frame (ValueError otherwise), except that a frame
   * with no rows grows to their length (`GrowthError`).
   */
  function ShiftedColumn(t: WfTable, name: string, shift: int): (r: Result<Column>)
    ensures SelectNamed(t, name).Err? ==> r == Err(KeyError)
    ensures SelectNamed(t, name).Ok? && SelectNamed(t, name).value.Several? ==> r == Err(ValueError)
    ensures (SelectNamed(t, name).Ok? && SelectNamed(t, name).value.Single?
             && !IsNumeric(SelectNamed(t, name).value.column.cells)) ==> r == Err(ValueError)
    ensures r.Ok? <==> NumericSingle(t, name) && ShiftFits(t.Rows(), shift)
    ensures NumericSingle(t, name) && t.Rows() == 0 && shift > 0 ==> r == Err(GrowthError)
    ensures NumericSingle(t, name) && t.Rows() > 0 && !ShiftFits(t.Rows(), shift) ==> r == Err(ValueError)
    ensures r.Ok? ==> r.value.name == ShiftName(name) && |r.value.cells| == t.Rows()
    ensures r.Ok? ==> r.value.cells == Cells(ShiftDiff(Numbers(SelectNamed(t, name).value.column.cells), shift).value)
  {
    var sel :- SelectNamed(t, name);
    match sel
    case Several(_) => Err(ValueError)
    case Single(col) =>
      if !IsNumeric(col.cells) then Err(ValueError)
      else
        var d :- ShiftDiff(Numbers(col.cells), shift);
        if |d| == t.Rows() then Ok(Column(ShiftName(name), Cells(d)))
        else if t.Rows() == 0 then Err(GrowthError)
        else Err(ValueError)
  }

  /** Whether `name` is the difference label of one of `names`. */
  predicate IsShiftOf(name: string, names: seq<string>) {
    exists k | 0 <= k < |names| :: name == ShiftName(names[k])
  }

  /**
   * The loop of `CalcShift.process` (segment.py:95-109): each selected
   * label in turn, its difference column assigned into the frame as it
   * stands (replacing an existing column of that label, else appended).
   */
  function ShiftColumns(t: WfTable, names: seq<string>, shift: int): (r: Result<WfTable>)
    ensures names == [] ==> r == Ok(t)
    ensures r.Ok? ==> r.value.index == t.index && r.value.Cols() >= t.Cols()
    ensures r.Ok? ==> forall c | 0 <= c < t.Cols() && !IsShiftOf(t.columns[c].name, names) ::
                        r.value.columns[c] == t.columns[c]
    ensures r.Ok? ==> forall n | n in t.Labels() :: n in r.value.Labels()
    ensures r.Ok? ==> forall k | 0 <= k < |names| :: ShiftName(names[k]) in r.value.Labels()
    ensures names != [] && ShiftedColumn(t, names[0], shift).Err? ==> r == Err(ShiftedColumn(t, names[0], shift).error)
    decreases |names|
  {
    if names == [] then Ok(t)
    else
      var col :- ShiftedColumn(t, names[0], shift);
      var next: WfTable := SetColumn(t, col.name, col.cells);
      var r :- ShiftColumns(next, names[1..], shift);
      assert forall c | 0 <= c < t.Cols() && !IsShiftOf(t.columns[c].name, names) :: next.columns[c] == t.columns[c];
      assert forall k | 0 <= k < |names| :: ShiftName(names[k]) in r.Labels() by {
        forall k | 0 <= k < |names| ensures ShiftName(names[k]) in r.Labels() {
          if k > 0 {
            assert names[k] == names[1..][k - 1];
          } else {
            assert col.name in next.Labels();
          }
        }
      }
      Ok(r)
  }

  lemma ShiftedOk(t: WfTable, names: seq<string>, shift: int)
    requires 0 < shift <= t.Rows()
    requires forall k | 0 <= k < |names| :: NumericSingle(t, names[k])
    ensures forall k | 0 <= k < |names| :: ShiftedColumn(t, names[k], shift).Ok?
  {
  }

  lemma ShiftedColumnSame(t1: WfTable, t2: WfTable, name: string, shift: int)
    requires SelectNamed(t1, name) == SelectNamed(t2, name) && t1.Rows() == t2.Rows()
    ensures ShiftedColumn(t1, name, shift) == ShiftedColumn(t2, name, shift)
  {
  }

  /** `CalcShift.process`: every column when `cols` is None. */
  function CalcShift(t: WfTable, cols: Option<seq<string>>, shift: int): (r: Result<WfTable>)
    ensures r == ShiftColumns(t, match cols case Some(names) => names case None => t.Labels(), shift)
    ensures r.Ok? ==> r.value.Rows() == t.Rows()
  {
    ShiftColumns(t, match cols case Some(names) => names case None => t.Labels(), shift)
  }

  /** The difference columns of `names`, each read from `t` itself. */
  function ShiftedAll(t: WfTable, names: seq<string>, shift: int): (r: Result<seq<Column>>)
    ensures r.Ok? ==> |r.value| == |names|
    decreases |names|
  {
    if names == [] then Ok([])
    else
      var c :- ShiftedColumn(t, names[0], shift);
      var rest :- ShiftedAll(t, names[1..], shift);
      Ok([c] + rest)
  }

  /** Column k of ShiftedAll is the difference column of the k-th label. */
  lemma {:induction false} ShiftedAllAt(t: WfTable, names: seq<string>, shift: int)
    ensures ShiftedAll(t, names, shift).Ok? <==> forall k | 0 <= k < |names| :: ShiftedColumn(t, names[k], shift).Ok?
    ensures ShiftedAll(t, names, shift).Ok? ==>
              forall k | 0 <= k < |names| :: ShiftedAll(t, names, shift).value[k] == ShiftedColumn(t, names[k], shift).value
    decreases |names|
  {
    if names != [] {
      ShiftedAllAt(t, names[1..], shift);
      assert forall k | 1 <= k < |names| :: names[k] == names[1..][k - 1];
    }
  }

  /** ShiftedAll only looks at the selected columns. */
  lemma {:induction false} ShiftedAllSame(t1: WfTable, t2: WfTable, names: seq<string>, shift: int)
    requires t1.Rows() == t2.Rows()
    requires forall k | 0 <= k < |names| :: SelectNamed(t1, names[k]) == SelectNamed(t2, names[k])
    ensures ShiftedAll(t1, names, shift) == ShiftedAll(t2, names, shift)
    decreases |names|
  {
    if names != [] {
      assert forall k | 1 <= k < |names| :: names[k] == names[1..][k - 1];
      ShiftedAllSame(t1, t2, names[1..], shift);
      ShiftedColumnSame(t1, t2, names[0], shift);
    }
  }

  /** Whether the selected labels are distinct and none of their difference labels is taken yet. */
  predicate FreshShiftLabels(t: WfTable, names: seq<string>) {
    (forall j, k | 0 <= j < k < |names| :: names[j] != names[k])
    && (forall k, c | 0 <= k < |names| && 0 <= c < t.Cols() :: t.columns[c].name != ShiftName(names[k]))
  }

  /**
   * When every selected label names exactly one column, which is numeric,
   * no difference label is taken yet, and 0 < shift <= rows, `CalcShift`
   * keeps every column and appends exactly one difference column per
   * selected label, in order.
   */
  lemma {:induction false} ShiftAppends(t: WfTable, names: seq<string>, shift: int)
    requires 0 < shift <= t.Rows()
    requires forall k | 0 <= k < |names| :: NumericSingle(t, names[k])
    requires FreshShiftLabels(t, names)
    ensures ShiftedAll(t, names, shift).Ok?
    ensures ShiftColumns(t, names, shift) == Ok(Table(t.index, t.columns + ShiftedAll(t, names, shift).value))
    decreases |names|
  {
    if names != [] {
      var next := ShiftStep(t, names, shift);
      ShiftAppends(next, names[1..], shift);
      ShiftedAllSame(next, t, names[1..], shift);
      ShiftedAllCons(t, names, shift);
      AppendAssoc(t.columns, ShiftedColumn(t, names[0], shift).value, ShiftedAll(t, names[1..], shift).value);
    } else {
      assert t.columns + [] == t.columns;
    }
  }

  /** ShiftedAll of a non-empty selection, one label at a time. */
  lemma ShiftedAllCons(t: WfTable, names: seq<string>, shift: int)
    requires names != [] && ShiftedColumn(t, names[0], shift).Ok? && ShiftedAll(t, names[1..], shift).Ok?
    ensures ShiftedAll(t, names, shift) == Ok([ShiftedColumn(t, names[0], shift).value] + ShiftedAll(t, names[1..], shift).value)
  {
  }

  lemma AppendAssoc<T>(a: seq<T>, x: T, b: seq<T>)
    ensures (a + [x]) + b == a + ([x] + b)
  {
  }

  /** One turn of the loop under the freshness conditions: the column is appended and nothing read later changes. */
  lemma ShiftStep(t: WfTable, names: seq<string>, shift: int) returns (next: WfTable)
    requires names != [] && 0 < shift <= t.Rows()
    requires forall k | 0 <= k < |names| :: NumericSingle(t, names[k])
    requires FreshShiftLabels(t, names)
    ensures ShiftedColumn(t, names[0], shift).Ok?
    ensures next.index == t.index && next.columns == t.columns + [ShiftedColumn(t, names[0], shift).value]
    ensures forall k | 0 <= k < |names| :: SelectNamed(next, names[k]) == SelectNamed(t, names[k])
    ensures forall k | 0 <= k < |names[1..]| :: NumericSingle(next, names[1..][k])
    ensures FreshShiftLabels(next, names[1..])
    ensures ShiftColumns(t, names, shift) == ShiftColumns(next, names[1..], shift)
  {
    ShiftedOk(t, names, shift);
    var col := ShiftedColumn(t, names[0], shift).value;
    assert FindLabel(t.columns, col.name).None?;
    next := SetColumn(t, col.name, col.cells);
    assert next.columns == t.columns + [col];
    forall k | 0 <= k < |names|
      ensures SelectNamed(next, names[k]) == SelectNamed(t, names[k])
    {
      assert names[k] != col.name by {
        assert t.columns[FindLabel(t.columns, names[k]).value].name == names[k];
      }
      SetKeepsOthers(t, col.name, col.cells, names[k]);
    }
    assert forall k | 0 <= k < |names[1..]| :: names[1..][k] == names[k + 1];
    forall k, c | 0 <= k < |names[1..]| && 0 <= c < next.Cols()
      ensures next.columns[c].name != ShiftName(names[1..][k])
    {
      if c == t.Cols() {
        assert names[0] != names[k + 1];
      }
    }
  }

  /* ---------------------------------------------------------------- */
  /* ColMeans                                                          */
  /* ---------------------------------------------------------------- */

  /** The `col` argument of `ColMeans.process`. */
  datatype ColSelector =
    | ColPos(i: int)
    | ColName(name: string)
    | ColSlice(start: Bound, stop: Bound)
    | ColAll
    | ColOther

  /** `x.select_dtypes(include="number")`: the numeric columns, in order. */
  function NumericColumns(cs: seq<Column>): (r: seq<Column>)
    ensures forall k | 0 <= k < |r| :: r[k] in cs && IsNumeric(r[k].cells)
    ensures forall k | 0 <= k < |cs| :: IsNumeric(cs[k].cells) ==> cs[k] in r
    ensures |r| <= |cs|
    ensures (forall k | 0 <= k < |cs| :: IsNumeric(cs[k].cells)) ==> r == cs
  {
    if cs == [] then []
    else
      var rest := NumericColumns(cs[1..]);
      assert forall k | 1 <= k < |cs| :: cs[k] == cs[1..][k - 1];
      if IsNumeric(cs[0].cells) then [cs[0]] + rest else rest
  }

  /**
   * `x.loc(axis=1)[a:b]`: the columns from the left bound of label `a` to
   * the right bound of label `b` (step 1).
   */
  function LabelSlice(cs: seq<Column>, start: string, stop: string): (r: Result<seq<Column>>)
    ensures r.Ok? <==> LabelRange(NameKeys(cs), start, stop).Ok?
    ensures r.Err? ==> r.error == KeyError
    ensures r.Ok? ==> var (lo, hi) := LabelRange(NameKeys(cs), start, stop).value;
                      r.value == cs[lo..hi]
  {
    var (lo, hi) :- LabelRange(NameKeys(cs), start, stop);
    Ok(cs[lo..hi])
  }

  /**
   * When both bound labels occur once among the columns, the label slice
   * is the positional slice from the one column through the other.
   */
  lemma LabelSliceUnique(cs: seq<Column>, a: string, b: string, i: nat, j: nat)
    requires i < |cs| && cs[i].name == a && forall k | 0 <= k < |cs| && cs[k].name == a :: k == i
    requires j < |cs| && cs[j].name == b && forall k | 0 <= k < |cs| && cs[k].name == b :: k == j
    ensures LabelSlice(cs, a, b) == Ok(PySlice(cs, Some(i), Some(j + 1)))
  {
    var keys := NameKeys(cs);
    assert forall k | 0 <= k < |keys| && keys[k] == StrLabel(a) :: k == i by {
      forall k | 0 <= k < |keys| && keys[k] == StrLabel(a) ensures k == i {
        assert cs[k].name == a;
      }
    }
    assert forall k | 0 <= k < |keys| && keys[k] == StrLabel(b) :: k == j by {
      forall k | 0 <= k < |keys| && keys[k] == StrLabel(b) ensures k == j {
        assert cs[k].name == b;
      }
    }
    UniqueLabelRange(keys, a, b, i, j);
  }

  /** The mean of one column; text cannot be averaged (TypeError). */
  function MeanOf(c: Column, mean: seq<real> -> real): (r: Result<real>)
    ensures r.Ok? <==> IsNumeric(c.cells)
    ensures r.Err? ==> r.error == TypeError
    ensures r.Ok? ==> r.value == mean(Numbers(c.cells))
  {
    if IsNumeric(c.cells) then Ok(mean(Numbers(c.cells))) else Err(TypeError)
  }

  /** `DataFrame.mean()` over some columns: one mean per column, in order. */
  function MeansOf(cs: seq<Column>, mean: seq<real> -> real): (r: Result<seq<real>>)
    ensures r.Ok? <==> forall k | 0 <= k < |cs| :: IsNumeric(cs[k].cells)
    ensures r.Err? ==> r.error == TypeError
    ensures r.Ok? ==> |r.value| == |cs| && forall k | 0 <= k < |cs| :: r.value[k] == mean(Numbers(cs[k].cells))
  {
    if cs == [] then Ok([])
    else
      assert forall k | 1 <= k < |cs| :: cs[k] == cs[1..][k - 1];
      var m :- MeanOf(cs[0], mean);
      var rest :- MeansOf(cs[1..], mean);
      Ok([m] + rest)
  }

  /**
   * `ColMeans.process` (segment.py:39-71), the values of the returned
   * Series. An empty frame gives the empty Series. A slice selects by
   * position or by label as `int_or_str_slice` decides; an int selects
   * one column, whose mean becomes a one-value Series; a str selects
   * every column with that label, one mean each; None averages every
   * numeric column; any other selector is a ValueError.
   */
  function ColMeans(t: WfTable, sel: ColSelector, mean: seq<real> -> real): (r: Result<seq<real>>)
    ensures t.IsEmpty() ==> r == Ok([])
    ensures !t.IsEmpty() && sel.ColOther? ==> r == Err(ValueError)
    ensures !t.IsEmpty() && sel.ColAll? ==> r == MeansOf(NumericColumns(t.columns), mean) && r.Ok?
    ensures !t.IsEmpty() && sel.ColPos? ==>
              (r.Ok? <==> ColumnAt(t, sel.i).Ok? && IsNumeric(ColumnAt(t, sel.i).value.cells))
              && (r.Ok? ==> r.value == [mean(Numbers(ColumnAt(t, sel.i).value.cells))])
    ensures !t.IsEmpty() && sel.ColName? && SelectNamed(t, sel.name).Err? ==> r == Err(KeyError)
    ensures !t.IsEmpty() && sel.ColName? && SelectNamed(t, sel.name).Ok? && SelectNamed(t, sel.name).value.Single? ==>
              var c := SelectNamed(t, sel.name).value.column;
              (r.Ok? <==> IsNumeric(c.cells)) && (r.Ok? ==> r.value == [mean(Numbers(c.cells))])
    ensures !t.IsEmpty() && sel.ColName? && SelectNamed(t, sel.name).Ok? && SelectNamed(t, sel.name).value.Several? ==>
              r == MeansOf(ColumnsNamed(t.columns, sel.name), mean)
    ensures !t.IsEmpty() && sel.ColSlice? && sel.start.IntBound? && sel.stop.IntBound? ==>
              r == MeansOf(PySlice(t.columns, Some(sel.start.i), Some(sel.stop.i)), mean)
    ensures !t.IsEmpty() && sel.ColSlice? && sel.start.StrBound? && sel.stop.StrBound? ==>
              (LabelSlice(t.columns, sel.start.s, sel.stop.s).Err? ==> r == Err(KeyError))
              && (LabelSlice(t.columns, sel.start.s, sel.stop.s).Ok? ==>
                    r == MeansOf(LabelSlice(t.columns, sel.start.s, sel.stop.s).value, mean))
    ensures !t.IsEmpty() && sel.ColSlice? && IntOrStrSlice(sel.start, sel.stop).Err? ==> r == Err(ValueError)
  {
    if t.IsEmpty() then Ok([])
    else
      match sel
      case ColSlice(start, stop) =>
        var kind :- IntOrStrSlice(start, stop);
        (match kind
         case IntSlice => MeansOf(PySlice(t.columns, Some(start.i), Some(stop.i)), mean)
         case StrSlice =>
           var cs :- LabelSlice(t.columns, start.s, stop.s);
           MeansOf(cs, mean))
      case ColPos(i) =>
        var c :- ColumnAt(t, i);
        var m :- MeanOf(c, mean);
        Ok([m])
      case ColName(name) =>
        var picked :- SelectNamed(t, name);
        (match picked
         case Single(c) =>
           var m :- MeanOf(c, mean);
           Ok([m])
         case Several(cs) => MeansOf(cs, mean))
      case ColAll => MeansOf(NumericColumns(t.columns), mean)
      case ColOther => Err(ValueError)
  }

  /** When both bound labels occur once, the label slice averages the same columns as the positional one. */
  lemma LabelSliceMeans(t: WfTable, a: string, b: string, i: nat, j: nat, mean: seq<real> -> real)
    requires !t.IsEmpty()
    requires i < t.Cols() && t.columns[i].name == a && forall k | 0 <= k < t.Cols() && t.columns[k].name == a :: k == i
    requires j < t.Cols() && t.columns[j].name == b && forall k | 0 <= k < t.Cols() && t.columns[k].name == b :: k == j
    ensures ColMeans(t, ColSlice(StrBound(a), StrBound(b)), mean) == ColMeans(t, ColSlice(IntBound(i), IntBound(j + 1)), mean)
  {
    LabelSliceUnique(t.columns, a, b, i, j);
    StrSliceMeans(t, a, b, mean);
    IntSliceMeans(t, i, j + 1, mean);
  }

  lemma StrSliceMeans(t: WfTable, a: string, b: string, mean: seq<real> -> real)
    requires !t.IsEmpty() && LabelSlice(t.columns, a, b).Ok?
    ensures ColMeans(t, ColSlice(StrBound(a), StrBound(b)), mean) == MeansOf(LabelSlice(t.columns, a, b).value, mean)
  {
  }

  lemma IntSliceMeans(t: WfTable, i: int, j: int, mean: seq<real> -> real)
    requires !t.IsEmpty()
    ensures ColMeans(t, ColSlice(IntBound(i), IntBound(j)), mean) == MeansOf(PySlice(t.columns, Some(i), Some(j)), mean)
  {
  }

  /** On an all-numeric frame, None and the full positional slice give the same means. */
  lemma AllEqualsFullSlice(t: WfTable, mean: seq<real> -> real)
    requires !t.IsEmpty() && forall c | 0 <= c < t.Cols() :: IsNumeric(t.columns[c].cells)
    ensures ColMeans(t, ColAll, mean) == ColMeans(t, ColSlice(IntBound(0), IntBound(t.Cols())), mean)
  {
    assert PySlice(t.columns, Some(0), Some(t.Cols())) == t.columns;
  }

  /* ---------------------------------------------------------------- */
  /* The segments as pipeline steps                                    */
  /* ---------------------------------------------------------------- */

  function CalcShiftBody(cols: Option<seq<string>>, shift: int): Kwargs -> Result<Value> {
    (kw: Kwargs) => if "x" in kw && kw["x"].Frame? then
                      (match CalcShift(kw["x"].table, cols, shift) case Ok(t) => Ok(Frame(t)) case Err(e) => Err(e))
                    else Err(AttributeError)
  }

  /** `CalcShift` as a segment: multivariate input and output. */
  function CalcShiftSegment(name: string, id: Option<string>, uuid: string, cols: Option<seq<string>>, shift: int): (s: Segment)
    ensures s.input == MultivariateSeriesInput && s.output == MultivariateSeriesOutput
  {
    MakeSegment(name, id, uuid, MultivariateSeriesInput, MultivariateSeriesOutput, CalcShiftBody(cols, shift))
  }

  /** A successful shift keeps the rows and only adds columns, so the output gate accepts what the input gate did. */
  lemma CalcShiftCallSucceeds(name: string, id: Option<string>, uuid: string, cols: Option<seq<string>>, shift: int, t: WfTable)
    requires Multivariate(Frame(t)) && CalcShift(t, cols, shift).Ok?
    ensures Call(CalcShiftSegment(name, id, uuid, cols, shift), map["x" := Frame(t)]) == Ok(Frame(CalcShift(t, cols, shift).value))
  {
    var s := CalcShiftSegment(name, id, uuid, cols, shift);
    var kw := map["x" := Frame(t)];
    var out := Frame(CalcShift(t, cols, shift).value);
    assert s.process(kw) == Ok(out);
    DefaultHooksReturnProcessOutput(name, id, uuid, MultivariateSeriesInput, MultivariateSeriesOutput, CalcShiftBody(cols, shift), kw);
  }

  function ColMeansBody(sel: ColSelector, mean: seq<real> -> real): Kwargs -> Result<Value> {
    (kw: Kwargs) => if "x" in kw && kw["x"].Frame? then
                      (match ColMeans(kw["x"].table, sel, mean)
                       case Ok(ms) => Ok(Series(Column("", Cells(ms))))
                       case Err(e) => Err(e))
                    else Err(AttributeError)
  }

  /** `ColMeans` as a segment: multivariate input, univariate output. */
  function ColMeansSegment(name: string, id: Option<string>, uuid: string, sel: ColSelector, mean: seq<real> -> real): (s: Segment)
    ensures s.input == MultivariateSeriesInput && s.output == UnivariateSeriesOutput
  {
    MakeSegment(name, id, uuid, MultivariateSeriesInput, UnivariateSeriesOutput, ColMeansBody(sel, mean))
  }

  /**
   * A single selected column yields a one-value Series, which the
   * univariate output gate (two rows at least) refuses: called as a
   * segment, `ColMeans` with an int selector, or a str selector whose
   * label is not repeated, always raises.
   */
  lemma SingleColumnMeanRaises(name: string, id: Option<string>, uuid: string, sel: ColSelector,
                               mean: seq<real> -> real, t: WfTable)
    requires sel.ColPos? || (sel.ColName? && !(SelectNamed(t, sel.name).Ok? && SelectNamed(t, sel.name).value.Several?))
    requires Multivariate(Frame(t))
    ensures Call(ColMeansSegment(name, id, uuid, sel, mean), map["x" := Frame(t)]).Err?
  {
    var s := ColMeansSegment(name, id, uuid, sel, mean);
    var kw := map["x" := Frame(t)];
    assert s.preprocess(kw) == kw;
    match ColMeans(t, sel, mean)
    case Ok(ms) =>
      assert |ms| == 1;
      assert s.postprocess(Series(Column("", Cells(ms)))) == Series(Column("", Cells(ms)));
      assert ValidateOutput(UnivariateSeriesOutput, Series(Column("", Cells(ms)))) == Ok(false);
    case Err(e) =>
  }
}
