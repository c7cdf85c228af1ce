/**
 * The part of pandas the modelled code relies on: labelled columns of
 * cells, frames with a row index, and Python's rules for normalising a
 * positional index or a slice.
 */
module Tables {
  import opened Errors

  /** One cell of a column: a number (any numeric dtype) or a string. */
  datatype Cell = Num(x: real) | Txt(s: string)

  /** A row-index label. */
  datatype Label = NumLabel(r: real) | StrLabel(s: string)

  /** A labelled column; it is numeric when every cell is a number. */
  datatype Column = Column(name: string, cells: seq<Cell>)

  predicate IsNumeric(cells: seq<Cell>) {
    forall i | 0 <= i < |cells| :: cells[i].Num?
  }

  /** The numbers of a numeric column, in order. */
  function Numbers(cells: seq<Cell>): (xs: seq<real>)
    requires IsNumeric(cells)
    ensures |xs| == |cells|
    ensures forall i | 0 <= i < |xs| :: cells[i] == Num(xs[i])
  {
    if cells == [] then [] else [cells[0].x] + Numbers(cells[1..])
  }

  function Cells(xs: seq<real>): (cells: seq<Cell>)
    ensures |cells| == |xs| && IsNumeric(cells)
    ensures Numbers(cells) == xs
  {
    var cells := seq(|xs|, i requires 0 <= i < |xs| => Num(xs[i]));
    assert Numbers(cells) == xs by {
      var ns := Numbers(cells);
      assert forall i | 0 <= i < |xs| :: ns[i] == xs[i] by {
        forall i | 0 <= i < |xs| ensures ns[i] == xs[i] {
          assert cells[i] == Num(ns[i]);
        }
      }
    }
    cells
  }

  /**
   * The numbers of a column that may hold text: each number in place,
   * and 0 for a text cell. It is used only where the text cells are
   * never read, so the 0 stands for nothing.
   */
  function Reals(cells: seq<Cell>): (xs: seq<real>)
    ensures |xs| == |cells|
    ensures forall i | 0 <= i < |cells| && cells[i].Num? :: xs[i] == cells[i].x
    ensures IsNumeric(cells) ==> xs == Numbers(cells)
  {
    var xs := seq(|cells|, i requires 0 <= i < |cells| => if cells[i].Num? then cells[i].x else 0.0);
    assert IsNumeric(cells) ==> xs == Numbers(cells) by {
      if IsNumeric(cells) {
        var ns := Numbers(cells);
        assert forall i | 0 <= i < |xs| :: xs[i] == ns[i];
      }
    }
    xs
  }

  /** A frame: a row index and a sequence of columns. */
  datatype Table = Table(index: seq<Label>, columns: seq<Column>) {

    /** Every column has one cell per index label. */
    predicate WellFormed() {
      forall c | 0 <= c < |columns| :: |columns[c].cells| == |index|
    }

    function Rows(): nat {
      |index|
    }

    function Cols(): nat {
      |columns|
    }

    /** `DataFrame.empty`: no rows or no columns. */
    predicate IsEmpty() {
      |index| == 0 || |columns| == 0
    }

    function Labels(): (ls: seq<string>)
      ensures |ls| == |columns|
      ensures forall c | 0 <= c < |ls| :: ls[c] == columns[c].name
    {
      seq(|columns|, c requires 0 <= c < |columns| => columns[c].name)
    }
  }

  /** A frame as pandas builds it: every column as long as the index. */
  type WfTable = t: Table | t.WellFormed() witness Table([], [])

  /** The default index 0, 1, ..., n-1. */
  function RangeIndex(n: nat): (ix: seq<Label>)
    ensures |ix| == n
    ensures forall i | 0 <= i < n :: ix[i] == NumLabel(i as real)
  {
    seq(n, i requires 0 <= i < n => NumLabel(i as real))
  }

  /**
   * A Python position on a sequence of length len: negative positions
   * count from the end; anything outside [-len, len) is an IndexError.
   */
  function PyIndex(i: int, len: nat): (r: Result<nat>)
    ensures r.Ok? <==> 0 <= i + len && i < len
    ensures r.Ok? ==> r.value < len && (r.value == i || r.value == i + len)
  {
    if 0 <= i < len then Ok(i)
    else if 0 <= i + len && i < 0 then Ok(i + len)
    else Err(IndexError)
  }

  /** A slice bound normalised against len, as `slice.indices` does for step 1. */
  function ClampIndex(i: int, len: nat): (k: nat)
    ensures k <= len
    ensures 0 <= i <= len ==> k == i
    ensures i < 0 && 0 <= i + len ==> k == i + len
  {
    if i < 0 then (if i + len < 0 then 0 else i + len)
    else if i > len then len
    else i
  }

  /** The half-open range `[lo, hi)` a step-1 slice `[start:stop]` selects. */
  function SliceRange(start: Option<int>, stop: Option<int>, len: nat): (r: (nat, nat))
    ensures r.0 <= r.1 <= len
  {
    var lo := match start case Some(i) => ClampIndex(i, len) case None => 0;
    var hi := match stop case Some(i) => ClampIndex(i, len) case None => len;
    if lo <= hi then (lo, hi) else (lo, lo)
  }

  /** `s[start:stop]` with Python's slice semantics (step 1). */
  function PySlice<T>(s: seq<T>, start: Option<int>, stop: Option<int>): (r: seq<T>)
    ensures |r| <= |s|
    ensures var (lo, hi) := SliceRange(start, stop, |s|);
            r == s[lo..hi]
  {
    var (lo, hi) := SliceRange(start, stop, |s|);
    s[lo..hi]
  }

  /** Position of the first column labelled `name`, if any. */
  function FindLabel(columns: seq<Column>, name: string): (r: Option<nat>)
    ensures r.Some? ==> r.value < |columns| && columns[r.value].name == name
    ensures r.Some? ==> forall c | 0 <= c < r.value :: columns[c].name != name
    ensures r.None? ==> forall c | 0 <= c < |columns| :: columns[c].name != name
  {
    if columns == [] then None
    else if columns[0].name == name then Some(0)
    else match FindLabel(columns[1..], name)
      case Some(c) => Some(c + 1)
      case None => None
  }

  /** `df.iloc[:, i]`: the column at a Python position. */
  function ColumnAt(t: Table, i: int): (r: Result<Column>)
    ensures r.Ok? <==> 0 <= i + t.Cols() && i < t.Cols()
    ensures r.Err? ==> r.error == IndexError
    ensures r.Ok? ==> r.value == t.columns[if i < 0 then i + t.Cols() else i]
    ensures r.Ok? && t.WellFormed() ==> |r.value.cells| == t.Rows()
  {
    var k :- PyIndex(i, t.Cols());
    Ok(t.columns[k])
  }

  /** Every column labelled `name`, in order: the columns `df.loc[:, name]` selects. */
  function ColumnsNamed(columns: seq<Column>, name: string): (r: seq<Column>)
    ensures |r| <= |columns|
    ensures forall k | 0 <= k < |r| :: r[k].name == name
    ensures r == [] <==> FindLabel(columns, name).None?
    ensures r != [] ==> r[0] == columns[FindLabel(columns, name).value]
  {
    if columns == [] then []
    else
      var rest := ColumnsNamed(columns[1..], name);
      assert forall c | 1 <= c < |columns| :: columns[c] == columns[1..][c - 1];
      if columns[0].name == name then [columns[0]] + rest else rest
  }

  /** The selection holds columns of the frame only, and every column that carries the label. */
  lemma {:induction false} ColumnsNamedMembers(columns: seq<Column>, name: string)
    ensures forall k | 0 <= k < |ColumnsNamed(columns, name)| :: ColumnsNamed(columns, name)[k] in columns
    ensures forall c | 0 <= c < |columns| && columns[c].name == name :: columns[c] in ColumnsNamed(columns, name)
  {
    if columns != [] {
      ColumnsNamedMembers(columns[1..], name);
      assert forall c | 1 <= c < |columns| :: columns[c] == columns[1..][c - 1];
    }
  }

  /** One column is selected exactly when no column after the first one carries the label too. */
  lemma {:induction false} SingleIffUnique(columns: seq<Column>, name: string)
    requires FindLabel(columns, name).Some?
    ensures |ColumnsNamed(columns, name)| == 1 <==>
              forall c | 0 <= c < |columns| && columns[c].name == name :: c == FindLabel(columns, name).value
  {
    var rest := columns[1..];
    assert forall c | 1 <= c < |columns| :: columns[c] == rest[c - 1];
    if columns[0].name != name {
      SingleIffUnique(rest, name);
    }
  }

  /**
   * What `df[name]` and `df.loc[:, name]` give: the column itself (a
   * Series) when one column carries the label, else the frame of all the
   * columns that carry it.
   */
  datatype Selection = Single(column: Column) | Several(columns: seq<Column>)

  /** The selection of a label; an absent label is a KeyError. */
  function SelectNamed(t: Table, name: string): (r: Result<Selection>)
    ensures r.Ok? <==> exists c | 0 <= c < t.Cols() :: t.columns[c].name == name
    ensures r.Ok? <==> FindLabel(t.columns, name).Some?
    ensures r.Err? ==> r.error == KeyError
    ensures r.Ok? ==> (r.value.Single? <==>
                         forall c | 0 <= c < t.Cols() && t.columns[c].name == name :: c == FindLabel(t.columns, name).value)
    ensures r.Ok? && r.value.Single? ==> r.value.column == t.columns[FindLabel(t.columns, name).value]
    ensures r.Ok? && r.value.Several? ==> r.value.columns == ColumnsNamed(t.columns, name) && |r.value.columns| >= 2
  {
    var cs := ColumnsNamed(t.columns, name);
    if cs == [] then Err(KeyError)
    else
      SingleIffUnique(t.columns, name);
      if |cs| == 1 then Ok(Single(cs[0])) else Ok(Several(cs))
  }

  /** Every selected column of a well-formed frame has one cell per row. */
  lemma SelectedRows(t: Table, name: string)
    requires t.WellFormed()
    ensures forall k | 0 <= k < |ColumnsNamed(t.columns, name)| :: |ColumnsNamed(t.columns, name)[k].cells| == t.Rows()
  {
    ColumnsNamedMembers(t.columns, name);
  }

  /** The first n rows of a well-formed frame, re-indexed 0..n-1 (`iloc[:n].reset_index(drop=True)`). */
  function Head(t: Table, n: nat): (r: Table)
    requires t.WellFormed() && n <= t.Rows()
    ensures r.WellFormed() && r.Rows() == n && r.Cols() == t.Cols()
    ensures r.index == RangeIndex(n)
    ensures forall c | 0 <= c < r.Cols() :: r.columns[c] == Column(t.columns[c].name, t.columns[c].cells[..n])
  {
    Table(RangeIndex(n), seq(|t.columns|, c requires 0 <= c < |t.columns| =>
      Column(t.columns[c].name, t.columns[c].cells[..n])))
  }

  /** The columns with every column labelled `name` given the cells `cells`. */
  function ReplaceNamed(columns: seq<Column>, name: string, cells: seq<Cell>): (r: seq<Column>)
    ensures |r| == |columns|
    ensures forall c | 0 <= c < |r| :: r[c] == if columns[c].name == name then Column(name, cells) else columns[c]
  {
    seq(|columns|, c requires 0 <= c < |columns| => if columns[c].name == name then Column(name, cells) else columns[c])
  }

  /**
   * Assigning a column by name (`df[name] = cells`): every column with
   * that label receives the cells (pandas repeats a one-dimensional value
   * across a repeated label), otherwise the column is appended at the end.
   */
  function SetColumn(t: Table, name: string, cells: seq<Cell>): (r: Table)
    ensures r.index == t.index
    ensures t.WellFormed() && |cells| == t.Rows() ==> r.WellFormed()
    ensures FindLabel(r.columns, name).Some?
    ensures name in r.Labels() && forall n | n in t.Labels() :: n in r.Labels()
    ensures FindLabel(t.columns, name).None? ==> r.columns == t.columns + [Column(name, cells)]
    ensures FindLabel(t.columns, name).Some? ==> r.columns == ReplaceNamed(t.columns, name, cells) && r.Labels() == t.Labels()
  {
    match FindLabel(t.columns, name)
    case Some(c) =>
      var r := t.(columns := ReplaceNamed(t.columns, name, cells));
      assert r.columns[c].name == name;
      assert r.Labels() == t.Labels();
      r
    case None =>
      var r := t.(columns := t.columns + [Column(name, cells)]);
      assert r.columns[|t.columns|].name == name;
      assert r.Labels() == t.Labels() + [name];
      r
  }

  /** Replacing the columns of one label leaves the selection of every other label as it was. */
  lemma {:induction false} ColumnsNamedReplace(columns: seq<Column>, name: string, cells: seq<Cell>, other: string)
    requires other != name
    ensures ColumnsNamed(ReplaceNamed(columns, name, cells), other) == ColumnsNamed(columns, other)
  {
    if columns != [] {
      var r := ReplaceNamed(columns, name, cells);
      assert r[1..] == ReplaceNamed(columns[1..], name, cells);
      ColumnsNamedReplace(columns[1..], name, cells, other);
    }
  }

  /** Appending a column extends a selection by that column exactly when it carries the label. */
  lemma {:induction false} ColumnsNamedAppend(columns: seq<Column>, extra: Column, name: string)
    ensures ColumnsNamed(columns + [extra], name) == ColumnsNamed(columns, name) + (if extra.name == name then [extra] else [])
  {
    if columns != [] {
      assert (columns + [extra])[1..] == columns[1..] + [extra];
      ColumnsNamedAppend(columns[1..], extra, name);
    } else {
      assert [extra][1..] == [];
    }
  }

  /** Reading a label back after assigning it gives the assigned cells in every selected column. */
  lemma SetReadsBack(t: Table, name: string, cells: seq<Cell>)
    ensures var r := SetColumn(t, name, cells);
            SelectNamed(r, name).Ok?
            && (forall k | 0 <= k < |ColumnsNamed(r.columns, name)| :: ColumnsNamed(r.columns, name)[k] == Column(name, cells))
            && (FindLabel(t.columns, name).None? ==> SelectNamed(r, name) == Ok(Single(Column(name, cells))))
  {
    var r := SetColumn(t, name, cells);
    var sel := ColumnsNamed(r.columns, name);
    ColumnsNamedMembers(r.columns, name);
    forall k | 0 <= k < |sel| ensures sel[k] == Column(name, cells) {
      var c :| 0 <= c < |r.columns| && r.columns[c] == sel[k];
    }
    if FindLabel(t.columns, name).None? {
      ColumnsNamedAppend(t.columns, Column(name, cells), name);
      assert sel == [Column(name, cells)];
    }
  }

  /** Assigning one label leaves the selection of every other label as it was. */
  lemma SetKeepsOthers(t: Table, name: string, cells: seq<Cell>, other: string)
    requires other != name
    ensures ColumnsNamed(SetColumn(t, name, cells).columns, other) == ColumnsNamed(t.columns, other)
    ensures SelectNamed(SetColumn(t, name, cells), other) == SelectNamed(t, other)
  {
    match FindLabel(t.columns, name)
    case Some(_) => ColumnsNamedReplace(t.columns, name, cells, other);
    case None => ColumnsNamedAppend(t.columns, Column(name, cells), other);
  }

  /** Appending a column does not change where an existing label is first found. */
  lemma {:induction false} FindLabelAppend(columns: seq<Column>, extra: Column, name: string)
    ensures FindLabel(columns, name).Some? ==> FindLabel(columns + [extra], name) == FindLabel(columns, name)
    ensures FindLabel(columns, name).None? && extra.name != name ==> FindLabel(columns + [extra], name).None?
  {
    if columns != [] {
      assert (columns + [extra])[1..] == columns[1..] + [extra];
      FindLabelAppend(columns[1..], extra, name);
    }
  }
}
