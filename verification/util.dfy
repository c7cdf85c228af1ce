/**
 * Identifier and slice helpers of src/mopipe/core/common/util.py. The
 * random part of a generated id (`uuid4()`) is a parameter.
 */
module Util {
  import opened Errors
  import opened Tables
  import opened Slicing

  /**
   * `maybe_generate_id` (util.py:12-40): a given id is returned verbatim;
   * otherwise the id is the uuid, preceded by `prefix_` and followed by
   * `_suffix` when those are given.
   */
  function MaybeGenerateId(id: Option<string>, prefix: Option<string>, suffix: Option<string>, uuid: string): (r: string)
    ensures id.Some? ==> r == id.value
    ensures id.None? ==> |r| == |uuid| + (if prefix.Some? then |prefix.value| + 1 else 0)
                                      + (if suffix.Some? then |suffix.value| + 1 else 0)
    ensures id.None? && prefix.Some? ==> r[..|prefix.value| + 1] == prefix.value + "_"
    ensures id.None? && suffix.Some? ==> r[|r| - |suffix.value| - 1..] == "_" + suffix.value
  {
    match id
    case Some(given) => given
    case None =>
      var pre := match prefix case Some(p) => p + "_" case None => "";
      var post := match suffix case Some(s) => "_" + s case None => "";
      assert (pre + uuid + post)[..|pre|] == pre;
      assert (pre + uuid + post)[|pre| + |uuid|..] == post;
      pre + uuid + post
  }

  /** The generated id is made of the prefix, the uuid and the suffix, in that order. */
  lemma GeneratedIdParts(prefix: string, uuid: string)
    ensures MaybeGenerateId(None, Some(prefix), None, uuid) == prefix + "_" + uuid
    ensures MaybeGenerateId(None, None, None, uuid) == uuid
  {
  }

  /** A slice bound as the caller wrote it. */
  datatype Bound = IntBound(i: int) | StrBound(s: string) | NoBound

  /** The kind of a slice whose bounds agree. */
  datatype SliceKind = IntSlice | StrSlice

  /**
   * `int_or_str_slice` (util.py:43-51): both bounds ints, or both
   * strings; anything else, a missing bound included, is a ValueError.
   */
  function IntOrStrSlice(start: Bound, stop: Bound): (r: Result<SliceKind>)
    ensures r == Ok(IntSlice) <==> start.IntBound? && stop.IntBound?
    ensures r == Ok(StrSlice) <==> start.StrBound? && stop.StrBound?
    ensures r.Err? ==> r.error == ValueError
  {
    if start.IntBound? && stop.IntBound? then Ok(IntSlice)
    else if start.StrBound? && stop.StrBound? then Ok(StrSlice)
    else Err(ValueError)
  }

  /** The rows [lo, hi) of a well-formed frame, index labels kept. */
  function Rows(t: Table, lo: nat, hi: nat): (r: Table)
    requires t.WellFormed() && lo <= hi <= t.Rows()
    ensures r.WellFormed() && r.Rows() == hi - lo && r.Cols() == t.Cols()
    ensures r.index == t.index[lo..hi]
    ensures forall c | 0 <= c < r.Cols() :: r.columns[c] == Column(t.columns[c].name, t.columns[c].cells[lo..hi])
  {
    Table(t.index[lo..hi], seq(|t.columns|, c requires 0 <= c < |t.columns| =>
      Column(t.columns[c].name, t.columns[c].cells[lo..hi])))
  }

  /**
   * `df_slice` (util.py:54-61): an int slice selects rows by position
   * (`iloc`), half open; a str slice selects rows by index label (`loc`),
   * from the start label's left bound to the stop label's right bound.
   */
  function DfSlice(t: Table, start: Bound, stop: Bound): (r: Result<Table>)
    requires t.WellFormed()
    ensures r.Ok? ==> r.value.WellFormed() && r.value.Cols() == t.Cols()
    ensures start.IntBound? && stop.IntBound? ==>
              var (lo, hi) := SliceRange(Some(start.i), Some(stop.i), t.Rows());
              r == Ok(Rows(t, lo, hi))
    ensures start.StrBound? && stop.StrBound? ==>
              (r.Ok? <==> LabelRange(t.index, start.s, stop.s).Ok?)
              && (r.Err? ==> r.error == KeyError)
              && (r.Ok? ==> var (lo, hi) := LabelRange(t.index, start.s, stop.s).value;
                            r.value == Rows(t, lo, hi))
    ensures IntOrStrSlice(start, stop).Err? ==> r == Err(ValueError)
  {
    var kind :- IntOrStrSlice(start, stop);
    match kind
    case IntSlice =>
      var (lo, hi) := SliceRange(Some(start.i), Some(stop.i), t.Rows());
      Ok(Rows(t, lo, hi))
    case StrSlice =>
      var (lo, hi) :- LabelRange(t.index, start.s, stop.s);
      Ok(Rows(t, lo, hi))
  }

  /**
   * When each bound label occurs once in the index, the label slice is
   * the positional slice from the start label's row through the stop
   * label's row, both included.
   */
  lemma DfSliceUniqueLabels(t: Table, a: string, b: string, i: nat, j: nat)
    requires t.WellFormed()
    requires i < t.Rows() && t.index[i] == StrLabel(a) && forall k | 0 <= k < t.Rows() && t.index[k] == StrLabel(a) :: k == i
    requires j < t.Rows() && t.index[j] == StrLabel(b) && forall k | 0 <= k < t.Rows() && t.index[k] == StrLabel(b) :: k == j
    ensures DfSlice(t, StrBound(a), StrBound(b)) == DfSlice(t, IntBound(i), IntBound(j + 1))
  {
    UniqueLabelRange(t.index, a, b, i, j);
  }

  /**
   * A label slice whose bound labels both occur keeps the rows from the
   * first occurrence of the start label through the last occurrence of
   * the stop label: a non-empty result starts and ends on those labels.
   */
  lemma DfSliceEnds(t: Table, a: string, b: string)
    requires t.WellFormed() && StrLabel(a) in t.index && StrLabel(b) in t.index
    requires DfSlice(t, StrBound(a), StrBound(b)).Ok?
    ensures var r := DfSlice(t, StrBound(a), StrBound(b)).value;
            r.Rows() > 0 ==> r.index[0] == StrLabel(a) && r.index[r.Rows() - 1] == StrLabel(b)
  {
    BoundsSpanOccurrences(t.index, a);
    BoundsSpanOccurrences(t.index, b);
    var lo := SliceBound(t.index, a, false).value;
    var hi := SliceBound(t.index, b, true).value;
    assert SliceBound(t.index, b, false).Ok?;
    var r := DfSlice(t, StrBound(a), StrBound(b)).value;
    if r.Rows() > 0 {
      assert t.index[lo] == StrLabel(a);
      assert t.index[hi - 1] == StrLabel(b);
    }
  }
}
