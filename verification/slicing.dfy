/**
 * Label-based slicing of a pandas index with string labels
 * (`Index.slice_locs` and `Index.get_slice_bound`): where a label bound
 * falls in a sequence of index labels. A label that occurs bounds the
 * slice at its occurrences, which must be contiguous; an absent label is
 * placed by binary search when the index is sorted either way, and is a
 * KeyError otherwise. Strings compare as Python compares them.
 */
module Slicing {
  import opened Errors
  import opened Tables

  /* ---------------------------------------------------------------- */
  /* Python's string order                                             */
  /* ---------------------------------------------------------------- */

  /** Python's `<` on strings: code points compared left to right, a proper prefix first. */
  predicate StrLess(a: string, b: string)
    decreases |a|
  {
    if a == [] then b != []
    else if b == [] then false
    else if a[0] != b[0] then a[0] < b[0]
    else StrLess(a[1..], b[1..])
  }

  lemma {:induction false} StrLessAsym(a: string, b: string)
    ensures !(StrLess(a, b) && StrLess(b, a))
    decreases |a|
  {
    if a != [] && b != [] && a[0] == b[0] {
      StrLessAsym(a[1..], b[1..]);
    }
  }

  lemma {:induction false} StrLessTotal(a: string, b: string)
    requires a != b
    ensures StrLess(a, b) || StrLess(b, a)
    decreases |a|
  {
    if a != [] && b != [] && a[0] == b[0] {
      assert a == [a[0]] + a[1..] && b == [b[0]] + b[1..];
      StrLessTotal(a[1..], b[1..]);
    }
  }

  lemma {:induction false} StrLessTrans(a: string, b: string, c: string)
    requires StrLess(a, b) && StrLess(b, c)
    ensures StrLess(a, c)
    decreases |a|
  {
    if a != [] && a[0] == b[0] && b[0] == c[0] {
      StrLessTrans(a[1..], b[1..], c[1..]);
    }
  }

  /** Two distinct strings: exactly one sorts first. */
  lemma Trichotomy(a: string, b: string)
    requires a != b
    ensures StrLess(a, b) != StrLess(b, a)
  {
    StrLessAsym(a, b);
    StrLessTotal(a, b);
  }

  /* ---------------------------------------------------------------- */
  /* Occurrences and order of an index                                 */
  /* ---------------------------------------------------------------- */

  /** The first position of the label `s`, if any. */
  function FirstKey(keys: seq<Label>, s: string): (r: Option<nat>)
    ensures r.Some? ==> r.value < |keys| && keys[r.value] == StrLabel(s)
    ensures r.Some? ==> forall i | 0 <= i < r.value :: keys[i] != StrLabel(s)
    ensures r.None? <==> StrLabel(s) !in keys
  {
    if keys == [] then None
    else if keys[0] == StrLabel(s) then Some(0)
    else
      assert forall i | 1 <= i < |keys| :: keys[i] == keys[1..][i - 1];
      match FirstKey(keys[1..], s)
      case Some(i) => Some(i + 1)
      case None => None
  }

  /** The last position of the label `s`, if any. */
  function LastKey(keys: seq<Label>, s: string): (r: Option<nat>)
    ensures r.Some? ==> r.value < |keys| && keys[r.value] == StrLabel(s)
    ensures r.Some? ==> forall i | r.value < i < |keys| :: keys[i] != StrLabel(s)
    ensures r.None? <==> StrLabel(s) !in keys
  {
    if keys == [] then None
    else if keys[|keys| - 1] == StrLabel(s) then Some(|keys| - 1)
    else
      var init := keys[..|keys| - 1];
      assert keys == init + [keys[|keys| - 1]];
      LastKey(init, s)
  }

  /** Every label is a string (labels of different kinds do not compare, so such an index is not sorted). */
  predicate AllStrings(keys: seq<Label>) {
    forall i | 0 <= i < |keys| :: keys[i].StrLabel?
  }

  /** `is_monotonic_increasing`: no label sorts below a label on its left. */
  predicate Increasing(keys: seq<Label>) {
    AllStrings(keys) && forall i, j | 0 <= i < j < |keys| :: !StrLess(keys[j].s, keys[i].s)
  }

  /** `is_monotonic_decreasing`: no label sorts above a label on its left. */
  predicate Decreasing(keys: seq<Label>) {
    AllStrings(keys) && forall i, j | 0 <= i < j < |keys| :: !StrLess(keys[i].s, keys[j].s)
  }

  /** The number of labels that sort below `s`: `searchsorted(s)` on an increasing index without `s`. */
  function CountLess(keys: seq<Label>, s: string): (n: nat)
    ensures n <= |keys|
  {
    if keys == [] then 0
    else (if keys[0].StrLabel? && StrLess(keys[0].s, s) then 1 else 0) + CountLess(keys[1..], s)
  }

  /**
   * The number of labels that sort above `s`: on a decreasing index
   * without `s`, the length minus `searchsorted` on the reversed index.
   */
  function CountGreater(keys: seq<Label>, s: string): (n: nat)
    ensures n <= |keys|
  {
    if keys == [] then 0
    else (if keys[0].StrLabel? && StrLess(s, keys[0].s) then 1 else 0) + CountGreater(keys[1..], s)
  }

  /** On an increasing index without `s`, the labels below `s` come first and all others sort above it. */
  lemma {:induction false} IncreasingSplit(keys: seq<Label>, s: string)
    requires Increasing(keys) && StrLabel(s) !in keys
    ensures forall i | 0 <= i < |keys| :: i < CountLess(keys, s) <==> StrLess(keys[i].s, s)
    ensures forall i | 0 <= i < |keys| :: i < CountLess(keys, s) <==> !StrLess(s, keys[i].s)
  {
    if keys != [] {
      var tail := keys[1..];
      assert forall i | 1 <= i < |keys| :: keys[i] == tail[i - 1];
      assert Increasing(tail) by {
        forall i, j | 0 <= i < j < |tail| ensures !StrLess(tail[j].s, tail[i].s) {
          assert tail[i] == keys[i + 1] && tail[j] == keys[j + 1];
        }
      }
      IncreasingSplit(tail, s);
      var head := keys[0].s;
      assert head != s;
      if !StrLess(head, s) {
        Trichotomy(head, s);
        forall j | 1 <= j < |keys| ensures StrLess(s, keys[j].s) {
          if keys[j].s != head {
            StrLessTotal(head, keys[j].s);
            StrLessTrans(s, head, keys[j].s);
          }
        }
        if tail != [] {
          StrLessAsym(s, tail[0].s);
        }
      }
      forall i | 0 <= i < |keys| ensures StrLess(keys[i].s, s) != StrLess(s, keys[i].s) {
        Trichotomy(keys[i].s, s);
      }
    }
  }

  /** On a decreasing index without `s`, the labels above `s` come first and all others sort below it. */
  lemma {:induction false} DecreasingSplit(keys: seq<Label>, s: string)
    requires Decreasing(keys) && StrLabel(s) !in keys
    ensures forall i | 0 <= i < |keys| :: i < CountGreater(keys, s) <==> StrLess(s, keys[i].s)
    ensures forall i | 0 <= i < |keys| :: i < CountGreater(keys, s) <==> !StrLess(keys[i].s, s)
  {
    if keys != [] {
      var tail := keys[1..];
      assert forall i | 1 <= i < |keys| :: keys[i] == tail[i - 1];
      assert Decreasing(tail) by {
        forall i, j | 0 <= i < j < |tail| ensures !StrLess(tail[i].s, tail[j].s) {
          assert tail[i] == keys[i + 1] && tail[j] == keys[j + 1];
        }
      }
      DecreasingSplit(tail, s);
      var head := keys[0].s;
      assert head != s;
      if !StrLess(s, head) {
        Trichotomy(head, s);
        forall j | 1 <= j < |keys| ensures StrLess(keys[j].s, s) {
          if keys[j].s != head {
            StrLessTotal(head, keys[j].s);
            StrLessTrans(keys[j].s, head, s);
          }
        }
        if tail != [] {
          StrLessAsym(s, tail[0].s);
        }
      }
      forall i | 0 <= i < |keys| ensures StrLess(keys[i].s, s) != StrLess(s, keys[i].s) {
        Trichotomy(keys[i].s, s);
      }
    }
  }

  /* ---------------------------------------------------------------- */
  /* Slice bounds                                                      */
  /* ---------------------------------------------------------------- */

  /** The occurrences of `s` from the first to the last are unbroken. */
  predicate Contiguous(keys: seq<Label>, s: string, first: nat, last: nat)
    requires first <= last < |keys|
  {
    forall i | first <= i <= last :: keys[i] == StrLabel(s)
  }

  /**
   * `get_slice_bound(s, side)` (the left side when `right` is false): a
   * label that occurs gives its first position on the left and one past
   * its last on the right, if its occurrences are unbroken (a KeyError
   * otherwise); an absent label gives the binary-search position on an
   * increasing, else a decreasing, index, and a KeyError on any other.
   */
  function SliceBound(keys: seq<Label>, s: string, right: bool): (r: Result<nat>)
    ensures r.Ok? ==> r.value <= |keys|
    ensures r.Err? ==> r.error == KeyError
    ensures StrLabel(s) !in keys ==> (r.Ok? <==> Increasing(keys) || Decreasing(keys))
  {
    match (FirstKey(keys, s), LastKey(keys, s))
    case (Some(first), Some(last)) =>
      if Contiguous(keys, s, first, last) then Ok(if right then last + 1 else first) else Err(KeyError)
    case _ =>
      if Increasing(keys) then Ok(CountLess(keys, s))
      else if Decreasing(keys) then Ok(CountGreater(keys, s))
      else Err(KeyError)
  }

  /**
   * The two bounds of one label enclose exactly its occurrences: a label
   * that occurs spans them, an absent one gives the same position on
   * both sides.
   */
  lemma BoundsSpanOccurrences(keys: seq<Label>, s: string)
    requires SliceBound(keys, s, false).Ok?
    ensures SliceBound(keys, s, true).Ok?
    ensures var lo, hi := SliceBound(keys, s, false).value, SliceBound(keys, s, true).value;
            lo <= hi && forall i | 0 <= i < |keys| :: lo <= i < hi <==> keys[i] == StrLabel(s)
  {
  }

  /**
   * On a sorted index without the label, the bound splits the index:
   * the labels before it sort on one side of `s` and the labels from it
   * on the other, so the bound is where `s` would be inserted.
   */
  lemma AbsentBoundSplits(keys: seq<Label>, s: string, right: bool)
    requires StrLabel(s) !in keys && (Increasing(keys) || Decreasing(keys))
    ensures SliceBound(keys, s, right).Ok?
    ensures var b := SliceBound(keys, s, right).value;
            Increasing(keys) ==>
              (forall i | 0 <= i < b :: StrLess(keys[i].s, s)) && (forall i | b <= i < |keys| :: StrLess(s, keys[i].s))
    ensures var b := SliceBound(keys, s, right).value;
            !Increasing(keys) ==>
              (forall i | 0 <= i < b :: StrLess(s, keys[i].s)) && (forall i | b <= i < |keys| :: StrLess(keys[i].s, s))
  {
    if Increasing(keys) {
      IncreasingSplit(keys, s);
    } else {
      DecreasingSplit(keys, s);
    }
  }

  /** A label that occurs once, at position i, bounds the slice at i on the left and i + 1 on the right. */
  lemma UniqueBound(keys: seq<Label>, s: string, i: nat, right: bool)
    requires i < |keys| && keys[i] == StrLabel(s)
    requires forall k | 0 <= k < |keys| && keys[k] == StrLabel(s) :: k == i
    ensures SliceBound(keys, s, right) == Ok(if right then i + 1 else i)
  {
    assert StrLabel(s) in keys;
  }

  /**
   * `slice_locs(start, stop)` for two string labels and step 1: the
   * half-open range of positions from the start label's left bound to
   * the stop label's right bound, empty when the stop bound comes first.
   */
  function LabelRange(keys: seq<Label>, start: string, stop: string): (r: Result<(nat, nat)>)
    ensures r.Ok? <==> SliceBound(keys, start, false).Ok? && SliceBound(keys, stop, true).Ok?
    ensures r.Err? ==> r.error == KeyError
    ensures r.Ok? ==> r.value.0 <= r.value.1 <= |keys|
    ensures r.Ok? ==> r.value.0 == SliceBound(keys, start, false).value
    ensures r.Ok? && SliceBound(keys, start, false).value <= SliceBound(keys, stop, true).value ==>
              r.value.1 == SliceBound(keys, stop, true).value
    ensures r.Ok? && SliceBound(keys, stop, true).value < SliceBound(keys, start, false).value ==>
              r.value.1 == r.value.0
  {
    var lo :- SliceBound(keys, start, false);
    var hi :- SliceBound(keys, stop, true);
    if lo <= hi then Ok((lo, hi)) else Ok((lo, lo))
  }

  /** With both labels occurring once, the label range is the positional range from the one to the other, inclusive. */
  lemma UniqueLabelRange(keys: seq<Label>, start: string, stop: string, i: nat, j: nat)
    requires i < |keys| && keys[i] == StrLabel(start) && forall k | 0 <= k < |keys| && keys[k] == StrLabel(start) :: k == i
    requires j < |keys| && keys[j] == StrLabel(stop) && forall k | 0 <= k < |keys| && keys[k] == StrLabel(stop) :: k == j
    ensures LabelRange(keys, start, stop) == Ok(SliceRange(Some(i), Some(j + 1), |keys|))
  {
    UniqueBound(keys, start, i, false);
    UniqueBound(keys, stop, j, true);
  }

  /** The column labels of a frame as index labels. */
  function NameKeys(cs: seq<Column>): (keys: seq<Label>)
    ensures |keys| == |cs| && forall c | 0 <= c < |cs| :: keys[c] == StrLabel(cs[c].name)
  {
    seq(|cs|, c requires 0 <= c < |cs| => StrLabel(cs[c].name))
  }
}
