/**
 * The pipeline of src/mopipe/core/analysis/pipeline.py: an ordered list
 * of segments run as a left fold, each segment receiving the previous
 * output as `x`, and the list operations that edit it.
 */
module Pipelines {
  import opened Errors
  import opened Tables
  import opened SegmentIO
  import opened Inputs
  import opened Seg

  type Pipeline = seq<Segment>

  /** `_check_kwargs` (pipeline.py:29-33). */
  function CheckKwargs(kwargs: Kwargs): (r: Result<()>)
    ensures r.Ok? <==> "x" in kwargs
    ensures r.Err? ==> r.error == ValueError
  {
    if "x" in kwargs then Ok(()) else Err(ValueError)
  }

  /**
   * The loop of `run` (pipeline.py:47-51): the keyword arguments after
   * every segment has replaced `x` with its output. Only `x` ever
   * changes; the first failing segment's error is the outcome.
   */
  function RunSegments(segments: Pipeline, kwargs: Kwargs): (r: Result<Kwargs>)
    ensures r.Ok? ==> r.value.Keys == kwargs.Keys + (if segments == [] then {} else {"x"})
    ensures r.Ok? ==> forall k | k in kwargs && k != "x" :: r.value[k] == kwargs[k]
    decreases |segments|
  {
    if segments == [] then Ok(kwargs)
    else
      var out :- Call(segments[0], kwargs);
      RunSegments(segments[1..], kwargs["x" := out])
  }

  /** `Pipeline.run` (pipeline.py:44-52). */
  function Run(p: Pipeline, kwargs: Kwargs): (r: Result<Value>)
    ensures "x" !in kwargs ==> r == Err(ValueError)
    ensures "x" in kwargs && p == [] ==> r == Ok(kwargs["x"])
    ensures "x" in kwargs && p != [] ==>
              (r.Ok? <==> RunSegments(p, kwargs).Ok?)
              && (r.Ok? ==> r.value == RunSegments(p, kwargs).value["x"])
  {
    var _ :- CheckKwargs(kwargs);
    var final :- RunSegments(p, kwargs);
    Ok(final["x"])
  }

  /** Continue a partial run with more segments. */
  function Then(r: Result<Kwargs>, rest: Pipeline): Result<Kwargs> {
    match r
    case Ok(kw) => RunSegments(rest, kw)
    case Err(e) => Err(e)
  }

  /** Running p1 + p2 is running p1, then p2 on what p1 left. */
  lemma {:induction false} RunConcat(p1: Pipeline, p2: Pipeline, kwargs: Kwargs)
    ensures RunSegments(p1 + p2, kwargs) == Then(RunSegments(p1, kwargs), p2)
    decreases |p1|
  {
    if p1 == [] {
      assert p1 + p2 == p2;
    } else {
      assert (p1 + p2)[0] == p1[0];
      assert (p1 + p2)[1..] == p1[1..] + p2;
      match Call(p1[0], kwargs)
      case Ok(out) => RunConcat(p1[1..], p2, kwargs["x" := out]);
      case Err(_) =>
    }
  }

  /** A pipeline grown by one segment feeds the old result to the new segment. */
  lemma RunAppend(p: Pipeline, s: Segment, kwargs: Kwargs)
    requires "x" in kwargs
    ensures Run(p + [s], kwargs) == match Run(p, kwargs)
                                    case Ok(x) => Call(s, kwargs["x" := x])
                                    case Err(e) => Err(e)
  {
    RunConcat(p, [s], kwargs);
    match RunSegments(p, kwargs)
    case Ok(kw) =>
      assert kw == kwargs["x" := kw["x"]] by {
        if p == [] {
        } else {
          assert kw.Keys == kwargs.Keys + {"x"};
        }
      }
      match Call(s, kw) {
        case Ok(out) =>
          assert RunSegments([s], kw) == RunSegments([], kw["x" := out]);
        case Err(_) =>
      }
    case Err(_) =>
  }

  /** `add_segment` (pipeline.py:39-42): append, and answer the new last index. */
  function AddSegment(p: Pipeline, s: Segment): (r: (Pipeline, nat))
    ensures |r.0| == |p| + 1 && r.1 == |r.0| - 1
    ensures r.0[r.1] == s && r.0[..r.1] == p
  {
    (p + [s], |p|)
  }

  /** The value handed to `__setitem__`: a Segment or something else. */
  datatype Item = SegmentItem(segment: Segment) | OtherItem

  /** The right-hand side of a slice assignment: an iterable of items, or not an iterable. */
  datatype ItemSource = Iterable(items: seq<Item>) | NotIterable

  /** `__setitem__` with an int index (pipeline.py:85-89). */
  function SetItem(p: Pipeline, index: int, value: Item): (r: Result<Pipeline>)
    ensures value.OtherItem? ==> r == Err(ValueError)
    ensures value.SegmentItem? ==> (r.Ok? <==> 0 <= index + |p| && index < |p|)
    ensures r.Ok? ==> |r.value| == |p|
    ensures r.Ok? ==> var k := if index < 0 then index + |p| else index;
                      r.value[k] == value.segment
                      && forall j | 0 <= j < |p| && j != k :: r.value[j] == p[j]
  {
    if !value.SegmentItem? then Err(ValueError)
    else
      var k :- PyIndex(index, |p|);
      Ok(p[k := value.segment])
  }

  /** All items are segments. */
  predicate AllSegments(items: seq<Item>) {
    forall i | 0 <= i < |items| :: items[i].SegmentItem?
  }

  function Segments(items: seq<Item>): (s: Pipeline)
    requires AllSegments(items)
    ensures |s| == |items|
    ensures forall i | 0 <= i < |s| :: items[i] == SegmentItem(s[i])
  {
    seq(|items|, i requires 0 <= i < |items| => items[i].segment)
  }

  /** `__setitem__` with a step-1 slice (pipeline.py:90-97): the range is replaced by the items. */
  function SetSlice(p: Pipeline, start: Option<int>, stop: Option<int>, value: ItemSource): (r: Result<Pipeline>)
    ensures value.NotIterable? ==> r == Err(ValueError)
    ensures value.Iterable? ==> (r.Ok? <==> AllSegments(value.items))
    ensures r.Err? ==> r.error == ValueError
    ensures r.Ok? ==> var (lo, hi) := SliceRange(start, stop, |p|);
                      |r.value| == |p| - (hi - lo) + |value.items|
                      && r.value[..lo] == p[..lo]
                      && r.value[lo..lo + |value.items|] == Segments(value.items)
                      && r.value[lo + |value.items|..] == p[hi..]
  {
    match value
    case NotIterable => Err(ValueError)
    case Iterable(items) =>
      if !AllSegments(items) then Err(ValueError)
      else
        var (lo, hi) := SliceRange(start, stop, |p|);
        var r := p[..lo] + Segments(items) + p[hi..];
        assert r[..lo] == p[..lo];
        assert r[lo..lo + |items|] == Segments(items);
        assert r[lo + |items|..] == p[hi..];
        Ok(r)
  }

  /** `insert` (pipeline.py:109-110), with `list.insert`'s clamping of the position. */
  function Insert(p: Pipeline, index: int, s: Segment): (r: Pipeline)
    ensures |r| == |p| + 1
    ensures var k := ClampIndex(index, |p|);
            r[k] == s && r[..k] == p[..k] && r[k + 1..] == p[k..]
  {
    var k := ClampIndex(index, |p|);
    var r := p[..k] + [s] + p[k..];
    assert r[..k] == p[..k];
    assert r[k + 1..] == p[k..];
    r
  }

  /** `__delitem__` with an int index (pipeline.py:106-107). */
  function DelItem(p: Pipeline, index: int): (r: Result<Pipeline>)
    ensures r.Ok? <==> 0 <= index + |p| && index < |p|
    ensures r.Err? ==> r.error == IndexError
    ensures r.Ok? ==> var k := if index < 0 then index + |p| else index;
                      |r.value| == |p| - 1 && r.value[..k] == p[..k] && r.value[k..] == p[k + 1..]
  {
    var k :- PyIndex(index, |p|);
    var r := p[..k] + p[k + 1..];
    assert r[..k] == p[..k];
    assert r[k..] == p[k + 1..];
    Ok(r)
  }

  /** `__delitem__` with a step-1 slice. */
  function DelSlice(p: Pipeline, start: Option<int>, stop: Option<int>): (r: Pipeline)
    ensures var (lo, hi) := SliceRange(start, stop, |p|);
            |r| == |p| - (hi - lo) && r[..lo] == p[..lo] && r[lo..] == p[hi..]
  {
    var (lo, hi) := SliceRange(start, stop, |p|);
    var r := p[..lo] + p[hi..];
    assert r[..lo] == p[..lo];
    assert r[lo..] == p[hi..];
    r
  }

  /** Deleting what was just inserted gives the pipeline back. */
  lemma InsertThenDelete(p: Pipeline, index: int, s: Segment)
    ensures DelItem(Insert(p, index, s), ClampIndex(index, |p|)) == Ok(p)
  {
    var k := ClampIndex(index, |p|);
    var q := Insert(p, index, s);
    assert q[..k] + q[k + 1..] == p[..k] + p[k..];
    assert p[..k] + p[k..] == p;
  }
}
