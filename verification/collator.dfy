/**
 * The mocap data collator (src/mopipe/core/data/collator.py): a registry
 * of readers with one primary reader, and `collate`, which reads every
 * reader, brings the secondary data to the primary sample rate, cuts all
 * frames to the shortest and puts their columns side by side.
 *
 * What a reader's `read()` gives is part of the reader, so a registered
 * reader is its name and that outcome. The interpolation itself
 * (`scipy.interpolate.interp1d` evaluated on `np.linspace`) and Python's
 * `float(str)` are foreign and are parameters.
 */
module Collator {
  import opened Errors
  import opened Tables
  import opened SegmentIO
  import opened Datastructs
  import opened Empirical

  /** A registered reader: its name and the outcome of its `read()` (which may be None). */
  datatype ReaderHandle = ReaderHandle(name: string, output: Result<Option<EmpiricalData>>)

  /** `MocapDataCollator`: where the output goes, the readers in order and the primary index. */
  datatype Collator = Collator(outputDir: string, outputName: string, readers: seq<ReaderHandle>, primary: nat) {

    /** The primary index names a reader whenever there is one, and is 0 before any is added. */
    predicate Valid() {
      primary < |readers| || (readers == [] && primary == 0)
    }
  }

  /** `MocapDataCollator.__init__` (collator.py:26-39): no readers, primary 0. */
  function NewCollator(outputDir: string, outputName: string): (c: Collator)
    ensures c.Valid() && c.readers == [] && c.primary == 0
    ensures c.outputDir == outputDir && c.outputName == outputName
  {
    Collator(outputDir, outputName, [], 0)
  }

  /**
   * `add_reader` (collator.py:79-99): the reader is appended and its
   * index, the old reader count, is returned; the primary index moves to
   * it only when `isPrimary` is set.
   */
  function AddReader(c: Collator, reader: ReaderHandle, isPrimary: bool): (r: (Collator, nat))
    ensures r.1 == |c.readers| && r.0.readers == c.readers + [reader]
    ensures r.0.readers[r.1] == reader
    ensures isPrimary ==> r.0.primary == r.1
    ensures !isPrimary ==> r.0.primary == c.primary
    ensures r.0.outputDir == c.outputDir && r.0.outputName == c.outputName
    ensures c.Valid() ==> r.0.Valid()
  {
    var idx := |c.readers|;
    (c.(readers := c.readers + [reader], primary := if isPrimary then idx else c.primary), idx)
  }

  /** `set_primary_reader` (collator.py:61-77): an index outside 0..count-1 is an IndexError. */
  function SetPrimary(c: Collator, index: int): (r: Result<Collator>)
    ensures r.Ok? <==> 0 <= index < |c.readers|
    ensures r.Err? ==> r.error == IndexError
    ensures r.Ok? ==> r.value.Valid() && r.value.primary == index
    ensures r.Ok? ==> r.value.readers == c.readers && r.value.outputName == c.outputName && r.value.outputDir == c.outputDir
  {
    if index < 0 || index >= |c.readers| then Err(IndexError)
    else Ok(c.(primary := index))
  }

  /** Adding a reader and then making it primary is adding it as primary. */
  lemma AddThenSetPrimary(c: Collator, reader: ReaderHandle)
    ensures var (c1, idx) := AddReader(c, reader, false);
            SetPrimary(c1, idx) == Ok(AddReader(c, reader, true).0)
  {
  }

  /* ---------------------------------------------------------------- */
  /* Sample rates                                                      */
  /* ---------------------------------------------------------------- */

  /** Python's `float(v)` on a stored metadata value; text goes through the supplied parser. */
  function ToFloat(v: MetaValue, parse: string -> Option<real>): (r: Result<real>)
    ensures v.MetaFloat? ==> r == Ok(v.r)
    ensures v.MetaInt? ==> r == Ok(v.i as real)
    ensures v.MetaText? ==> (r.Ok? <==> parse(v.s).Some?) && (r.Ok? ==> r.value == parse(v.s).value)
    ensures r.Err? ==> r.error == (if v.MetaText? then ValueError else TypeError)
  {
    match v
    case MetaFloat(x) => Ok(x)
    case MetaInt(i) => Ok(i as real)
    case MetaText(s) => (match parse(s) case Some(x) => Ok(x) case None => Err(ValueError))
    case _ => Err(TypeError)
  }

  /**
   * `_get_sample_rate` (collator.py:101-119): the first of "sample_rate"
   * and "FREQUENCY" present in the metadata, as a float; None when
   * neither is there.
   */
  function GetSampleRate(meta: Meta, parse: string -> Option<real>): (r: Result<Option<real>>)
    ensures r == Ok(None) <==> "sample_rate" !in meta && "FREQUENCY" !in meta
    ensures "sample_rate" in meta ==>
              (r.Ok? <==> ToFloat(meta["sample_rate"], parse).Ok?)
              && (r.Ok? ==> r.value == Some(ToFloat(meta["sample_rate"], parse).value))
    ensures "sample_rate" !in meta && "FREQUENCY" in meta ==>
              (r.Ok? <==> ToFloat(meta["FREQUENCY"], parse).Ok?)
              && (r.Ok? ==> r.value == Some(ToFloat(meta["FREQUENCY"], parse).value))
  {
    if "sample_rate" in meta then
      var x :- ToFloat(meta["sample_rate"], parse);
      Ok(Some(x))
    else if "FREQUENCY" in meta then
      var x :- ToFloat(meta["FREQUENCY"], parse);
      Ok(Some(x))
    else Ok(None)
  }

  /** With "sample_rate" present, whatever "FREQUENCY" holds does not matter. */
  lemma SampleRatePreferred(meta: Meta, other: MetaValue, parse: string -> Option<real>)
    requires "sample_rate" in meta
    ensures GetSampleRate(meta["FREQUENCY" := other], parse) == GetSampleRate(meta, parse)
    ensures GetSampleRate(meta - {"FREQUENCY"}, parse) == GetSampleRate(meta, parse)
  {
  }

  /**
   * Reading "sample_rate" as `MocapMetaData` does, through the alias
   * table, finds the same entry: the rate of normalised metadata is what
   * `__getitem__` returns.
   */
  lemma SampleRateThroughAliases(meta: Meta, parse: string -> Option<real>)
    requires "sample_rate" in meta
    ensures GetItem(meta, "sample_rate") == Ok(meta["sample_rate"])
  {
    MocapKeeps();
  }

  /* ---------------------------------------------------------------- */
  /* Resampling                                                        */
  /* ---------------------------------------------------------------- */

  /** `_INTERPOLATION_METHODS` (collator.py:16). */
  const InterpolationMethods: seq<string> := ["linear", "cubic", "nearest"]

  /**
   * Interpolating one column's cells onto n evenly spaced points with a
   * method (`interp1d(..., kind=method)` evaluated at `linspace`).
   */
  type Interp = (seq<Cell>, nat, string) -> Result<seq<real>>

  /** The interpolator gives n values when asked for n points. */
  ghost predicate Sized(interp: Interp) {
    forall cells, n, m :: interp(cells, n, m).Ok? ==> |interp(cells, n, m).value| == n
  }

  /** Python's `int(x)` on a float: truncation toward zero. */
  function Trunc(x: real): (k: int)
    ensures x >= 0.0 ==> 0 <= k && k as real <= x < k as real + 1.0
    ensures x < 0.0 ==> k <= 0 && k as real - 1.0 < x <= k as real
  {
    if x >= 0.0 then x.Floor else -((-x).Floor)
  }

  /**
   * Whether a column of the frame resamples: its label is carried by no
   * other column, so that `data[col].values` is one-dimensional, and the
   * interpolator accepts its cells. A repeated label gives a block, which
   * `interp1d` refuses, or, when the frame has two rows, which the new
   * frame refuses; both raise ValueError.
   */
  predicate Resamples(frame: seq<Column>, col: Column, n: nat, kind: string, interp: Interp) {
    |ColumnsNamed(frame, col.name)| < 2 && interp(col.cells, n, kind).Ok?
  }

  /** The error that resampling one column raises. */
  function ResampleError(frame: seq<Column>, col: Column, n: nat, kind: string, interp: Interp): Error
    requires !Resamples(frame, col, n, kind, interp)
  {
    if |ColumnsNamed(frame, col.name)| >= 2 then ValueError else interp(col.cells, n, kind).error
  }

  /**
   * The loop of `_resample` (collator.py:160-164) over the columns `cols`
   * of the frame `frame`: every column interpolated onto n points,
   * keeping its label; the first failure is raised.
   */
  function ResampleColumns(cols: seq<Column>, frame: seq<Column>, n: nat, kind: string, interp: Interp): (r: Result<seq<Column>>)
    requires Sized(interp)
    ensures r.Ok? <==> forall c | 0 <= c < |cols| :: Resamples(frame, cols[c], n, kind, interp)
    ensures r.Ok? ==> |r.value| == |cols|
    ensures r.Ok? ==> forall c | 0 <= c < |cols| ::
                        r.value[c] == Column(cols[c].name, Cells(interp(cols[c].cells, n, kind).value))
                        && |r.value[c].cells| == n
    ensures r.Err? ==> exists c | 0 <= c < |cols| ::
                         !Resamples(frame, cols[c], n, kind, interp)
                         && r.error == ResampleError(frame, cols[c], n, kind, interp)
                         && forall j | 0 <= j < c :: Resamples(frame, cols[j], n, kind, interp)
  {
    if cols == [] then Ok([])
    else if !Resamples(frame, cols[0], n, kind, interp) then Err(ResampleError(frame, cols[0], n, kind, interp))
    else
      var ys := interp(cols[0].cells, n, kind).value;
      var rest := ResampleColumns(cols[1..], frame, n, kind, interp);
      assert forall c | 1 <= c < |cols| :: cols[c] == cols[1..][c - 1];
      if rest.Err? then
        var k :| 0 <= k < |cols[1..]| && !Resamples(frame, cols[1..][k], n, kind, interp)
                 && rest.error == ResampleError(frame, cols[1..][k], n, kind, interp)
                 && forall j | 0 <= j < k :: Resamples(frame, cols[1..][j], n, kind, interp);
        assert forall j | 1 <= j < k + 1 :: Resamples(frame, cols[j], n, kind, interp);
        Err(rest.error)
      else
        Ok([Column(cols[0].name, Cells(ys))] + rest.value)
  }

  /**
   * `_resample` (collator.py:121-166). Equal rates return the data as it
   * is, before the method is checked; an unknown method is a ValueError;
   * a zero source rate divides by zero; a negative point count is refused
   * by `np.linspace` with a ValueError; otherwise every column is
   * interpolated onto `int(rows * to / from)` points under the default
   * index, and a repeated label is a ValueError.
   */
  function Resample(data: WfTable, fromRate: real, toRate: real, kind: string, interp: Interp): (r: Result<WfTable>)
    requires Sized(interp)
    ensures fromRate == toRate ==> r == Ok(data)
    ensures fromRate != toRate && kind !in InterpolationMethods ==> r == Err(ValueError)
    ensures fromRate != toRate && kind in InterpolationMethods && fromRate == 0.0 ==> r == Err(ZeroDivisionError)
    ensures fromRate != toRate && kind in InterpolationMethods && fromRate != 0.0 ==>
              var n := Trunc(data.Rows() as real * toRate / fromRate);
              (n < 0 ==> r == Err(ValueError))
              && (n >= 0 ==> r == match ResampleColumns(data.columns, data.columns, n, kind, interp)
                                  case Ok(cols) => Ok(Table(RangeIndex(n), cols))
                                  case Err(e) => Err(e))
    ensures r.Ok? && fromRate != toRate ==>
              fromRate != 0.0 && kind in InterpolationMethods
              && r.value.Rows() == Trunc(data.Rows() as real * toRate / fromRate)
              && r.value.index == RangeIndex(r.value.Rows())
              && r.value.Labels() == data.Labels()
              && forall c | 0 <= c < data.Cols() :: |ColumnsNamed(data.columns, data.columns[c].name)| == 1
  {
    if fromRate == toRate then Ok(data)
    else if kind !in InterpolationMethods then Err(ValueError)
    else if fromRate == 0.0 then Err(ZeroDivisionError)
    else
      var n := Trunc(data.Rows() as real * toRate / fromRate);
      if n < 0 then Err(ValueError)
      else
        var cols :- ResampleColumns(data.columns, data.columns, n, kind, interp);
        var t := Table(RangeIndex(n), cols);
        assert t.WellFormed();
        assert forall c | 0 <= c < data.Cols() :: |ColumnsNamed(data.columns, data.columns[c].name)| == 1 by {
          forall c | 0 <= c < data.Cols() ensures |ColumnsNamed(data.columns, data.columns[c].name)| == 1 {
            ColumnsNamedMembers(data.columns, data.columns[c].name);
          }
        }
        Ok(t)
  }

  /** A column label carried twice makes resampling fail with ValueError, unless an earlier column already failed. */
  lemma RepeatedLabelResample(data: WfTable, fromRate: real, toRate: real, kind: string, interp: Interp, c: nat)
    requires Sized(interp)
    requires fromRate != toRate && kind in InterpolationMethods && fromRate != 0.0
    requires Trunc(data.Rows() as real * toRate / fromRate) >= 0
    requires c < data.Cols() && |ColumnsNamed(data.columns, data.columns[c].name)| >= 2
    requires forall j | 0 <= j < c :: Resamples(data.columns, data.columns[j], Trunc(data.Rows() as real * toRate / fromRate), kind, interp)
    ensures Resample(data, fromRate, toRate, kind, interp) == Err(ValueError)
  {
    var n := Trunc(data.Rows() as real * toRate / fromRate);
    var r := ResampleColumns(data.columns, data.columns, n, kind, interp);
    assert !Resamples(data.columns, data.columns[c], n, kind, interp);
    var k :| 0 <= k < data.Cols() && !Resamples(data.columns, data.columns[k], n, kind, interp)
             && r.error == ResampleError(data.columns, data.columns[k], n, kind, interp)
             && forall j | 0 <= j < k :: Resamples(data.columns, data.columns[j], n, kind, interp);
    assert k == c;
  }

  /* ---------------------------------------------------------------- */
  /* Collation                                                         */
  /* ---------------------------------------------------------------- */

  /** What `read()` of one reader contributes: its data, or the error it raises (None is a ValueError). */
  function ReadOne(h: ReaderHandle): (r: Result<EmpiricalData>)
    ensures r.Ok? <==> h.output.Ok? && h.output.value.Some?
    ensures r.Ok? ==> r.value == h.output.value.value
    ensures h.output == Ok(None) ==> r == Err(ValueError)
    ensures h.output.Err? ==> r == Err(h.output.error)
  {
    var d :- h.output;
    if d.None? then Err(ValueError) else Ok(d.value)
  }

  /** The read loop of `collate` (collator.py:195-202): every reader in order; the first failure is raised. */
  function ReadAll(rs: seq<ReaderHandle>): (r: Result<seq<EmpiricalData>>)
    ensures r.Ok? <==> forall k | 0 <= k < |rs| :: ReadOne(rs[k]).Ok?
    ensures r.Ok? ==> |r.value| == |rs| && forall k | 0 <= k < |rs| :: r.value[k] == ReadOne(rs[k]).value
    ensures r.Err? ==> exists k | 0 <= k < |rs| :: ReadOne(rs[k]).Err? && r.error == ReadOne(rs[k]).error
                                                 && forall j | 0 <= j < k :: ReadOne(rs[j]).Ok?
  {
    if rs == [] then Ok([])
    else
      var d :- ReadOne(rs[0]);
      var rest := ReadAll(rs[1..]);
      assert forall k | 1 <= k < |rs| :: rs[k] == rs[1..][k - 1];
      if rest.Err? then
        var k :| 0 <= k < |rs[1..]| && ReadOne(rs[1..][k]).Err? && rest.error == ReadOne(rs[1..][k]).error
                 && forall j | 0 <= j < k :: ReadOne(rs[1..][j]).Ok?;
        assert forall j | 1 <= j < k + 1 :: ReadOne(rs[j]).Ok?;
        Err(rest.error)
      else Ok([d] + rest.value)
  }

  /** Every reader that yields data yields a frame (the collator's readers return DataFrames). */
  predicate ReadsFrames(rs: seq<ReaderHandle>) {
    forall k | 0 <= k < |rs| :: ReadOne(rs[k]).Ok? ==> ReadOne(rs[k]).value.data.Frame?
  }

  predicate AllFrames(ds: seq<EmpiricalData>) {
    forall k | 0 <= k < |ds| :: ds[k].data.Frame?
  }

  /** The fixed inputs of the alignment loop. */
  datatype Alignment = Alignment(primary: nat, target: real, kind: string,
                                 parse: string -> Option<real>, interp: Interp)

  /**
   * One iteration of the alignment loop (collator.py:213-222): the primary
   * frame as it is; any other frame resampled from its own rate, whose
   * absence is a ValueError.
   */
  function AlignOne(ds: seq<EmpiricalData>, k: nat, a: Alignment): (r: Result<WfTable>)
    requires k < |ds| && AllFrames(ds) && Sized(a.interp)
    ensures k == a.primary ==> r == Ok(ds[k].data.table)
    ensures k != a.primary && GetSampleRate(ds[k].metadata, a.parse) == Ok(None) ==> r == Err(ValueError)
    ensures k != a.primary && GetSampleRate(ds[k].metadata, a.parse).Err? ==>
              r == Err(GetSampleRate(ds[k].metadata, a.parse).error)
    ensures k != a.primary && GetSampleRate(ds[k].metadata, a.parse).Ok? && GetSampleRate(ds[k].metadata, a.parse).value.Some? ==>
              r == Resample(ds[k].data.table, GetSampleRate(ds[k].metadata, a.parse).value.value, a.target, a.kind, a.interp)
  {
    if k == a.primary then Ok(ds[k].data.table)
    else
      var rate :- GetSampleRate(ds[k].metadata, a.parse);
      if rate.None? then Err(ValueError)
      else Resample(ds[k].data.table, rate.value, a.target, a.kind, a.interp)
  }

  /** The alignment loop from index i on; the first failure is raised. */
  function AlignFrom(ds: seq<EmpiricalData>, i: nat, a: Alignment): (r: Result<seq<WfTable>>)
    requires i <= |ds| && AllFrames(ds) && Sized(a.interp)
    ensures r.Ok? <==> forall k | i <= k < |ds| :: AlignOne(ds, k, a).Ok?
    ensures r.Ok? ==> |r.value| == |ds| - i && forall k | i <= k < |ds| :: r.value[k - i] == AlignOne(ds, k, a).value
    ensures r.Err? ==> exists k | i <= k < |ds| :: AlignOne(ds, k, a).Err? && r.error == AlignOne(ds, k, a).error
    decreases |ds| - i
  {
    if i == |ds| then Ok([])
    else
      var t := AlignOne(ds, i, a);
      var rest := AlignFrom(ds, i + 1, a);
      if t.Err? then Err(t.error)
      else if rest.Err? then Err(rest.error)
      else
        var vs := [t.value] + rest.value;
        assert vs[1..] == rest.value;
        Ok(vs)
  }

  /** The length every aligned frame is cut to: the smallest row count. */
  function MinRows(ts: seq<WfTable>): (n: nat)
    requires ts != []
    ensures forall k | 0 <= k < |ts| :: n <= ts[k].Rows()
    ensures exists k | 0 <= k < |ts| :: n == ts[k].Rows()
  {
    if |ts| == 1 then ts[0].Rows()
    else
      var m := MinRows(ts[1..]);
      assert forall k | 1 <= k < |ts| :: ts[k] == ts[1..][k - 1];
      if ts[0].Rows() <= m then ts[0].Rows() else m
  }

  /** The columns of every frame cut to n rows, frame after frame. */
  function AllColumns(ts: seq<WfTable>, n: nat): (cols: seq<Column>)
    requires forall k | 0 <= k < |ts| :: n <= ts[k].Rows()
    ensures forall c | 0 <= c < |cols| :: |cols[c].cells| == n
  {
    if ts == [] then []
    else Head(ts[0], n).columns + AllColumns(ts[1..], n)
  }

  /** How many columns the frames before index k contribute. */
  function Offset(ts: seq<WfTable>, k: nat): nat
    requires k <= |ts|
  {
    if k == 0 then 0 else Offset(ts, k - 1) + ts[k - 1].Cols()
  }

  /** Frame k's columns, cut to n rows, sit at its offset in the concatenation. */
  lemma {:induction false} ColumnsBlock(ts: seq<WfTable>, n: nat, k: nat)
    requires forall j | 0 <= j < |ts| :: n <= ts[j].Rows()
    requires k < |ts|
    ensures Offset(ts, k) + ts[k].Cols() <= |AllColumns(ts, n)|
    ensures AllColumns(ts, n)[Offset(ts, k)..Offset(ts, k) + ts[k].Cols()] == Head(ts[k], n).columns
  {
    var cols := AllColumns(ts, n);
    var first := Head(ts[0], n).columns;
    var rest := AllColumns(ts[1..], n);
    assert cols == first + rest;
    if k == 0 {
      SliceAfter(first, rest, 0, 0);
    } else {
      var tail := ts[1..];
      ColumnsBlock(tail, n, k - 1);
      OffsetShift(ts, k);
      assert tail[k - 1] == ts[k];
      var lo := Offset(tail, k - 1);
      SliceAfter(first, rest, lo, lo + ts[k].Cols());
    }
  }

  /** A slice of a concatenation: the prefix alone, or a slice of the suffix shifted by the prefix's length. */
  lemma SliceAfter<T>(a: seq<T>, b: seq<T>, lo: nat, hi: nat)
    requires lo <= hi <= |b|
    ensures (a + b)[..|a|] == a
    ensures (a + b)[|a| + lo..|a| + hi] == b[lo..hi]
  {
  }

  /** Dropping the first frame shifts every later offset by its column count. */
  lemma {:induction false} OffsetShift(ts: seq<WfTable>, k: nat)
    requires 0 < k <= |ts|
    ensures Offset(ts, k) == ts[0].Cols() + Offset(ts[1..], k - 1)
  {
    if k > 1 {
      OffsetShift(ts, k - 1);
      assert ts[1..][k - 2] == ts[k - 1];
    }
  }

  /** `pd.concat(aligned, axis=1)` of frames already cut to n rows and re-indexed. */
  function Concat(ts: seq<WfTable>, n: nat): (r: WfTable)
    requires forall k | 0 <= k < |ts| :: n <= ts[k].Rows()
    ensures r.Rows() == n && r.index == RangeIndex(n)
    ensures r.columns == AllColumns(ts, n)
  {
    Table(RangeIndex(n), AllColumns(ts, n))
  }

  /** The reader names, as the list stored under "source_names". */
  function SourceNames(rs: seq<ReaderHandle>): (r: MetaValue)
    ensures r.MetaList? && |r.items| == |rs|
    ensures forall k | 0 <= k < |rs| :: r.items[k] == MetaText(rs[k].name)
  {
    MetaList(seq(|rs|, k requires 0 <= k < |rs| => MetaText(rs[k].name)))
  }

  /** The frames `collate` aligns, when reading and the primary rate succeed. */
  function Aligned(c: Collator, kind: string, parse: string -> Option<real>, interp: Interp): (r: Result<seq<WfTable>>)
    requires c.Valid() && ReadsFrames(c.readers) && Sized(interp)
    ensures r.Ok? ==> c.readers != [] && ReadAll(c.readers).Ok? && |r.value| == |c.readers|
    ensures r.Ok? ==> GetSampleRate(ReadAll(c.readers).value[c.primary].metadata, parse).Ok?
                      && GetSampleRate(ReadAll(c.readers).value[c.primary].metadata, parse).value.Some?
    ensures r.Ok? ==> r.value[c.primary] == ReadAll(c.readers).value[c.primary].data.table
  {
    if c.readers == [] then Err(ValueError)
    else
      var ds :- ReadAll(c.readers);
      var rate :- GetSampleRate(ds[c.primary].metadata, parse);
      if rate.None? then Err(ValueError)
      else
        var a := Alignment(c.primary, rate.value, kind, parse, interp);
        var r := AlignFrom(ds, 0, a);
        assert r.Ok? ==> r.value[c.primary] == AlignOne(ds, c.primary, a).value;
        r
  }

  /**
   * `collate` (collator.py:168-243): no readers, a reader giving None or
   * a missing primary rate is a ValueError; the aligned frames are cut
   * to the shortest and put side by side; the result is named after the
   * output and records the rate, the frame count, the reader count and
   * the reader names in order.
   */
  function Collate(c: Collator, kind: string, parse: string -> Option<real>, interp: Interp, uuid: string): (r: Result<EmpiricalData>)
    requires c.Valid() && ReadsFrames(c.readers) && Sized(interp)
    ensures c.readers == [] ==> r == Err(ValueError)
    ensures r.Ok? <==> Aligned(c, kind, parse, interp).Ok?
    ensures r.Ok? ==>
              var ts := Aligned(c, kind, parse, interp).value;
              var d := ReadAll(c.readers).value;
              r.value.data.Frame? && r.value.data.table == Concat(ts, MinRows(ts))
              && (forall k | 0 <= k < |ts| :: r.value.data.table.Rows() <= ts[k].Rows())
              && r.value.data.table.Rows() <= d[c.primary].data.table.Rows()
              && GetSampleRate(d[c.primary].metadata, parse).Ok?
              && GetSampleRate(d[c.primary].metadata, parse).value.Some?
              && r.value.metadata == map["sample_rate" := MetaFloat(GetSampleRate(d[c.primary].metadata, parse).value.value),
                                         "n_frames" := MetaInt(r.value.data.table.Rows()),
                                         "n_sources" := MetaInt(|c.readers|),
                                         "source_names" := SourceNames(c.readers)]
              && r.value.name == c.outputName && r.value.dataId == c.outputName + "_" + uuid
  {
    var ts :- Aligned(c, kind, parse, interp);
    var ds := ReadAll(c.readers).value;
    var rate := GetSampleRate(ds[c.primary].metadata, parse).value.value;
    var n := MinRows(ts);
    var meta := map["sample_rate" := MetaFloat(rate), "n_frames" := MetaInt(n),
                    "n_sources" := MetaInt(|c.readers|), "source_names" := SourceNames(c.readers)];
    Ok(MakeData(Frame(Concat(ts, n)), meta, c.outputName, None, uuid))
  }

  /** A reader whose `read()` raises, or the first one to give None, makes `collate` fail with that error. */
  lemma CollateReadFailure(c: Collator, kind: string, parse: string -> Option<real>, interp: Interp, uuid: string, k: nat)
    requires c.Valid() && ReadsFrames(c.readers) && Sized(interp)
    requires k < |c.readers| && ReadOne(c.readers[k]).Err?
    requires forall j | 0 <= j < k :: ReadOne(c.readers[j]).Ok?
    ensures Collate(c, kind, parse, interp, uuid) == Err(ReadOne(c.readers[k]).error)
    ensures c.readers[k].output == Ok(None) ==> Collate(c, kind, parse, interp, uuid) == Err(ValueError)
  {
    var r := ReadAll(c.readers);
    var i :| 0 <= i < |c.readers| && ReadOne(c.readers[i]).Err? && r.error == ReadOne(c.readers[i]).error
             && forall j | 0 <= j < i :: ReadOne(c.readers[j]).Ok?;
    assert i == k;
  }

  /** All readers give data but the primary's metadata has no rate: a ValueError. */
  lemma CollateNoPrimaryRate(c: Collator, kind: string, parse: string -> Option<real>, interp: Interp, uuid: string)
    requires c.Valid() && ReadsFrames(c.readers) && Sized(interp)
    requires c.readers != [] && ReadAll(c.readers).Ok?
    requires GetSampleRate(ReadAll(c.readers).value[c.primary].metadata, parse) == Ok(None)
    ensures Collate(c, kind, parse, interp, uuid) == Err(ValueError)
  {
  }

  /**
   * The primary data is never resampled: its columns, cut to the common
   * length, sit unchanged at their offset in the collated frame.
   */
  lemma CollatePrimaryColumns(c: Collator, kind: string, parse: string -> Option<real>, interp: Interp, uuid: string)
    requires c.Valid() && ReadsFrames(c.readers) && Sized(interp)
    requires Collate(c, kind, parse, interp, uuid).Ok?
    ensures var ts := Aligned(c, kind, parse, interp).value;
            var t := Collate(c, kind, parse, interp, uuid).value.data.table;
            var p := ReadAll(c.readers).value[c.primary].data.table;
            Offset(ts, c.primary) + p.Cols() <= t.Cols()
            && t.columns[Offset(ts, c.primary)..Offset(ts, c.primary) + p.Cols()] == Head(p, t.Rows()).columns
  {
    var ts := Aligned(c, kind, parse, interp).value;
    ColumnsBlock(ts, MinRows(ts), c.primary);
  }

  /**
   * When every reader reports the primary's rate nothing is interpolated:
   * the aligned frames are the frames read, whatever interpolation kind
   * is asked for (even one `_resample` would refuse).
   */
  lemma SameRatesNoResample(c: Collator, kind: string, parse: string -> Option<real>, interp: Interp, rate: real)
    requires c.Valid() && ReadsFrames(c.readers) && Sized(interp)
    requires c.readers != [] && ReadAll(c.readers).Ok?
    requires forall k | 0 <= k < |c.readers| :: GetSampleRate(ReadAll(c.readers).value[k].metadata, parse) == Ok(Some(rate))
    ensures Aligned(c, kind, parse, interp).Ok?
    ensures var ds := ReadAll(c.readers).value;
            var ts := Aligned(c, kind, parse, interp).value;
            forall k | 0 <= k < |ts| :: ts[k] == ds[k].data.table
  {
    var ds := ReadAll(c.readers).value;
    var a := Alignment(c.primary, rate, kind, parse, interp);
    assert forall k | 0 <= k < |ds| :: AlignOne(ds, k, a) == Ok(ds[k].data.table);
  }
}
