/**
 * The motion-capture reader (src/mopipe/core/data/reader.py): the scan
 * over the header lines of a QTM `.tsv` export that collects metadata
 * and finds where the data starts, the naming of the data columns after
 * the markers, and the dispatch of `read` on the kind of source.
 *
 * The file is its sequence of lines; `float(key)`, `int(...)` and the
 * time-stamp parser come in as `Parsers`, and `pd.read_csv` of the data
 * section as a function of the lines and the number of lines skipped.
 */
module Reader {
  import opened Errors
  import opened Tables
  import opened SegmentIO
  import opened Datastructs
  import opened Qtm
  import opened Empirical
  import opened Text

  /* ---------------------------------------------------------------- */
  /* Merging a header row into the metadata                            */
  /* ---------------------------------------------------------------- */

  /** A parsed event as the tuple `(name, index, elapsed)` that `parse_event` builds. */
  function EventItems(e: MetaValue): (xs: seq<MetaValue>)
    requires e.MetaEvent?
    ensures |xs| == 3 && xs[0] == MetaText(e.event) && xs[1] == MetaInt(e.index) && xs[2] == MetaFloat(e.time)
  {
    [MetaText(e.event), MetaInt(e.index), MetaFloat(e.time)]
  }

  /**
   * `old += new` on the values a header row can produce: numbers add
   * (an int meeting a float gives a float), strings concatenate, tuples
   * (a parsed event is one) concatenate with tuples, a list is extended
   * by a list, a tuple or the characters of a string; anything else is
   * a TypeError.
   */
  function PyAdd(a: MetaValue, b: MetaValue): (r: Result<MetaValue>)
    ensures a.MetaInt? && b.MetaInt? ==> r == Ok(MetaInt(a.i + b.i))
    ensures a.MetaText? && b.MetaText? ==> r == Ok(MetaText(a.s + b.s))
    ensures a.MetaList? && b.MetaList? ==> r == Ok(MetaList(a.items + b.items))
    ensures a.MetaTuple? && b.MetaTuple? ==> r == Ok(MetaTuple(a.elems + b.elems))
    ensures a.MetaList? && b.MetaEvent? ==> r == Ok(MetaList(a.items + EventItems(b)))
    ensures a.MetaEvent? ==> (r.Ok? <==> b.MetaTuple? || b.MetaEvent?)
    ensures a.MetaEvent? && r.Ok? ==> r.value.MetaTuple? && |r.value.elems| >= 3 && r.value.elems[..3] == EventItems(a)
    ensures r.Ok? && a.MetaList? ==> r.value.MetaList? && |r.value.items| >= |a.items| && r.value.items[..|a.items|] == a.items
    ensures (a.MetaOpaque? || a.MetaTrajectory?) ==> r == Err(TypeError)
    ensures r.Err? ==> r.error == TypeError
  {
    match (a, b)
    case (MetaInt(i), MetaInt(j)) => Ok(MetaInt(i + j))
    case (MetaInt(i), MetaFloat(y)) => Ok(MetaFloat(i as real + y))
    case (MetaFloat(x), MetaInt(j)) => Ok(MetaFloat(x + j as real))
    case (MetaFloat(x), MetaFloat(y)) => Ok(MetaFloat(x + y))
    case (MetaText(s), MetaText(t)) => Ok(MetaText(s + t))
    case (MetaTuple(xs), MetaTuple(ys)) => Ok(MetaTuple(xs + ys))
    case (MetaTuple(xs), MetaEvent(_, _, _)) => Ok(MetaTuple(xs + EventItems(b)))
    case (MetaEvent(_, _, _), MetaTuple(ys)) => Ok(MetaTuple(EventItems(a) + ys))
    case (MetaEvent(_, _, _), MetaEvent(_, _, _)) => Ok(MetaTuple(EventItems(a) + EventItems(b)))
    case (MetaList(xs), MetaList(ys)) => Ok(MetaList(xs + ys))
    case (MetaList(xs), MetaTuple(ys)) => Ok(MetaList(xs + ys))
    case (MetaList(xs), MetaEvent(_, _, _)) => Ok(MetaList(xs + EventItems(b)))
    case (MetaList(xs), MetaText(t)) => Ok(MetaList(xs + seq(|t|, i requires 0 <= i < |t| => MetaText([t[i]]))))
    case _ => Err(TypeError)
  }

  /**
   * `MocapReader._parse_metadata_row`'s merge (reader.py:149-154). The
   * membership test is the plain dict one on the parsed key; a first
   * occurrence is stored through `__setitem__`, a later one is read,
   * added to and stored back.
   */
  function MergeRow(meta: Meta, k: string, v: MetaValue): (r: Result<Meta>)
    ensures k !in meta ==> r == Ok(SetItem(meta, k, v))
    ensures k in meta && Normalised(meta) ==> (r.Ok? <==> PyAdd(meta[k], v).Ok?)
    ensures k in meta && Normalised(meta) && r.Ok? ==> r.value == meta[k := PyAdd(meta[k], v).value]
    ensures r.Ok? ==> meta.Keys <= r.value.Keys
    ensures r.Ok? && Normalised(meta) ==> Normalised(r.value)
    ensures Normalised(meta) && r.Err? ==> r.error == TypeError
  {
    if k !in meta then Ok(SetItem(meta, k, v))
    else
      var prev :- GetItem(meta, k);
      var sum :- PyAdd(prev, v);
      Ok(SetItem(meta, k, sum))
  }

  /* ---------------------------------------------------------------- */
  /* The header scan                                                   */
  /* ---------------------------------------------------------------- */

  /** A non-blank line's key (the first tab field) and its values (the rest). */
  function Key(line: string): string {
    Split(Strip(line), '\t')[0]
  }

  function Values(line: string): seq<string> {
    Split(Strip(line), '\t')[1..]
  }

  /** A line the scan parses as metadata: not blank, and its key is not a number. */
  predicate IsHeaderLine(line: string, ps: Parsers) {
    Strip(line) != [] && ps.toFloat(Key(line)).None?
  }

  /**
   * The loop of `_extract_metadata_from_file` (reader.py:165-192) from
   * line i on. The line counter always equals i here. A blank line
   * counts and ends the scan; a line whose key parses as a float ends it
   * without counting; every other line is parsed and merged, and the
   * first failing row's error is the scan's.
   */
  function Scan(lines: seq<string>, i: nat, meta: Meta, ps: Parsers, step: RowStep): (r: Result<(Meta, nat)>)
    requires i <= |lines|
    ensures r.Ok? ==> i <= r.value.1 <= |lines|
    decreases |lines| - i
  {
    if i == |lines| then Ok((meta, i))
    else
      var line := Strip(lines[i]);
      if line == [] then Ok((meta, i + 1))
      else if ps.toFloat(Key(lines[i])).Some? then Ok((meta, i))
      else
        var meta' :- step(lines[i], meta);
        Scan(lines, i + 1, meta', ps, step)
  }

  /** What the scan does with one header line; `Step` is the one `MocapReader` uses. */
  type RowStep = (string, Meta) -> Result<Meta>

  /** A step that keeps the metadata keys normalised keeps them so over the whole scan. */
  lemma {:induction false} ScanNormalised(lines: seq<string>, i: nat, meta: Meta, ps: Parsers, step: RowStep)
    requires i <= |lines| && Normalised(meta)
    requires forall line, m | Normalised(m) && step(line, m).Ok? :: Normalised(step(line, m).value)
    ensures Scan(lines, i, meta, ps, step).Ok? ==> Normalised(Scan(lines, i, meta, ps, step).value.0)
    decreases |lines| - i
  {
    if i < |lines| && Strip(lines[i]) != [] && ps.toFloat(Key(lines[i])).None? && step(lines[i], meta).Ok? {
      ScanNormalised(lines, i + 1, step(lines[i], meta).value, ps, step);
    }
  }

  /** One header line parsed (`parse_metadata_row`) and merged into the metadata. */
  function Step(line: string, meta: Meta, ps: Parsers): (r: Result<Meta>)
    ensures r.Ok? ==> meta.Keys <= r.value.Keys
    ensures r.Ok? && Normalised(meta) ==> Normalised(r.value)
  {
    var row :- ParseMetadataRow(Key(line), Values(line), ps);
    MergeRow(meta, row.0, row.1)
  }

  /** The number of header lines, defined on its own: the position of the first line that is not one. */
  function HeaderLength(lines: seq<string>, ps: Parsers): (h: nat)
    ensures h <= |lines|
    ensures forall k | 0 <= k < h :: IsHeaderLine(lines[k], ps)
    ensures h < |lines| ==> !IsHeaderLine(lines[h], ps)
  {
    if lines == [] || !IsHeaderLine(lines[0], ps) then 0
    else
      var h := HeaderLength(lines[1..], ps);
      assert forall k | 1 <= k < h + 1 :: lines[k] == lines[1..][k - 1];
      h + 1
  }

  /** Where the data starts: after the header lines, and after the blank line that ends them if there is one. */
  function StartLine(lines: seq<string>, ps: Parsers): nat {
    var h := HeaderLength(lines, ps);
    if h < |lines| && Strip(lines[h]) == [] then h + 1 else h
  }

  /** A successful scan from any header position stops at `StartLine`, whatever a step does. */
  lemma {:induction false} ScanStartLine(lines: seq<string>, i: nat, meta: Meta, ps: Parsers, step: RowStep)
    requires i <= HeaderLength(lines, ps)
    requires Scan(lines, i, meta, ps, step).Ok?
    ensures Scan(lines, i, meta, ps, step).value.1 == StartLine(lines, ps)
    decreases |lines| - i
  {
    if i < HeaderLength(lines, ps) {
      ScanAtHeader(lines, i, meta, ps, step);
      ScanStartLine(lines, i + 1, step(lines[i], meta).value, ps, step);
    } else {
      StopAtStartLine(lines, i, meta, ps, step);
    }
  }

  /** At the end of the header lines the scan stops at `StartLine`. */
  lemma StopAtStartLine(lines: seq<string>, i: nat, meta: Meta, ps: Parsers, step: RowStep)
    requires i == HeaderLength(lines, ps)
    ensures Scan(lines, i, meta, ps, step) == Ok((meta, StartLine(lines, ps)))
  {
    if i < |lines| {
      ScanAtEnd(lines, i, meta, ps, step);
    }
  }

  /** The scan never looks past the first line that is not a header line: what follows it is irrelevant. */
  lemma {:induction false} ScanIgnoresRest(lines: seq<string>, more: seq<string>, i: nat, meta: Meta, ps: Parsers, step: RowStep)
    requires HeaderLength(lines, ps) < |lines|
    requires i <= HeaderLength(lines, ps)
    ensures Scan(lines + more, i, meta, ps, step) == Scan(lines, i, meta, ps, step)
    decreases |lines| - i
  {
    if i < HeaderLength(lines, ps) {
      var m := step(lines[i], meta);
      if m.Ok? {
        ScanIgnoresRest(lines, more, i + 1, m.value, ps, step);
      }
      HeaderAlike(lines, more, i, meta, ps, step);
    } else {
      EndAlike(lines, more, i, meta, ps, step);
    }
  }

  /** At a header line the scans with and without the extra lines take the same step. */
  lemma HeaderAlike(lines: seq<string>, more: seq<string>, i: nat, meta: Meta, ps: Parsers, step: RowStep)
    requires i < HeaderLength(lines, ps)
    ensures step(lines[i], meta).Err? ==> Scan(lines + more, i, meta, ps, step) == Scan(lines, i, meta, ps, step)
    ensures step(lines[i], meta).Ok? ==>
              Scan(lines + more, i, meta, ps, step) == Scan(lines + more, i + 1, step(lines[i], meta).value, ps, step)
              && Scan(lines, i, meta, ps, step) == Scan(lines, i + 1, step(lines[i], meta).value, ps, step)
  {
    var all := lines + more;
    assert all[i] == lines[i];
    assert IsHeaderLine(lines[i], ps);
    ScanAtHeader(lines, i, meta, ps, step);
    ScanAtHeader(all, i, meta, ps, step);
  }

  /** At the first line that is not a header line both scans stop alike. */
  lemma EndAlike(lines: seq<string>, more: seq<string>, i: nat, meta: Meta, ps: Parsers, step: RowStep)
    requires HeaderLength(lines, ps) < |lines|
    requires i == HeaderLength(lines, ps)
    ensures Scan(lines + more, i, meta, ps, step) == Scan(lines, i, meta, ps, step)
  {
    var all := lines + more;
    assert all[i] == lines[i];
    ScanAtEnd(lines, i, meta, ps, step);
    ScanAtEnd(all, i, meta, ps, step);
  }

  /** At a header line the scan takes one step. */
  lemma ScanAtHeader(lines: seq<string>, i: nat, meta: Meta, ps: Parsers, step: RowStep)
    requires i < |lines| && IsHeaderLine(lines[i], ps)
    ensures step(lines[i], meta).Err? ==> Scan(lines, i, meta, ps, step) == Err(step(lines[i], meta).error)
    ensures step(lines[i], meta).Ok? ==> Scan(lines, i, meta, ps, step) == Scan(lines, i + 1, step(lines[i], meta).value, ps, step)
  {
  }

  /** At any other line the scan stops, counting the line only when it is blank. */
  lemma ScanAtEnd(lines: seq<string>, i: nat, meta: Meta, ps: Parsers, step: RowStep)
    requires i < |lines| && !IsHeaderLine(lines[i], ps)
    ensures Scan(lines, i, meta, ps, step) == Ok((meta, if Strip(lines[i]) == [] then i + 1 else i))
  {
  }

  /** The step of `MocapReader`: `Step` with the reader's parsers. */
  function ReaderStep(ps: Parsers): (step: RowStep)
    ensures forall line, m | Normalised(m) && step(line, m).Ok? :: Normalised(step(line, m).value)
  {
    (line, m) => Step(line, m, ps)
  }

  /**
   * `_extract_metadata_from_file` (reader.py:156-196): the scan from an
   * empty `MocapMetaData`, then a ValueError when no `sample_rate` entry
   * was stored; the result is the metadata and the start line.
   */
  function ExtractMetadata(lines: seq<string>, ps: Parsers): (r: Result<(Meta, nat)>)
    ensures r.Ok? ==> "sample_rate" in r.value.0 && Normalised(r.value.0)
    ensures r.Ok? ==> r.value.1 == StartLine(lines, ps)
    ensures var s := Scan(lines, 0, map[], ps, ReaderStep(ps));
            (s.Ok? && "sample_rate" !in s.value.0 ==> r == Err(ValueError))
            && (s.Ok? && "sample_rate" in s.value.0 ==> r == s)
            && (s.Err? ==> r == Err(s.error))
  {
    var scanned :- Scan(lines, 0, map[], ps, ReaderStep(ps));
    ScanStartLine(lines, 0, map[], ps, ReaderStep(ps));
    ScanNormalised(lines, 0, map[], ps, ReaderStep(ps));
    if "sample_rate" !in scanned.0 then Err(ValueError) else Ok(scanned)
  }

  /* ---------------------------------------------------------------- */
  /* Naming the data columns                                           */
  /* ---------------------------------------------------------------- */

  /** The loop of reader.py:225-228: three axis columns appended per marker, in marker order. */
  function AddAxes(cols: seq<string>, markers: seq<string>): (r: seq<string>)
    ensures |r| == |cols| + 3 * |markers|
    ensures r[..|cols|] == cols
    ensures forall k | 0 <= k < |markers| ::
              r[|cols| + 3 * k] == markers[k] + "_x" && r[|cols| + 3 * k + 1] == markers[k] + "_y"
              && r[|cols| + 3 * k + 2] == markers[k] + "_z"
    decreases |markers|
  {
    if markers == [] then cols
    else
      var cols' := cols + [markers[0] + "_x", markers[0] + "_y", markers[0] + "_z"];
      var r := AddAxes(cols', markers[1..]);
      assert forall k | 1 <= k < |markers| :: markers[k] == markers[1..][k - 1] && |cols| + 3 * k == |cols'| + 3 * (k - 1);
      assert r[..|cols|] == r[..|cols'|][..|cols|];
      r
  }

  /** The column names of a QTM export: frame, elapsed, then x, y, z per marker. */
  function ColumnNames(markers: seq<string>): (cols: seq<string>)
    ensures |cols| == 3 * |markers| + 2
    ensures cols[0] == "frame" && cols[1] == "elapsed"
    ensures forall k | 0 <= k < |markers| ::
              cols[3 * k + 2] == markers[k] + "_x" && cols[3 * k + 3] == markers[k] + "_y"
              && cols[3 * k + 4] == markers[k] + "_z"
  {
    var cols := AddAxes(["frame", "elapsed"], markers);
    assert cols[..2] == ["frame", "elapsed"];
    cols
  }

  /** The marker names read back from the column names: each x column without its suffix. */
  function MarkersOf(cols: seq<string>): (markers: seq<string>)
    requires |cols| >= 2 && (|cols| - 2) % 3 == 0
    requires forall k | 0 <= k < (|cols| - 2) / 3 :: |cols[3 * k + 2]| >= 2
  {
    seq((|cols| - 2) / 3, k requires 0 <= k < (|cols| - 2) / 3 => cols[3 * k + 2][..|cols[3 * k + 2]| - 2])
  }

  /** Column naming loses nothing: the markers can be read back from the names. */
  lemma MarkersRoundTrip(markers: seq<string>)
    ensures var cols := ColumnNames(markers);
            |cols| >= 2 && (|cols| - 2) % 3 == 0
            && (forall k | 0 <= k < (|cols| - 2) / 3 :: |cols[3 * k + 2]| >= 2)
            && MarkersOf(cols) == markers
  {
    var cols := ColumnNames(markers);
    assert (|cols| - 2) / 3 == |markers|;
    forall k | 0 <= k < |markers| ensures |cols[3 * k + 2]| >= 2 && cols[3 * k + 2][..|cols[3 * k + 2]| - 2] == markers[k] {
      StripX(markers[k]);
    }
    var back := MarkersOf(cols);
    assert |back| == |markers|;
  }

  /** The x suffix comes off again. */
  lemma StripX(m: string)
    ensures |m + "_x"| == |m| + 2 && (m + "_x")[..|m|] == m
  {
  }

  /** Different marker lists give different column names. */
  lemma ColumnNamesInjective(a: seq<string>, b: seq<string>)
    requires ColumnNames(a) == ColumnNames(b)
    ensures a == b
  {
    MarkersRoundTrip(a);
    MarkersRoundTrip(b);
  }

  /**
   * The markers iterated at reader.py:227: the items of a list, a tuple
   * or a parsed event, or the characters of a string. Each item is put
   * into the f-string through `str`: a string as it is, any other value
   * through `show`, Python's formatting of numbers and containers, which
   * is a parameter. A value that cannot be iterated is a TypeError.
   */
  function MarkerNames(v: MetaValue, show: MetaValue -> string): (r: Result<seq<string>>)
    ensures r.Ok? <==> v.MetaList? || v.MetaTuple? || v.MetaEvent? || v.MetaText?
    ensures v.MetaList? ==> r.Ok? && |r.value| == |v.items| && forall k | 0 <= k < |v.items| :: r.value[k] == PyStr(v.items[k], show)
    ensures v.MetaTuple? ==> r.Ok? && |r.value| == |v.elems| && forall k | 0 <= k < |v.elems| :: r.value[k] == PyStr(v.elems[k], show)
    ensures v.MetaEvent? ==> r.Ok? && r.value == [v.event, show(MetaInt(v.index)), show(MetaFloat(v.time))]
    ensures v.MetaList? && (forall k | 0 <= k < |v.items| :: v.items[k].MetaText?) ==>
              r.Ok? && |r.value| == |v.items| && forall k | 0 <= k < |v.items| :: r.value[k] == v.items[k].s
    ensures v.MetaText? ==> r.Ok? && |r.value| == |v.s| && forall k | 0 <= k < |v.s| :: r.value[k] == [v.s[k]]
    ensures r.Err? ==> r.error == TypeError
  {
    match v
    case MetaList(items) => Ok(PyStrs(items, show))
    case MetaTuple(elems) => Ok(PyStrs(elems, show))
    case MetaEvent(_, _, _) => Ok(PyStrs(EventItems(v), show))
    case MetaText(s) => Ok(seq(|s|, k requires 0 <= k < |s| => [s[k]]))
    case _ => Err(TypeError)
  }

  /** `str(m)` of one marker item: a string is itself. */
  function PyStr(m: MetaValue, show: MetaValue -> string): string {
    if m.MetaText? then m.s else show(m)
  }

  /** `str` of every item, in order. */
  function PyStrs(items: seq<MetaValue>, show: MetaValue -> string): (r: seq<string>)
    ensures |r| == |items| && forall k | 0 <= k < |items| :: r[k] == PyStr(items[k], show)
  {
    seq(|items|, k requires 0 <= k < |items| => PyStr(items[k], show))
  }

  /** `df.set_axis(cols, axis="columns")`: the columns renamed in order; a length mismatch is a ValueError. */
  function SetAxis(t: WfTable, cols: seq<string>): (r: Result<WfTable>)
    ensures r.Ok? <==> |cols| == t.Cols()
    ensures r.Err? ==> r.error == ValueError
    ensures r.Ok? ==> r.value.index == t.index && r.value.Labels() == cols
    ensures r.Ok? ==> forall c | 0 <= c < |cols| :: r.value.columns[c].cells == t.columns[c].cells
  {
    if |cols| != t.Cols() then Err(ValueError)
    else
      var u := Table(t.index, seq(|cols|, c requires 0 <= c < |cols| => Column(cols[c], t.columns[c].cells)));
      assert u.Labels() == cols;
      Ok(u)
  }

  /** A cell used as a row label. */
  function LabelOf(c: Cell): Label {
    match c
    case Num(x) => NumLabel(x)
    case Txt(s) => StrLabel(s)
  }

  /** `df.set_index(name)`: the first column with that name becomes the index and leaves the columns. */
  function SetIndex(t: WfTable, name: string): (r: Result<WfTable>)
    ensures r.Ok? <==> name in t.Labels()
    ensures r.Err? ==> r.error == KeyError
    ensures r.Ok? ==> var c := FindLabel(t.columns, name).value;
                      r.value.Rows() == t.Rows()
                      && (forall i | 0 <= i < t.Rows() :: r.value.index[i] == LabelOf(t.columns[c].cells[i]))
                      && r.value.columns == t.columns[..c] + t.columns[c + 1..]
  {
    match FindLabel(t.columns, name)
    case None =>
      assert name !in t.Labels();
      Err(KeyError)
    case Some(c) =>
      var col := t.columns[c].cells;
      var rest := t.columns[..c] + t.columns[c + 1..];
      var u := Table(seq(|col|, i requires 0 <= i < |col| => LabelOf(col[i])), rest);
      assert forall d | 0 <= d < |rest| :: rest[d] in t.columns;
      assert t.Labels()[c] == name;
      Ok(u)
  }

  /**
   * The columns of a QTM data section named after the markers
   * (`set_axis`, reader.py:225-229) and the frame column moved into the
   * index (`set_index`, reader.py:232): one index label per frame, then
   * elapsed and the x, y, z columns of each marker in order.
   */
  function NamedFrame(raw: WfTable, markers: seq<string>): (r: Result<WfTable>)
    ensures r.Ok? <==> raw.Cols() == 3 * |markers| + 2
    ensures r.Err? ==> r.error == ValueError
    ensures r.Ok? ==>
              r.value.Rows() == raw.Rows() && r.value.Cols() == 3 * |markers| + 1
              && (forall i | 0 <= i < raw.Rows() :: r.value.index[i] == LabelOf(raw.columns[0].cells[i]))
              && r.value.columns[0] == Column("elapsed", raw.columns[1].cells)
              && forall k | 0 <= k < |markers| ::
                   r.value.columns[3 * k + 1] == Column(markers[k] + "_x", raw.columns[3 * k + 2].cells)
                   && r.value.columns[3 * k + 2] == Column(markers[k] + "_y", raw.columns[3 * k + 3].cells)
                   && r.value.columns[3 * k + 3] == Column(markers[k] + "_z", raw.columns[3 * k + 4].cells)
  {
    var cols := ColumnNames(markers);
    var named :- SetAxis(raw, cols);
    NamedColumns(raw, named, cols);
    assert named.Labels()[0] == "frame";
    assert FindLabel(named.columns, "frame") == Some(0);
    var r := SetIndex(named, "frame");
    assert r.Ok? && r.value.columns == named.columns[1..];
    r
  }

  /** Each renamed column is the raw column under its new name. */
  lemma NamedColumns(raw: WfTable, named: WfTable, cols: seq<string>)
    requires |cols| == raw.Cols() && named.Labels() == cols
    requires |named.columns| == |cols|
    requires forall c | 0 <= c < |cols| :: named.columns[c].cells == raw.columns[c].cells
    ensures forall c | 0 <= c < |cols| :: named.columns[c] == Column(cols[c], raw.columns[c].cells)
  {
    forall c | 0 <= c < |cols| ensures named.columns[c] == Column(cols[c], raw.columns[c].cells) {
      assert named.Labels()[c] == named.columns[c].name;
    }
  }

  /**
   * `_read_qtm_tsv` after `read_csv` (reader.py:224-233): the marker
   * names come from the metadata (a KeyError when there are none) and
   * name the columns of the data section.
   */
  function NameData(meta: Meta, raw: WfTable, show: MetaValue -> string): (r: Result<WfTable>)
    ensures GetItem(meta, "marker_names").Err? ==> r == Err(KeyError)
    ensures GetItem(meta, "marker_names").Ok? && MarkerNames(GetItem(meta, "marker_names").value, show).Err? ==> r == Err(TypeError)
    ensures r.Ok? ==> GetItem(meta, "marker_names").Ok? && MarkerNames(GetItem(meta, "marker_names").value, show).Ok?
    ensures GetItem(meta, "marker_names").Ok? && MarkerNames(GetItem(meta, "marker_names").value, show).Ok? ==>
              r == NamedFrame(raw, MarkerNames(GetItem(meta, "marker_names").value, show).value)
  {
    var names :- GetItem(meta, "marker_names");
    var markers :- MarkerNames(names, show);
    NamedFrame(raw, markers)
  }

  /* ---------------------------------------------------------------- */
  /* The reader                                                        */
  /* ---------------------------------------------------------------- */

  /** Where a reader reads from: a path (its suffix and its lines), a DataFrame, or anything else. */
  datatype Source = PathSource(suffix: string, lines: seq<string>) | FrameSource(frame: WfTable) | OtherSource

  /** A constructed `MocapReader`. */
  datatype MocapReader = MocapReader(
    source: Source, name: string, dataId: string, sampleRate: Option<real>, metadata: Meta, startLine: nat)

  /**
   * `MocapReader.__init__` (reader.py:113-137, with the base class at
   * 55-62): the id is kept or generated from the name; a path source has
   * its header scanned now, a DataFrame source gets empty metadata, and
   * any other source is a NotImplementedError.
   */
  function NewReader(source: Source, name: string, dataId: Option<string>, sampleRate: Option<real>,
                     uuid: string, ps: Parsers): (r: Result<MocapReader>)
    ensures source.OtherSource? ==> r == Err(NotImplementedError)
    ensures source.FrameSource? ==> r.Ok? && r.value.metadata == map[] && r.value.startLine == 0
    ensures source.PathSource? ==> (r.Ok? <==> ExtractMetadata(source.lines, ps).Ok?)
    ensures source.PathSource? && r.Ok? ==> r.value.metadata == ExtractMetadata(source.lines, ps).value.0
                                            && r.value.startLine == StartLine(source.lines, ps)
    ensures source.PathSource? && r.Err? ==> r.error == ExtractMetadata(source.lines, ps).error
    ensures r.Ok? ==> r.value.source == source && r.value.name == name && r.value.sampleRate == sampleRate
    ensures r.Ok? ==> r.value.dataId == MakeData(NoneValue, map[], name, dataId, uuid).dataId
  {
    var id := MakeData(NoneValue, map[], name, dataId, uuid).dataId;
    match source
    case FrameSource(_) => Ok(MocapReader(source, name, id, sampleRate, map[], 0))
    case PathSource(_, lines) =>
      var header :- ExtractMetadata(lines, ps);
      Ok(MocapReader(source, name, id, sampleRate, header.0, header.1))
    case OtherSource => Err(NotImplementedError)
  }

  /**
   * `MocapReader.read` (reader.py:240-260): a DataFrame source is wrapped
   * as it is; a path must have the `.tsv` suffix (ValueError otherwise),
   * and its data section, read with the start line as the skip count, is
   * named after the markers.
   */
  function Read(reader: MocapReader, csv: (seq<string>, nat) -> Result<WfTable>, show: MetaValue -> string): (r: Result<EmpiricalData>)
    ensures reader.source.FrameSource? ==>
              r == Ok(EmpiricalData(Frame(reader.source.frame), reader.metadata, reader.name, reader.dataId))
    ensures reader.source.PathSource? && reader.source.suffix != ".tsv" ==> r == Err(ValueError)
    ensures reader.source.PathSource? && reader.source.suffix == ".tsv" ==>
              var raw := csv(reader.source.lines, reader.startLine);
              (r.Ok? <==> raw.Ok? && NameData(reader.metadata, raw.value, show).Ok?)
              && (r.Ok? ==> r.value == EmpiricalData(Frame(NameData(reader.metadata, raw.value, show).value),
                                                      reader.metadata, reader.name, reader.dataId))
    ensures reader.source.OtherSource? ==> r == Err(NotImplementedError)
  {
    match reader.source
    case FrameSource(f) => Ok(EmpiricalData(Frame(f), reader.metadata, reader.name, reader.dataId))
    case PathSource(suffix, lines) =>
      if suffix != ".tsv" then Err(ValueError)
      else
        var raw :- csv(lines, reader.startLine);
        var t :- NameData(reader.metadata, raw, show);
        Ok(EmpiricalData(Frame(t), reader.metadata, reader.name, reader.dataId))
    case OtherSource => Err(NotImplementedError)
  }
}
