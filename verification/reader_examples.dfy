/**
 * Worked header scans: a header with a frequency and three events, as in
 * the reader's events fixture, and the dispatch of `read` on its source.
 */
module ReaderExamples {
  import opened Errors
  import opened Tables
  import opened SegmentIO
  import opened Datastructs
  import opened Qtm
  import opened Empirical
  import opened Text
  import opened Reader

  /** A line of the file: its fields joined by tabs. */
  function Row(fields: seq<string>): (line: string)
    requires |fields| >= 1
    ensures line == Join(fields, '\t')
  {
    Join(fields, '\t')
  }

  /** A row whose fields hold no tab, whose first field is not blank-led and whose last does not end in a blank. */
  predicate PlainRow(fields: seq<string>) {
    |fields| >= 1 && fields[0] != [] && !IsSpace(fields[0][0])
    && fields[|fields| - 1] != [] && !IsSpace(fields[|fields| - 1][|fields[|fields| - 1]| - 1])
    && forall k | 0 <= k < |fields| :: '\t' !in fields[k]
  }

  /** Joining and then stripping and splitting such a row gives its key and values back. */
  lemma RowFields(fields: seq<string>)
    requires PlainRow(fields)
    ensures Strip(Row(fields)) != []
    ensures Key(Row(fields)) == fields[0] && Values(Row(fields)) == fields[1..]
  {
    var line := Row(fields);
    JoinEnds(fields, '\t');
    StripTrimmed(line);
    SplitJoin(fields, '\t');
  }

  /** A join starts with its first field and ends with its last. */
  lemma {:induction false} JoinEnds(fields: seq<string>, sep: char)
    requires |fields| >= 1 && fields[0] != [] && fields[|fields| - 1] != []
    ensures var s := Join(fields, sep);
            s != [] && s[0] == fields[0][0] && s[|s| - 1] == fields[|fields| - 1][|fields[|fields| - 1]| - 1]
    decreases |fields|
  {
    JoinLast(fields, sep);
    if |fields| > 1 {
      assert Join(fields, sep) == fields[0] + ([sep] + Join(fields[1..], sep));
    }
  }

  /** A join of several fields ends with the last field. */
  lemma {:induction false} JoinLast(fields: seq<string>, sep: char)
    requires |fields| >= 1 && fields[|fields| - 1] != []
    ensures var s := Join(fields, sep);
            s != [] && s[|s| - 1] == fields[|fields| - 1][|fields[|fields| - 1]| - 1]
    decreases |fields|
  {
    if |fields| > 1 {
      var rest := fields[1..];
      assert rest[|rest| - 1] == fields[|fields| - 1];
      JoinLast(rest, sep);
    }
  }

  /** `event` and `sample_rate` are stored under their own names. */
  lemma StoredNames()
    ensures Normalise("event") == "event" && Normalise("sample_rate") == "sample_rate"
  {
    EventIsNoEntry();
    MocapKeeps();
    assert Contains(MocapEntries, "sample_rate");
  }

  /** `event` is neither an entry name nor a stored name. */
  lemma EventIsNoEntry()
    ensures !Contains(MocapEntries, "event")
  {
    EventNoName();
    EventNoValue();
  }

  lemma EventNoName()
    ensures FindMember(MocapEntries, "event") == None
  {
  }

  lemma EventNoValue()
    ensures !IsValue(MocapEntries, "event")
  {
  }

  /** The parsers the example file needs: which fields are numbers and what they are. */
  predicate ExampleParsers(ps: Parsers) {
    ps.toFloat("FREQUENCY").None? && ps.toFloat("EVENT").None? && ps.toFloat("1") == Some(1.0)
    && ps.toFloat("300") == Some(300.0)
    && ps.toInt("1") == Some(1) && ps.toInt("2") == Some(2) && ps.toInt("3") == Some(3)
    && ps.toFloat("0.5") == Some(0.5) && ps.toFloat("1.0") == Some(1.0) && ps.toFloat("1.5") == Some(1.5)
  }

  /** The frequency row stores the sample rate. */
  lemma FrequencyStep(ps: Parsers, meta: Meta)
    requires ps.toFloat("300") == Some(300.0) && "sample_rate" !in meta
    ensures Step(Row(["FREQUENCY", "300"]), meta, ps) == Ok(meta["sample_rate" := MetaFloat(300.0)])
  {
    RowFields(["FREQUENCY", "300"]);
    assert ["FREQUENCY", "300"][1..] == ["300"];
    FrequencyParse(ps);
    StoredNames();
  }

  /** The frequency row parses to the sample rate. */
  lemma FrequencyParse(ps: Parsers)
    requires ps.toFloat("300") == Some(300.0)
    ensures ParseMetadataRow("FREQUENCY", ["300"], ps) == Ok(("sample_rate", MetaFloat(300.0)))
  {
    assert "FREQUENCY" in MetadataMap && MetadataMap["FREQUENCY"] == MetaSpec("sample_rate", FloatOfFirst);
  }

  /** An event row parses to a one-event list under `event`. */
  lemma EventRow(ps: Parsers, name: string, index: string, time: string)
    requires PlainRow(["EVENT", name, index, time])
    requires ps.toInt(index).Some? && ps.toFloat(time).Some?
    ensures Strip(Row(["EVENT", name, index, time])) != [] && Key(Row(["EVENT", name, index, time])) == "EVENT"
    ensures ParseMetadataRow(Key(Row(["EVENT", name, index, time])), Values(Row(["EVENT", name, index, time])), ps)
            == Ok(("event", MetaList([MetaEvent(name, ps.toInt(index).value, ps.toFloat(time).value)])))
  {
    RowFields(["EVENT", name, index, time]);
    assert ["EVENT", name, index, time][1..] == [name, index, time];
    assert "EVENT" in MetadataMap && MetadataMap["EVENT"] == MetaSpec("event", WholeRow(EventHandler));
  }

  /** An event row merges a one-event list under `event`. */
  lemma EventMerge(ps: Parsers, meta: Meta, name: string, index: string, time: string)
    requires PlainRow(["EVENT", name, index, time])
    requires ps.toInt(index).Some? && ps.toFloat(time).Some?
    ensures Step(Row(["EVENT", name, index, time]), meta, ps)
            == MergeRow(meta, "event", MetaList([MetaEvent(name, ps.toInt(index).value, ps.toFloat(time).value)]))
  {
    EventRow(ps, name, index, time);
    StoredNames();
  }

  /** Merging a one-item list under a stored name appends to the list stored there, or stores it. */
  lemma MergeOne(meta: Meta, k: string, ev: MetaValue)
    requires Normalised(meta) && Normalise(k) == k
    requires k in meta ==> meta[k].MetaList?
    ensures var before := if k in meta then meta[k].items else [];
            MergeRow(meta, k, MetaList([ev])) == Ok(meta[k := MetaList(before + [ev])])
  {
    if k in meta {
      assert PyAdd(meta[k], MetaList([ev])) == Ok(MetaList(meta[k].items + [ev]));
    } else {
      assert SetItem(meta, k, MetaList([ev])) == meta[k := MetaList([ev])];
      assert [] + [ev] == [ev];
    }
  }

  /** Merging an event list appends to a stored list, or stores it. */
  lemma MergeEvents(meta: Meta, ev: MetaValue)
    requires Normalised(meta)
    requires "event" in meta ==> meta["event"].MetaList?
    ensures var before := if "event" in meta then meta["event"].items else [];
            MergeRow(meta, "event", MetaList([ev])) == Ok(meta["event" := MetaList(before + [ev])])
  {
    StoredNames();
    MergeOne(meta, "event", ev);
  }

  /** A first event row stores its event; a later one appends to the stored list. */
  lemma EventStep(ps: Parsers, meta: Meta, name: string, index: string, time: string)
    requires PlainRow(["EVENT", name, index, time])
    requires ps.toInt(index).Some? && ps.toFloat(time).Some?
    requires Normalised(meta)
    requires "event" in meta ==> meta["event"].MetaList?
    ensures var ev := MetaEvent(name, ps.toInt(index).value, ps.toFloat(time).value);
            var before := if "event" in meta then meta["event"].items else [];
            Step(Row(["EVENT", name, index, time]), meta, ps) == Ok(meta["event" := MetaList(before + [ev])])
  {
    EventMerge(ps, meta, name, index, time);
    MergeEvents(meta, MetaEvent(name, ps.toInt(index).value, ps.toFloat(time).value));
  }


  /** The header of the events fixture in small: a frequency, three events, then the first data line. */
  function EventLines(): seq<string> {
    [Row(["FREQUENCY", "300"]), Row(["EVENT", "a", "1", "0.5"]), Row(["EVENT", "b", "2", "1.0"]),
     Row(["EVENT", "c", "3", "1.5"]), Row(["1", "0.0"])]
  }

  /**
   * Scanning it stores the sample rate and the three events in order,
   * and the data starts at line 4: the data line is not metadata.
   */
  lemma EventsExample(ps: Parsers)
    requires ExampleParsers(ps)
    ensures ExtractMetadata(EventLines(), ps)
            == Ok((map["sample_rate" := MetaFloat(300.0),
                       "event" := MetaList([MetaEvent("a", 1, 0.5), MetaEvent("b", 2, 1.0), MetaEvent("c", 3, 1.5)])], 4))
  {
    var lines := EventLines();
    EventsScan(lines, ps);
    ScanStartLine(lines, 0, map[], ps, ReaderStep(ps));
  }

  /** The scan of any five lines laid out like `EventLines`. */
  lemma EventsScan(lines: seq<string>, ps: Parsers)
    requires ExampleParsers(ps) && |lines| == 5
    requires lines[0] == Row(["FREQUENCY", "300"]) && lines[1] == Row(["EVENT", "a", "1", "0.5"])
    requires lines[2] == Row(["EVENT", "b", "2", "1.0"]) && lines[3] == Row(["EVENT", "c", "3", "1.5"])
    requires lines[4] == Row(["1", "0.0"])
    ensures Scan(lines, 0, map[], ps, ReaderStep(ps))
            == Ok((map["sample_rate" := MetaFloat(300.0),
                       "event" := MetaList([MetaEvent("a", 1, 0.5), MetaEvent("b", 2, 1.0), MetaEvent("c", 3, 1.5)])], 4))
  {
    var m1 := map["sample_rate" := MetaFloat(300.0)];
    var e1 := MetaEvent("a", 1, 0.5);
    FrequencyLine(lines, ps);
    EventRowsPlain();
    RateOnly();
    FirstEvent(ps, m1, "a", "1", "0.5");
    HeaderLineStep(lines, 1, ps, ["EVENT", "a", "1", "0.5"], m1, m1["event" := MetaList([e1])]);
    EventsScanRest(lines, ps);
  }

  /** From line 2 on: two more events, then the data line. */
  lemma EventsScanRest(lines: seq<string>, ps: Parsers)
    requires ExampleParsers(ps) && |lines| == 5
    requires lines[2] == Row(["EVENT", "b", "2", "1.0"]) && lines[3] == Row(["EVENT", "c", "3", "1.5"])
    requires lines[4] == Row(["1", "0.0"])
    ensures var m1 := map["sample_rate" := MetaFloat(300.0)];
            Scan(lines, 2, m1["event" := MetaList([MetaEvent("a", 1, 0.5)])], ps, ReaderStep(ps))
            == Ok((m1["event" := MetaList([MetaEvent("a", 1, 0.5), MetaEvent("b", 2, 1.0), MetaEvent("c", 3, 1.5)])], 4))
  {
    SecondEventLine(lines, ps);
    EventsScanLast(lines, ps);
  }

  /** Line 2 appends the second event. */
  lemma SecondEventLine(lines: seq<string>, ps: Parsers)
    requires ExampleParsers(ps) && |lines| == 5
    requires lines[2] == Row(["EVENT", "b", "2", "1.0"])
    ensures var m1 := map["sample_rate" := MetaFloat(300.0)];
            Scan(lines, 2, m1["event" := MetaList([MetaEvent("a", 1, 0.5)])], ps, ReaderStep(ps))
            == Scan(lines, 3, m1["event" := MetaList([MetaEvent("a", 1, 0.5), MetaEvent("b", 2, 1.0)])], ps, ReaderStep(ps))
  {
    var m1 := map["sample_rate" := MetaFloat(300.0)];
    var e1 := MetaEvent("a", 1, 0.5);
    var e2 := MetaEvent("b", 2, 1.0);
    EventRowsPlain();
    RateOnly();
    EventLine(lines, 2, ps, m1, [e1], "b", "2", "1.0");
    assert [e1] + [e2] == [e1, e2];
  }

  /** At an event line the scan goes on with the event appended to the stored list. */
  lemma EventLine(lines: seq<string>, k: nat, ps: Parsers, base: Meta, before: seq<MetaValue>, name: string, index: string, time: string)
    requires k < |lines| && lines[k] == Row(["EVENT", name, index, time]) && PlainRow(["EVENT", name, index, time])
    requires ps.toFloat("EVENT").None? && ps.toInt(index).Some? && ps.toFloat(time).Some?
    requires Normalised(base)
    ensures var ev := MetaEvent(name, ps.toInt(index).value, ps.toFloat(time).value);
            Scan(lines, k, base["event" := MetaList(before)], ps, ReaderStep(ps))
            == Scan(lines, k + 1, base["event" := MetaList(before + [ev])], ps, ReaderStep(ps))
  {
    var ev := MetaEvent(name, ps.toInt(index).value, ps.toFloat(time).value);
    LaterEvent(ps, base, before, name, index, time);
    HeaderLineStep(lines, k, ps, ["EVENT", name, index, time], base["event" := MetaList(before)], base["event" := MetaList(before + [ev])]);
  }

  /** From line 3 on: the last event, then the data line. */
  lemma EventsScanLast(lines: seq<string>, ps: Parsers)
    requires ExampleParsers(ps) && |lines| == 5
    requires lines[3] == Row(["EVENT", "c", "3", "1.5"]) && lines[4] == Row(["1", "0.0"])
    ensures var m1 := map["sample_rate" := MetaFloat(300.0)];
            Scan(lines, 3, m1["event" := MetaList([MetaEvent("a", 1, 0.5), MetaEvent("b", 2, 1.0)])], ps, ReaderStep(ps))
            == Ok((m1["event" := MetaList([MetaEvent("a", 1, 0.5), MetaEvent("b", 2, 1.0), MetaEvent("c", 3, 1.5)])], 4))
  {
    var m1 := map["sample_rate" := MetaFloat(300.0)];
    var all := [MetaEvent("a", 1, 0.5), MetaEvent("b", 2, 1.0), MetaEvent("c", 3, 1.5)];
    ThirdEventLine(lines, ps);
    DataLine(lines, 4, ps, m1["event" := MetaList(all)]);
  }

  /** Line 3 appends the third event. */
  lemma ThirdEventLine(lines: seq<string>, ps: Parsers)
    requires ExampleParsers(ps) && |lines| == 5
    requires lines[3] == Row(["EVENT", "c", "3", "1.5"])
    ensures var m1 := map["sample_rate" := MetaFloat(300.0)];
            Scan(lines, 3, m1["event" := MetaList([MetaEvent("a", 1, 0.5), MetaEvent("b", 2, 1.0)])], ps, ReaderStep(ps))
            == Scan(lines, 4, m1["event" := MetaList([MetaEvent("a", 1, 0.5), MetaEvent("b", 2, 1.0), MetaEvent("c", 3, 1.5)])], ps, ReaderStep(ps))
  {
    var m1 := map["sample_rate" := MetaFloat(300.0)];
    var e1 := MetaEvent("a", 1, 0.5);
    var e2 := MetaEvent("b", 2, 1.0);
    var e3 := MetaEvent("c", 3, 1.5);
    EventRowsPlain();
    RateOnly();
    EventLine(lines, 3, ps, m1, [e1, e2], "c", "3", "1.5");
    assert [e1, e2] + [e3] == [e1, e2, e3];
  }

  /** The three event rows of the example are plain rows. */
  lemma EventRowsPlain()
    ensures PlainRow(["EVENT", "a", "1", "0.5"]) && PlainRow(["EVENT", "b", "2", "1.0"]) && PlainRow(["EVENT", "c", "3", "1.5"])
  {
  }

  /** A frequency line stores the sample rate. */
  lemma FrequencyLine(lines: seq<string>, ps: Parsers)
    requires ExampleParsers(ps) && |lines| >= 1 && lines[0] == Row(["FREQUENCY", "300"])
    ensures Scan(lines, 0, map[], ps, ReaderStep(ps))
            == Scan(lines, 1, map["sample_rate" := MetaFloat(300.0)], ps, ReaderStep(ps))
  {
    HeaderRow(lines, 0, ps, ["FREQUENCY", "300"]);
    FrequencyReaderStep(lines[0], ps);
    ScanAtHeader(lines, 0, map[], ps, ReaderStep(ps));
  }

  /** A plain row whose key is not a number is a header line. */
  lemma HeaderRow(lines: seq<string>, k: nat, ps: Parsers, fields: seq<string>)
    requires PlainRow(fields) && k < |lines| && lines[k] == Row(fields) && ps.toFloat(fields[0]).None?
    ensures IsHeaderLine(lines[k], ps)
  {
    RowFields(fields);
  }

  /** The reader's step on the frequency line. */
  lemma FrequencyReaderStep(line: string, ps: Parsers)
    requires ExampleParsers(ps) && line == Row(["FREQUENCY", "300"])
    ensures ReaderStep(ps)(line, map[]) == Ok(map["sample_rate" := MetaFloat(300.0)])
  {
    FrequencyStep(ps, map[]);
  }

  /** The reader's step is `Step` with its parsers. */
  lemma ReaderStepIs(ps: Parsers, line: string, m: Meta)
    ensures ReaderStep(ps)(line, m) == Step(line, m, ps)
  {
  }

  /** The metadata after the frequency row: the sample rate alone, stored under its own name. */
  lemma RateOnly()
    ensures var base := map["sample_rate" := MetaFloat(300.0)];
            Normalised(base) && "event" !in base
  {
    StoredNames();
  }

  /** Adding an event list keeps metadata normalised. */
  lemma WithEvents(base: Meta, before: seq<MetaValue>)
    requires Normalised(base)
    ensures Normalised(base["event" := MetaList(before)])
  {
    StoredNames();
  }

  /** The first event row stores a one-event list. */
  lemma FirstEvent(ps: Parsers, base: Meta, name: string, index: string, time: string)
    requires PlainRow(["EVENT", name, index, time])
    requires ps.toInt(index).Some? && ps.toFloat(time).Some?
    requires Normalised(base) && "event" !in base
    ensures var ev := MetaEvent(name, ps.toInt(index).value, ps.toFloat(time).value);
            Step(Row(["EVENT", name, index, time]), base, ps) == Ok(base["event" := MetaList([ev])])
  {
    EventStep(ps, base, name, index, time);
    var ev := MetaEvent(name, ps.toInt(index).value, ps.toFloat(time).value);
    assert [] + [ev] == [ev];
  }

  /** A later event row appends to the stored list. */
  lemma LaterEvent(ps: Parsers, base: Meta, before: seq<MetaValue>, name: string, index: string, time: string)
    requires PlainRow(["EVENT", name, index, time])
    requires ps.toInt(index).Some? && ps.toFloat(time).Some?
    requires Normalised(base)
    ensures var ev := MetaEvent(name, ps.toInt(index).value, ps.toFloat(time).value);
            Step(Row(["EVENT", name, index, time]), base["event" := MetaList(before)], ps)
            == Ok(base["event" := MetaList(before + [ev])])
  {
    var meta := base["event" := MetaList(before)];
    var ev := MetaEvent(name, ps.toInt(index).value, ps.toFloat(time).value);
    WithEvents(base, before);
    EventStep(ps, meta, name, index, time);
    Overwrite(base, "event", MetaList(before), MetaList(before + [ev]));
  }

  /** Storing twice under one key keeps the second value only. */
  lemma Overwrite(m: Meta, k: string, x: MetaValue, y: MetaValue)
    ensures m[k := x][k := y] == m[k := y]
  {
  }

  /** At a header line whose step succeeds, the scan goes on from the next line with the step's result. */
  lemma HeaderLineStep(lines: seq<string>, k: nat, ps: Parsers, fields: seq<string>, meta: Meta, after: Meta)
    requires PlainRow(fields) && k < |lines| && lines[k] == Row(fields) && ps.toFloat(fields[0]).None?
    requires Step(lines[k], meta, ps) == Ok(after)
    ensures Scan(lines, k, meta, ps, ReaderStep(ps)) == Scan(lines, k + 1, after, ps, ReaderStep(ps))
  {
    HeaderRow(lines, k, ps, fields);
    ReaderStepIs(ps, lines[k], meta);
    ScanAtHeader(lines, k, meta, ps, ReaderStep(ps));
  }

  /** A line whose key is a number ends the scan without counting it. */
  lemma DataLine(lines: seq<string>, k: nat, ps: Parsers, meta: Meta)
    requires ExampleParsers(ps) && k < |lines| && lines[k] == Row(["1", "0.0"])
    ensures Scan(lines, k, meta, ps, ReaderStep(ps)) == Ok((meta, k))
  {
    DataRow(lines, k, ps);
    ScanAtEnd(lines, k, meta, ps, ReaderStep(ps));
  }

  /** The data line is neither blank nor a header line. */
  lemma DataRow(lines: seq<string>, k: nat, ps: Parsers)
    requires ExampleParsers(ps) && k < |lines| && lines[k] == Row(["1", "0.0"])
    ensures Strip(lines[k]) != [] && !IsHeaderLine(lines[k], ps)
  {
    assert PlainRow(["1", "0.0"]);
    RowFields(["1", "0.0"]);
  }

  /**
   * A parsed event is a tuple: added to a list it extends the list by its
   * three fields, added to a tuple it concatenates, and it cannot take a
   * list.
   */
  lemma EventIsATuple()
    ensures PyAdd(MetaList([MetaText("x")]), MetaEvent("a", 1, 0.5))
            == Ok(MetaList([MetaText("x"), MetaText("a"), MetaInt(1), MetaFloat(0.5)]))
    ensures PyAdd(MetaTuple([MetaInt(0)]), MetaEvent("a", 1, 0.5))
            == Ok(MetaTuple([MetaInt(0), MetaText("a"), MetaInt(1), MetaFloat(0.5)]))
    ensures PyAdd(MetaEvent("a", 1, 0.5), MetaList([])) == Err(TypeError)
  {
    assert [MetaText("x")] + EventItems(MetaEvent("a", 1, 0.5))
           == [MetaText("x"), MetaText("a"), MetaInt(1), MetaFloat(0.5)];
    assert [MetaInt(0)] + EventItems(MetaEvent("a", 1, 0.5))
           == [MetaInt(0), MetaText("a"), MetaInt(1), MetaFloat(0.5)];
  }

  /** Marker names that are not strings are formatted into the column names; a number is not iterable. */
  lemma MarkersFormatted(show: MetaValue -> string)
    ensures MarkerNames(MetaList([MetaText("head"), MetaInt(7)]), show) == Ok(["head", show(MetaInt(7))])
    ensures MarkerNames(MetaEvent("a", 1, 0.5), show) == Ok(["a", show(MetaInt(1)), show(MetaFloat(0.5))])
    ensures MarkerNames(MetaInt(7), show) == Err(TypeError)
  {
    var r := MarkerNames(MetaList([MetaText("head"), MetaInt(7)]), show).value;
    assert |r| == 2 && r[0] == "head" && r[1] == show(MetaInt(7));
    assert r == ["head", show(MetaInt(7))];
  }
}
