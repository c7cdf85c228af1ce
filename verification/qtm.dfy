/**
 * Parsing of the header rows of a QTM `.tsv` export
 * (src/mopipe/core/common/qtm.py): the table of known header keys, the
 * conversion each key's values go through, and the small parsers for
 * trajectory types, events and marker names. Converting text to a number
 * and parsing a time stamp are foreign (`int`, `float`, `datetime`) and
 * are parameters.
 */
module Qtm {
  import opened Errors
  import opened Datastructs

  /** Python's `int(s)`, `float(s)` and `parse_time_stamp`, supplied by the caller. */
  datatype Parsers = Parsers(
    toInt: string -> Option<int>,
    toFloat: string -> Option<real>,
    timeStamp: seq<string> -> Result<MetaValue>)

  /** ASCII lower-casing (`str.lower` on the names QTM writes). */
  function Lower(s: string): (r: string)
    ensures |r| == |s|
    ensures forall i | 0 <= i < |s| :: r[i] == (if 'A' <= s[i] <= 'Z' then (s[i] as int + 32) as char else s[i])
  {
    seq(|s|, i requires 0 <= i < |s| => if 'A' <= s[i] <= 'Z' then (s[i] as int + 32) as char else s[i])
  }

  /** `TrajectoryType.from_str` (qtm.py:16-37): case-insensitive "measured" or "mixed". */
  function TrajectoryFromStr(s: string): (r: Result<TrajectoryType>)
    ensures r == Ok(Measured) <==> Lower(s) == "measured"
    ensures r == Ok(Mixed) <==> Lower(s) == "mixed"
    ensures r.Err? <==> Lower(s) != "measured" && Lower(s) != "mixed"
    ensures r.Err? ==> r.error == ValueError
  {
    var l := Lower(s);
    if l == "measured" then Ok(Measured)
    else if l == "mixed" then Ok(Mixed)
    else Err(ValueError)
  }

  /** The name QTM writes for a trajectory type. */
  function TrajectoryName(t: TrajectoryType): string {
    match t
    case Measured => "Measured"
    case Mixed => "Mixed"
  }

  /** Reading back a written trajectory type, in any letter case, gives that type. */
  lemma TrajectoryRoundTrip(t: TrajectoryType, s: string)
    requires Lower(s) == Lower(TrajectoryName(t))
    ensures TrajectoryFromStr(s) == Ok(t)
  {
    match t
    case Measured => assert Lower("Measured") == "measured";
    case Mixed => assert Lower("Mixed") == "mixed";
  }

  /** `parse_trajectory_types` (qtm.py:104-117): every entry converted, in order; the first bad one raises. */
  function ParseTrajectoryTypes(ts: seq<string>): (r: Result<seq<TrajectoryType>>)
    ensures r.Ok? <==> forall k | 0 <= k < |ts| :: TrajectoryFromStr(ts[k]).Ok?
    ensures r.Ok? ==> |r.value| == |ts| && forall k | 0 <= k < |ts| :: r.value[k] == TrajectoryFromStr(ts[k]).value
    ensures r.Err? ==> r.error == ValueError
  {
    if ts == [] then Ok([])
    else
      var first :- TrajectoryFromStr(ts[0]);
      var rest :- ParseTrajectoryTypes(ts[1..]);
      assert forall k | 1 <= k < |ts| :: ts[k] == ts[1..][k - 1];
      Ok([first] + rest)
  }

  /**
   * `parse_event` (qtm.py:69-85): a one-element list holding the name
   * (field 0), the integer index (field 1) and the float time (field 2).
   * Fields are read in that order: a missing field is an IndexError and
   * one that does not parse a ValueError.
   */
  function ParseEvent(ev: seq<string>, ps: Parsers): (r: Result<MetaValue>)
    ensures r.Ok? <==> |ev| >= 3 && ps.toInt(ev[1]).Some? && ps.toFloat(ev[2]).Some?
    ensures r.Ok? ==> r.value == MetaList([MetaEvent(ev[0], ps.toInt(ev[1]).value, ps.toFloat(ev[2]).value)])
    ensures |ev| < 2 ==> r == Err(IndexError)
    ensures |ev| >= 2 && ps.toInt(ev[1]).None? ==> r == Err(ValueError)
  {
    if |ev| < 1 then Err(IndexError)
    else if |ev| < 2 then Err(IndexError)
    else match ps.toInt(ev[1])
      case None => Err(ValueError)
      case Some(index) =>
        if |ev| < 3 then Err(IndexError)
        else match ps.toFloat(ev[2])
          case None => Err(ValueError)
          case Some(time) => Ok(MetaList([MetaEvent(ev[0], index, time)]))
  }

  /** A row's raw fields as a list of strings. */
  function Texts(values: seq<string>): (r: MetaValue)
    ensures r.MetaList? && |r.items| == |values|
    ensures forall k | 0 <= k < |values| :: r.items[k] == MetaText(values[k])
  {
    MetaList(seq(|values|, k requires 0 <= k < |values| => MetaText(values[k])))
  }

  /** `parse_marker_names` (qtm.py:88-101): the names are kept as they are. */
  function ParseMarkerNames(names: seq<string>): (r: MetaValue)
    ensures r.MetaList? && |r.items| == |names|
    ensures forall k | 0 <= k < |names| :: r.items[k].MetaText? && r.items[k].s == names[k]
  {
    Texts(names)
  }

  /** How a known key's values are converted. */
  datatype Handler = EventHandler | TimeStampHandler | TrajectoryHandler
  datatype Conversion = IntOfFirst | FloatOfFirst | StrOfFirst | WholeRow(handler: Handler) | KeepRow

  /** One entry of `METADATA_MAP`: the stored name and the conversion. */
  datatype MetaSpec = MetaSpec(name: string, conversion: Conversion)

  /** `METADATA_MAP` (qtm.py:120-137). */
  const MetadataMap: map<string, MetaSpec> := map[
    "NO_OF_FRAMES" := MetaSpec("n_frames", IntOfFirst),
    "NO_OF_CAMERAS" := MetaSpec("n_cameras", IntOfFirst),
    "NO_OF_MARKERS" := MetaSpec("n_markers", IntOfFirst),
    "FREQUENCY" := MetaSpec("sample_rate", FloatOfFirst),
    "NO_OF_ANALOG" := MetaSpec("n_analog", IntOfFirst),
    "ANALOG_FREQUENCY" := MetaSpec("analog_sample_rate", FloatOfFirst),
    "DESCRIPTION" := MetaSpec("description", StrOfFirst),
    "EVENT" := MetaSpec("event", WholeRow(EventHandler)),
    "DATA_INCLUDED" := MetaSpec("data_included", KeepRow),
    "TIME_STAMP" := MetaSpec("time_stamp", WholeRow(TimeStampHandler)),
    "MARKER_NAMES" := MetaSpec("marker_names", KeepRow),
    "TRAJECTORY_TYPES" := MetaSpec("trajectory_types", WholeRow(TrajectoryHandler))
  ]

  /** The value a conversion makes of a row's fields. */
  function Convert(c: Conversion, values: seq<string>, ps: Parsers): (r: Result<MetaValue>)
    ensures c.IntOfFirst? ==> (r.Ok? <==> |values| > 0 && ps.toInt(values[0]).Some?)
                              && (r.Ok? ==> r.value == MetaInt(ps.toInt(values[0]).value))
    ensures c.FloatOfFirst? ==> (r.Ok? <==> |values| > 0 && ps.toFloat(values[0]).Some?)
                                && (r.Ok? ==> r.value == MetaFloat(ps.toFloat(values[0]).value))
    ensures c.StrOfFirst? ==> (r.Ok? <==> |values| > 0) && (r.Ok? ==> r.value == MetaText(values[0]))
    ensures (c.IntOfFirst? || c.FloatOfFirst? || c.StrOfFirst?) && |values| == 0 ==> r == Err(IndexError)
    ensures c == WholeRow(EventHandler) ==> r == ParseEvent(values, ps)
    ensures c == WholeRow(TimeStampHandler) ==> r == ps.timeStamp(values)
    ensures c == WholeRow(TrajectoryHandler) ==>
              (r.Ok? <==> ParseTrajectoryTypes(values).Ok?)
              && (r.Ok? ==> r.value.MetaList? && |r.value.items| == |values|
                            && forall k | 0 <= k < |values| :: r.value.items[k] == MetaTrajectory(ParseTrajectoryTypes(values).value[k]))
    ensures c.KeepRow? ==> r == Ok(Texts(values))
  {
    match c
    case IntOfFirst =>
      if |values| == 0 then Err(IndexError)
      else (match ps.toInt(values[0]) case Some(i) => Ok(MetaInt(i)) case None => Err(ValueError))
    case FloatOfFirst =>
      if |values| == 0 then Err(IndexError)
      else (match ps.toFloat(values[0]) case Some(x) => Ok(MetaFloat(x)) case None => Err(ValueError))
    case StrOfFirst =>
      if |values| == 0 then Err(IndexError) else Ok(MetaText(values[0]))
    case WholeRow(EventHandler) => ParseEvent(values, ps)
    case WholeRow(TimeStampHandler) => ps.timeStamp(values)
    case WholeRow(TrajectoryHandler) =>
      var ts :- ParseTrajectoryTypes(values);
      Ok(MetaList(seq(|ts|, k requires 0 <= k < |ts| => MetaTrajectory(ts[k]))))
    case KeepRow => Ok(Texts(values))
  }

  /**
   * `parse_metadata_row` (qtm.py:140-166): an unknown key is returned with
   * its raw fields; a known key is renamed and its fields converted.
   */
  function ParseMetadataRow(key: string, values: seq<string>, ps: Parsers): (r: Result<(string, MetaValue)>)
    ensures key !in MetadataMap ==> r == Ok((key, Texts(values)))
    ensures key in MetadataMap ==>
              (r.Ok? <==> Convert(MetadataMap[key].conversion, values, ps).Ok?)
              && (r.Ok? ==> r.value == (MetadataMap[key].name, Convert(MetadataMap[key].conversion, values, ps).value))
              && (r.Err? ==> r.error == Convert(MetadataMap[key].conversion, values, ps).error)
  {
    if key !in MetadataMap then Ok((key, Texts(values)))
    else
      var spec := MetadataMap[key];
      var v :- Convert(spec.conversion, values, ps);
      Ok((spec.name, v))
  }

  /** A "type" entry looks at the first field only: rows that agree there parse alike. */
  lemma FirstFieldOnly(key: string, v1: seq<string>, v2: seq<string>, ps: Parsers)
    requires key in MetadataMap
    requires MetadataMap[key].conversion.IntOfFirst? || MetadataMap[key].conversion.FloatOfFirst?
             || MetadataMap[key].conversion.StrOfFirst?
    requires |v1| > 0 && |v2| > 0 && v1[0] == v2[0]
    ensures ParseMetadataRow(key, v1, ps) == ParseMetadataRow(key, v2, ps)
  {
  }

  /** The renamings the readers rely on. */
  lemma KnownKeys(values: seq<string>, ps: Parsers)
    ensures ParseMetadataRow("FREQUENCY", values, ps).Ok? ==> ParseMetadataRow("FREQUENCY", values, ps).value.0 == "sample_rate"
    ensures ParseMetadataRow("NO_OF_FRAMES", values, ps).Ok? ==> ParseMetadataRow("NO_OF_FRAMES", values, ps).value.0 == "n_frames"
    ensures ParseMetadataRow("MARKER_NAMES", values, ps) == Ok(("marker_names", Texts(values)))
    ensures ParseMetadataRow("EVENT", values, ps).Ok? ==> ParseMetadataRow("EVENT", values, ps).value.0 == "event"
  {
    assert "FREQUENCY" in MetadataMap && "NO_OF_FRAMES" in MetadataMap;
    assert "MARKER_NAMES" in MetadataMap && "EVENT" in MetadataMap;
  }
}
