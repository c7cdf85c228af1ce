/**
 * The string enums of src/mopipe/core/common/datastructs.py: an enum whose
 * metaclass lets it be indexed by a member's name or by a member's value,
 * the table of common motion-capture metadata names built on it, and the
 * metadata values the readers store.
 */
module Datastructs {
  import opened Errors

  /** One member of a string enum: its name and its string value. */
  datatype Member = Member(name: string, value: string)

  /** Position of the first member called `item`, as `_member_map_` finds it. */
  function FindMember(members: seq<Member>, item: string): (r: Option<nat>)
    ensures r.Some? ==> r.value < |members| && members[r.value].name == item
    ensures r.Some? ==> forall i | 0 <= i < r.value :: members[i].name != item
    ensures r.None? ==> forall i | 0 <= i < |members| :: members[i].name != item
  {
    if members == [] then None
    else if members[0].name == item then Some(0)
    else match FindMember(members[1..], item)
      case Some(i) => Some(i + 1)
      case None => None
  }

  /** Whether `item` is the value of some member (`_value2member_map_`). */
  predicate IsValue(members: seq<Member>, item: string) {
    exists i | 0 <= i < |members| :: members[i].value == item
  }

  /**
   * `EnumContainsMeta.__getitem__` on a string (datastructs.py:51-59): a
   * member name gives that member's value, a member value is returned
   * as it is, and any other string is a KeyError. Names are tried first.
   */
  function Lookup(members: seq<Member>, item: string): (r: Result<string>)
    ensures r.Ok? <==> (exists i | 0 <= i < |members| :: members[i].name == item) || IsValue(members, item)
    ensures r.Err? ==> r.error == KeyError
    ensures forall i | 0 <= i < |members| && members[i].name == item ::
              r.Ok? && exists j | 0 <= j <= i :: members[j].name == item && r.value == members[j].value
    ensures (forall i | 0 <= i < |members| :: members[i].name != item) && IsValue(members, item) ==> r == Ok(item)
  {
    match FindMember(members, item)
    case Some(i) => Ok(members[i].value)
    case None => if IsValue(members, item) then Ok(item) else Err(KeyError)
  }

  /** `EnumContainsMeta.__contains__` on a string (datastructs.py:41-49): whether the lookup raises. */
  function Contains(members: seq<Member>, item: string): (b: bool)
    ensures b <==> (exists i | 0 <= i < |members| :: members[i].name == item || members[i].value == item)
  {
    match Lookup(members, item)
    case Ok(_) => true
    case Err(_) => false
  }

  /**
   * A value that is also some member's name belongs to a member whose
   * value is that same name, so looking a value up again cannot move it.
   */
  predicate ClosedValues(members: seq<Member>) {
    forall i, j | 0 <= i < |members| && 0 <= j < |members| && members[i].value == members[j].name ::
      members[j].value == members[j].name
  }

  /** Under `ClosedValues`, every member value looks up to itself. */
  lemma ValueIsFixed(members: seq<Member>, v: string)
    requires ClosedValues(members) && IsValue(members, v)
    ensures Lookup(members, v) == Ok(v)
  {
    var i :| 0 <= i < |members| && members[i].value == v;
    match FindMember(members, v)
    case Some(j) =>
      assert members[i].value == members[j].name;
    case None =>
  }

  /** Normalising twice is normalising once: `E[E[k]] == E[k]` whenever `E[k]` succeeds. */
  lemma LookupIdempotent(members: seq<Member>, item: string)
    requires ClosedValues(members) && Lookup(members, item).Ok?
    ensures Lookup(members, Lookup(members, item).value) == Lookup(members, item)
  {
    var v := Lookup(members, item).value;
    match FindMember(members, item)
    case Some(i) =>
      assert members[i].value == v;
      ValueIsFixed(members, v);
    case None =>
  }

  /** `MocapMetadataEntries` (datastructs.py:62-74): common metadata names and their stored names. */
  const MocapEntries: seq<Member> := [
    Member("cam_count", "n_cameras"),
    Member("frame_count", "n_frames"),
    Member("marker_names", "marker_names"),
    Member("marker_count", "n_markers"),
    Member("sample_rate", "sample_rate"),
    Member("time_stamp", "time_stamp")
  ]

  /** The table renames the three counts. */
  lemma MocapRenames()
    ensures Lookup(MocapEntries, "cam_count") == Ok("n_cameras")
    ensures Lookup(MocapEntries, "frame_count") == Ok("n_frames")
    ensures Lookup(MocapEntries, "marker_count") == Ok("n_markers")
  {
    assert MocapEntries[0].name == "cam_count";
    assert MocapEntries[1].name == "frame_count";
    assert MocapEntries[3].name == "marker_count";
  }

  /** The other three names are kept. */
  lemma MocapKeeps()
    ensures Lookup(MocapEntries, "marker_names") == Ok("marker_names")
    ensures Lookup(MocapEntries, "sample_rate") == Ok("sample_rate")
    ensures Lookup(MocapEntries, "time_stamp") == Ok("time_stamp")
  {
    assert MocapEntries[2].name == "marker_names";
    assert MocapEntries[4].name == "sample_rate";
    assert MocapEntries[5].name == "time_stamp";
  }

  /** A stored name looks up to itself. */
  lemma MocapStoredName()
    ensures Lookup(MocapEntries, "n_frames") == Ok("n_frames")
  {
    assert MocapEntries[1].value == "n_frames";
    assert FindMember(MocapEntries, "n_frames") == None;
  }

  /** A QTM header key is not an entry. */
  lemma MocapUnknownName()
    ensures Lookup(MocapEntries, "FREQUENCY") == Err(KeyError)
  {
    assert FindMember(MocapEntries, "FREQUENCY") == None;
    assert !IsValue(MocapEntries, "FREQUENCY");
  }

  /** Every stored name that is also an entry name is stored under itself. */
  lemma MocapClosed()
    ensures ClosedValues(MocapEntries)
  {
  }

  /** Every accepted metadata name normalises idempotently. */
  lemma MocapLookupIdempotent(item: string)
    requires Lookup(MocapEntries, item).Ok?
    ensures Lookup(MocapEntries, Lookup(MocapEntries, item).value) == Lookup(MocapEntries, item)
  {
    MocapClosed();
    LookupIdempotent(MocapEntries, item);
  }

  /** The enum of the metaclass test: A = "a", B = "b". */
  function TwoMembers(): seq<Member> {
    [Member("A", "a"), Member("B", "b")]
  }

  /** Its member names look up to their values. */
  lemma TwoMemberNames()
    ensures Lookup(TwoMembers(), "A") == Ok("a") && Lookup(TwoMembers(), "B") == Ok("b") && Contains(TwoMembers(), "A")
  {
    var e := TwoMembers();
    assert e[0].value == "a" && e[1].value == "b";
  }

  /** Its values look up to themselves. */
  lemma TwoMemberValues()
    ensures Lookup(TwoMembers(), "a") == Ok("a") && Lookup(TwoMembers(), "b") == Ok("b")
  {
    var e := TwoMembers();
    assert e[0].value == "a" && e[1].value == "b";
  }

  /** Anything else is a KeyError. */
  lemma TwoMemberMissing()
    ensures Lookup(TwoMembers(), "c") == Err(KeyError) && !Contains(TwoMembers(), "c")
  {
    var e := TwoMembers();
    assert e[0].value == "a" && e[1].value == "b";
  }

  /** A trajectory type of a QTM export. */
  datatype TrajectoryType = Measured | Mixed

  /**
   * A metadata value as the readers store it: numbers, text, lists
   * (`+=` appends), tuples, parsed events and trajectory types, and an
   * opaque value (a parsed time stamp).
   */
  datatype MetaValue =
    | MetaInt(i: int)
    | MetaFloat(r: real)
    | MetaText(s: string)
    | MetaList(items: seq<MetaValue>)
    | MetaTuple(elems: seq<MetaValue>)
    | MetaEvent(event: string, index: int, time: real)
    | MetaTrajectory(kind: TrajectoryType)
    | MetaOpaque(tag: nat)
}
