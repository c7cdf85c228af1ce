/**
 * Metadata and empirical data (src/mopipe/core/data/empirical.py):
 * `MetaData` is a plain dict; `MocapMetaData` stores and reads every key
 * under its `MocapMetadataEntries` name; `EmpiricalData` pairs a frame
 * with its metadata, a name and an id.
 */
module Empirical {
  import opened Errors
  import opened Tables
  import opened SegmentIO
  import opened Util
  import opened Datastructs

  /** A metadata dict. */
  type Meta = map<string, MetaValue>

  /**
   * The name a `MocapMetaData` key is stored under
   * (empirical.py:37-38, 42-43): an entry name or a stored name gives
   * the stored name; any other key is kept.
   */
  function Normalise(key: string): string {
    if Contains(MocapEntries, key) then Lookup(MocapEntries, key).value else key
  }

  /** A key is either kept or replaced by the stored name of the entry it names; an unknown key is kept. */
  lemma NormaliseCases(key: string)
    ensures var k := Normalise(key);
            k == key || exists i | 0 <= i < |MocapEntries| :: MocapEntries[i].name == key && MocapEntries[i].value == k
    ensures (forall i | 0 <= i < |MocapEntries| :: MocapEntries[i].name != key && MocapEntries[i].value != key) ==> Normalise(key) == key
  {
  }

  /** A key that is neither an entry name nor a stored name is kept. */
  lemma UnknownKept(key: string)
    requires !Contains(MocapEntries, key)
    ensures Normalise(key) == key
  {
  }

  /** Stored names map to themselves, so normalising is idempotent. */
  lemma NormaliseIdempotent(key: string)
    ensures Normalise(Normalise(key)) == Normalise(key)
  {
    if Contains(MocapEntries, key) {
      MocapLookupIdempotent(key);
    }
  }

  /** The keys of a metadata dict are all stored names. */
  predicate Normalised(m: Meta) {
    forall k | k in m :: Normalise(k) == k
  }

  /** `MocapMetaData.__setitem__` (empirical.py:36-39). */
  function SetItem(m: Meta, key: string, v: MetaValue): (r: Meta)
    ensures r.Keys == m.Keys + {Normalise(key)}
    ensures r[Normalise(key)] == v
    ensures forall k | k in m && k != Normalise(key) :: r[k] == m[k]
    ensures Normalised(m) ==> Normalised(r)
  {
    NormaliseIdempotent(key);
    m[Normalise(key) := v]
  }

  /** `MocapMetaData.__getitem__` (empirical.py:41-44): a KeyError when the stored name is absent. */
  function GetItem(m: Meta, key: string): (r: Result<MetaValue>)
    ensures r.Ok? <==> Normalise(key) in m
    ensures r.Ok? ==> r.value == m[Normalise(key)]
    ensures r.Err? ==> r.error == KeyError
  {
    var k := Normalise(key);
    if k in m then Ok(m[k]) else Err(KeyError)
  }

  /** A value set under one key is read back under every key with the same stored name, and only there. */
  lemma GetAfterSet(m: Meta, k1: string, k2: string, v: MetaValue)
    ensures Normalise(k1) == Normalise(k2) ==> GetItem(SetItem(m, k1, v), k2) == Ok(v)
    ensures Normalise(k1) != Normalise(k2) ==> GetItem(SetItem(m, k1, v), k2) == GetItem(m, k2)
  {
  }

  /** Setting `frame_count` is reading `n_frames`, and the other way round. */
  lemma AliasReadBack(m: Meta, v: MetaValue)
    ensures GetItem(SetItem(m, "frame_count", v), "n_frames") == Ok(v)
    ensures GetItem(SetItem(m, "n_frames", v), "frame_count") == Ok(v)
    ensures SetItem(m, "frame_count", v) == m["n_frames" := v]
  {
    MocapRenames();
    MocapStoredName();
  }

  /* ---------------------------------------------------------------- */
  /* The constructor                                                   */
  /* ---------------------------------------------------------------- */

  /** Keyword arguments: an ordered list of distinct names and their values. */
  predicate DistinctKeys(kw: seq<(string, MetaValue)>) {
    forall i, j | 0 <= i < j < |kw| :: kw[i].0 != kw[j].0
  }

  /** The dict `dict(**kw)` builds. */
  function PairsMap(kw: seq<(string, MetaValue)>): (r: Meta)
    requires DistinctKeys(kw)
    ensures r.Keys == set i | 0 <= i < |kw| :: kw[i].0
    ensures forall i | 0 <= i < |kw| :: r[kw[i].0] == kw[i].1
  {
    if kw == [] then map[]
    else
      var last := kw[|kw| - 1];
      var r := PairsMap(kw[..|kw| - 1])[last.0 := last.1];
      assert forall i | 0 <= i < |kw| - 1 :: kw[..|kw| - 1][i] == kw[i];
      r
  }

  /**
   * The loop of `MocapMetaData.__init__` as written (empirical.py:30-34):
   * it walks `kwargs.items()` and assigns the stored name into the same
   * dict. Reassigning a key the dict already has is harmless (later
   * items then see the new value), but a stored name the dict lacks is
   * an insertion, and CPython's dict iterator raises RuntimeError at its
   * next step after the size changed.
   */
  function InitLoopAsWritten(kw: seq<(string, MetaValue)>, i: nat, d: Meta): (r: Result<Meta>)
    requires DistinctKeys(kw) && i <= |kw|
    requires forall j | 0 <= j < |kw| :: kw[j].0 in d
    ensures r.Ok? ==> r.value.Keys == d.Keys
    ensures r.Err? ==> r.error == RuntimeError
    decreases |kw| - i
  {
    if i == |kw| then Ok(d)
    else
      var key := kw[i].0;
      if Contains(MocapEntries, key) then
        var stored := Lookup(MocapEntries, key).value;
        if stored in d then InitLoopAsWritten(kw, i + 1, d[stored := d[key]])
        else Err(RuntimeError)
      else InitLoopAsWritten(kw, i + 1, d)
  }

  /** `MocapMetaData(**kw)` as written: on success the dict keeps every given key, aliases included. */
  function InitAsWritten(kw: seq<(string, MetaValue)>): (r: Result<Meta>)
    requires DistinctKeys(kw)
    ensures r.Ok? ==> forall j | 0 <= j < |kw| :: kw[j].0 in r.value
    ensures r.Err? ==> r.error == RuntimeError
  {
    InitLoopAsWritten(kw, 0, PairsMap(kw))
  }

  /** Keys that are neither entry names nor stored names pass through the written constructor untouched. */
  lemma {:induction false} InitLoopUnknownKeys(kw: seq<(string, MetaValue)>, i: nat, d: Meta)
    requires DistinctKeys(kw) && i <= |kw|
    requires forall j | 0 <= j < |kw| :: kw[j].0 in d
    requires forall j | 0 <= j < |kw| :: !Contains(MocapEntries, kw[j].0)
    ensures InitLoopAsWritten(kw, i, d) == Ok(d)
    decreases |kw| - i
  {
    if i < |kw| {
      InitLoopUnknownKeys(kw, i + 1, d);
    }
  }

  /**
   * The constructor as evidently intended: every keyword goes through
   * `__setitem__`, so it is stored under its stored name.
   */
  function InitFrom(m: Meta, kw: seq<(string, MetaValue)>): (r: Meta)
    ensures Normalised(m) ==> Normalised(r)
    ensures forall k | k in m :: k in r
    ensures forall i | 0 <= i < |kw| :: Normalise(kw[i].0) in r
    decreases |kw|
  {
    if kw == [] then m
    else
      var r := InitFrom(SetItem(m, kw[0].0, kw[0].1), kw[1..]);
      assert forall i | 1 <= i < |kw| :: kw[i] == kw[1..][i - 1];
      r
  }

  function Init(kw: seq<(string, MetaValue)>): (r: Meta)
    ensures Normalised(r)
  {
    InitFrom(map[], kw)
  }

  /** The keywords assigned in order into m, each under the key `f` gives for it. */
  function AssignAll(m: Meta, kw: seq<(string, MetaValue)>, f: string -> string): Meta
    decreases |kw|
  {
    if kw == [] then m else AssignAll(m[f(kw[0].0) := kw[0].1], kw[1..], f)
  }

  /** A key no keyword is assigned under keeps its value. */
  lemma {:induction false} AssignAllKeeps(m: Meta, kw: seq<(string, MetaValue)>, f: string -> string, k: string)
    requires k in m
    requires forall j | 0 <= j < |kw| :: f(kw[j].0) != k
    ensures k in AssignAll(m, kw, f) && AssignAll(m, kw, f)[k] == m[k]
    decreases |kw|
  {
    if kw != [] {
      assert forall j | 0 <= j < |kw[1..]| :: kw[1..][j] == kw[j + 1];
      AssignAllKeeps(m[f(kw[0].0) := kw[0].1], kw[1..], f, k);
    }
  }

  /** The last assignment under a key is the value the key ends with. */
  lemma {:induction false} AssignAllReads(m: Meta, kw: seq<(string, MetaValue)>, f: string -> string, i: nat)
    requires i < |kw|
    requires forall j | i < j < |kw| :: f(kw[j].0) != f(kw[i].0)
    ensures f(kw[i].0) in AssignAll(m, kw, f) && AssignAll(m, kw, f)[f(kw[i].0)] == kw[i].1
    decreases |kw|
  {
    var rest := kw[1..];
    assert forall j | 0 <= j < |rest| :: rest[j] == kw[j + 1];
    if i == 0 {
      AssignAllKeeps(m[f(kw[0].0) := kw[0].1], rest, f, f(kw[0].0));
    } else {
      AssignAllReads(m[f(kw[0].0) := kw[0].1], rest, f, i - 1);
    }
  }

  /** The constructor assigns every keyword under its stored name. */
  lemma {:induction false} InitFromAssigns(m: Meta, kw: seq<(string, MetaValue)>)
    ensures InitFrom(m, kw) == AssignAll(m, kw, Normalise)
    decreases |kw|
  {
    if kw != [] {
      InitFromAssigns(SetItem(m, kw[0].0, kw[0].1), kw[1..]);
    }
  }

  /** Each keyword reads back its own value unless a later keyword shares its stored name. */
  lemma InitFromReads(m: Meta, kw: seq<(string, MetaValue)>, i: nat)
    requires i < |kw|
    requires forall j | i < j < |kw| :: Normalise(kw[j].0) != Normalise(kw[i].0)
    ensures GetItem(InitFrom(m, kw), kw[i].0) == Ok(kw[i].1)
  {
    InitFromAssigns(m, kw);
    AssignAllReads(m, kw, Normalise, i);
  }

  /** On keys it does not rename, the written constructor builds the plain dict of its keywords. */
  lemma UnknownKeysAsWritten(kw: seq<(string, MetaValue)>)
    requires DistinctKeys(kw)
    requires forall j | 0 <= j < |kw| :: !Contains(MocapEntries, kw[j].0)
    ensures InitLoopAsWritten(kw, 0, PairsMap(kw)) == Ok(PairsMap(kw))
  {
    var d := PairsMap(kw);
    InitLoopUnknownKeys(kw, 0, d);
  }

  /** On such keys, the intended constructor reads every keyword back, as the written one does. */
  lemma UnknownKeysIntended(kw: seq<(string, MetaValue)>, j: nat)
    requires DistinctKeys(kw) && j < |kw|
    requires forall j | 0 <= j < |kw| :: !Contains(MocapEntries, kw[j].0)
    ensures GetItem(Init(kw), kw[j].0) == Ok(kw[j].1)
    ensures GetItem(PairsMap(kw), kw[j].0) == Ok(kw[j].1)
  {
    UnknownKept(kw[j].0);
    forall l | j < l < |kw| ensures Normalise(kw[l].0) != Normalise(kw[j].0) {
      UnknownKept(kw[l].0);
    }
    InitFromReads(map[], kw, j);
  }

  /** `MocapMetaData(frame_count=5)` as written raises: `n_frames` is a new key. */
  lemma AliasConstructorRaises()
    ensures InitAsWritten([("frame_count", MetaInt(5))]) == Err(RuntimeError)
  {
    FrameCountRenamed();
    AliasRaises("frame_count", MetaInt(5));
  }

  /** A single keyword whose stored name differs from it makes the written constructor raise. */
  lemma AliasRaises(k: string, v: MetaValue)
    requires Contains(MocapEntries, k) && Lookup(MocapEntries, k).value != k
    ensures InitAsWritten([(k, v)]) == Err(RuntimeError)
  {
    OnePair(k, v);
    NewStoredNameRaises([(k, v)], map[k := v]);
  }

  /** The dict of one keyword. */
  lemma OnePair(k: string, v: MetaValue)
    ensures PairsMap([(k, v)]) == map[k := v]
  {
    assert [(k, v)][..0] == [];
  }

  lemma FrameCountRenamed()
    ensures Contains(MocapEntries, "frame_count") && Lookup(MocapEntries, "frame_count") == Ok("n_frames")
  {
    MocapRenames();
  }

  /** The written loop raises at once when the first keyword's stored name is not yet in the dict. */
  lemma NewStoredNameRaises(kw: seq<(string, MetaValue)>, d: Meta)
    requires DistinctKeys(kw) && kw != [] && forall j | 0 <= j < |kw| :: kw[j].0 in d
    requires Contains(MocapEntries, kw[0].0) && Lookup(MocapEntries, kw[0].0).value !in d
    ensures InitLoopAsWritten(kw, 0, d) == Err(RuntimeError)
  {
  }

  /** The intended constructor stores `frame_count=5` under `n_frames`. */
  lemma AliasConstructorIntended()
    ensures Init([("frame_count", MetaInt(5))]) == map["n_frames" := MetaInt(5)]
  {
    var kw := [("frame_count", MetaInt(5))];
    AliasReadBack(map[], MetaInt(5));
    assert kw[1..] == [];
    assert Init(kw) == SetItem(map[], "frame_count", MetaInt(5));
  }

  /* ---------------------------------------------------------------- */
  /* Empirical data                                                    */
  /* ---------------------------------------------------------------- */

  /** `EmpiricalData`: the data (a DataFrame in every caller), its metadata, a name and an id. */
  datatype EmpiricalData = EmpiricalData(data: Value, metadata: Meta, name: string, dataId: string)

  /** `EmpiricalData.__init__` (empirical.py:64-68): a given id is kept; otherwise `<name>_<uuid>`. */
  function MakeData(data: Value, metadata: Meta, name: string, id: Option<string>, uuid: string): (e: EmpiricalData)
    ensures e.data == data && e.metadata == metadata && e.name == name
    ensures id.Some? ==> e.dataId == id.value
    ensures id.None? ==> e.dataId == name + "_" + uuid
  {
    GeneratedIdParts(name, uuid);
    EmpiricalData(data, metadata, name, MaybeGenerateId(id, Some(name), None, uuid))
  }

  /** A key of `EmpiricalData.__getitem__`. */
  datatype DataKey = Position(i: int) | Name(s: string)

  /** What `__getitem__` returns: the cells of one row, or the selection of a column label. */
  datatype DataItem = RowOf(cells: seq<Cell>) | ColumnsOf(selection: Selection)

  /**
   * `EmpiricalData.__getitem__` (empirical.py:59-62): an int is a row
   * position (`iloc`, negative from the end), a string a column label,
   * which selects one column, or all of them when several carry it.
   */
  function GetData(e: EmpiricalData, key: DataKey): (r: Result<DataItem>)
    requires e.data.Frame?
    ensures key.Position? ==> (r.Ok? <==> 0 <= key.i + e.data.table.Rows() && key.i < e.data.table.Rows())
    ensures key.Position? && r.Ok? ==>
              var k := if key.i < 0 then key.i + e.data.table.Rows() else key.i;
              r.value.RowOf? && |r.value.cells| == e.data.table.Cols()
              && forall c | 0 <= c < e.data.table.Cols() :: r.value.cells[c] == e.data.table.columns[c].cells[k]
    ensures key.Name? ==> (r.Ok? <==> exists c | 0 <= c < e.data.table.Cols() :: e.data.table.columns[c].name == key.s)
    ensures key.Name? && r.Ok? ==> r.value == ColumnsOf(SelectNamed(e.data.table, key.s).value)
    ensures key.Position? && r.Err? ==> r.error == IndexError
    ensures key.Name? && r.Err? ==> r.error == KeyError
  {
    var t := e.data.table;
    match key
    case Position(i) =>
      var k :- PyIndex(i, t.Rows());
      Ok(RowOf(seq(t.Cols(), c requires 0 <= c < t.Cols() => t.columns[c].cells[k])))
    case Name(s) =>
      var sel :- SelectNamed(t, s);
      Ok(ColumnsOf(sel))
  }

  /** The frame X = [1, 2, 3], Y = [4, 5, 6], Z = [7, 8, 9]: column X is [1, 2, 3] and row 0 is [1, 4, 7]. */
  lemma GetDataExample(uuid: string)
    ensures var t := Table(RangeIndex(3), [Column("X", Cells([1.0, 2.0, 3.0])), Column("Y", Cells([4.0, 5.0, 6.0])),
                                         Column("Z", Cells([7.0, 8.0, 9.0]))]);
            t.WellFormed()
            && var e := MakeData(Frame(t), map[], "mocap_data", None, uuid);
            GetData(e, Name("X")) == Ok(ColumnsOf(Single(Column("X", Cells([1.0, 2.0, 3.0])))))
            && GetData(e, Position(0)) == Ok(RowOf(Cells([1.0, 4.0, 7.0])))
            && GetData(e, Position(-1)) == Ok(RowOf(Cells([3.0, 6.0, 9.0])))
            && e.dataId[..11] == "mocap_data_"
  {
    var t := Table(RangeIndex(3), [Column("X", Cells([1.0, 2.0, 3.0])), Column("Y", Cells([4.0, 5.0, 6.0])),
                                  Column("Z", Cells([7.0, 8.0, 9.0]))]);
    assert t.WellFormed();
    var e := MakeData(Frame(t), map[], "mocap_data", None, uuid);
    assert ColumnsNamed(t.columns, "X") == [t.columns[0]];
    assert GetData(e, Position(0)).value.cells == Cells([1.0, 4.0, 7.0]);
    assert GetData(e, Position(-1)).value.cells == Cells([3.0, 6.0, 9.0]);
  }
}
