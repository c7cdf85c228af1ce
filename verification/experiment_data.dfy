/**
 * The data held by one experiment level (src/mopipe/core/data/experiment.py):
 * the level-data and timeseries lists, the maps from data names and data
 * ids to the positions registered under them, and the lookups that read
 * them. Data objects carry an identity, which is what Python's `is`
 * compares.
 */
module ExperimentData {
  import opened Errors
  import opened Util
  import opened Empirical

  /** `LDType` (experiment.py:23-27): which list a data object belongs to. */
  datatype LDType = Timeseries | Leveldata

  /** A data object on a level: its identity and its contents. */
  datatype Item = Item(ref: nat, data: EmpiricalData)

  /** Which attribute of a data object a map is keyed on. */
  datatype Field = ByName | ById

  function KeyOf(item: Item, f: Field): string {
    if f == ByName then item.data.name else item.data.dataId
  }

  /** A data map: each key with the positions registered under it, in registration order. */
  type DataMap = map<string, seq<nat>>

  /** The class of a level: `Experiment`, `Trial` or a plain `ExperimentLevel`. */
  datatype Kind = ExperimentKind | TrialKind | PlainKind

  /**
   * An `ExperimentLevel`. `parent` and `child` are the raw `_parent` and
   * `_child` pointers, as store keys; the data maps are kept per list.
   */
  datatype Level = Level(
    kind: Kind, levelName: string, levelId: string, metadata: Meta,
    parent: Option<nat>, child: Option<nat>, depth: int,
    leveldata: seq<Item>, timeseries: seq<Item>,
    tsNames: DataMap, tsIds: DataMap, ldNames: DataMap, ldIds: DataMap)
  {
    function Items(t: LDType): seq<Item> {
      if t == Timeseries then timeseries else leveldata
    }

    function Map(t: LDType, f: Field): DataMap {
      match (t, f)
      case (Timeseries, ByName) => tsNames
      case (Timeseries, ById) => tsIds
      case (Leveldata, ByName) => ldNames
      case (Leveldata, ById) => ldIds
    }

    /** The level with list t replaced. */
    function WithItems(t: LDType, items: seq<Item>): (r: Level)
      ensures r.Items(t) == items
    {
      if t == Timeseries then this.(timeseries := items) else this.(leveldata := items)
    }

    /** The level with the two maps of list t replaced. */
    function WithMaps(t: LDType, names: DataMap, ids: DataMap): (r: Level)
      ensures r.Map(t, ByName) == names && r.Map(t, ById) == ids
    {
      if t == Timeseries then this.(tsNames := names, tsIds := ids)
      else this.(ldNames := names, ldIds := ids)
    }
  }

  /** Two levels that differ at most in list t and its maps. */
  predicate SameOutside(l: Level, r: Level, t: LDType) {
    r.kind == l.kind && r.levelName == l.levelName && r.levelId == l.levelId && r.metadata == l.metadata
    && r.parent == l.parent && r.child == l.child && r.depth == l.depth
    && (t == Timeseries ==> r.leveldata == l.leveldata && r.ldNames == l.ldNames && r.ldIds == l.ldIds)
    && (t == Leveldata ==> r.timeseries == l.timeseries && r.tsNames == l.tsNames && r.tsIds == l.tsIds)
  }

  /**
   * `ExperimentLevel.__init__` (experiment.py:49-65): no links, no data,
   * empty maps, the class's default depth, and the id given or generated
   * with the level name as prefix.
   */
  function NewLevel(kind: Kind, name: string, id: Option<string>, metadata: Option<Meta>, uuid: string): (l: Level)
    ensures l.kind == kind && l.levelName == name
    ensures id.Some? ==> l.levelId == id.value
    ensures id.None? ==> l.levelId == name + "_" + uuid
    ensures l.parent.None? && l.child.None? && l.timeseries == [] && l.leveldata == []
    ensures l.depth == (if kind == ExperimentKind then 0 else 1)
    ensures metadata.None? ==> l.metadata == map[]
    ensures Consistent(l)
  {
    GeneratedIdParts(name, uuid);
    Level(kind, name, MaybeGenerateId(id, Some(name), None, uuid),
          if metadata.Some? then metadata.value else map[],
          None, None, if kind == ExperimentKind then 0 else 1, [], [], map[], map[], map[], map[])
  }

  /** `Experiment(experiment_id)` (experiment.py:406-412). */
  function NewExperiment(experimentId: string): (l: Level)
    ensures l.kind == ExperimentKind && l.levelName == "experiment" && l.levelId == experimentId && l.depth == 0
    ensures Consistent(l)
  {
    NewLevel(ExperimentKind, "experiment", Some(experimentId), None, "")
  }

  /** `Trial(trial_id)` (experiment.py:426-431). */
  function NewTrial(trialId: string): (l: Level)
    ensures l.kind == TrialKind && l.levelName == "trial" && l.levelId == trialId && l.depth == 1
    ensures Consistent(l)
  {
    NewLevel(TrialKind, "trial", Some(trialId), None, "")
  }

  /** The `parent` property (experiment.py:77-80, 414-417): an Experiment reports none. */
  function ParentOf(l: Level): (r: Option<nat>)
    ensures l.kind == ExperimentKind ==> r.None?
    ensures l.kind != ExperimentKind ==> r == l.parent
  {
    if l.kind == ExperimentKind then None else l.parent
  }

  /** The `child` property (experiment.py:95-98, 433-436): a Trial reports none. */
  function ChildOf(l: Level): (r: Option<nat>)
    ensures l.kind == TrialKind ==> r.None?
    ensures l.kind != TrialKind ==> r == l.child
  {
    if l.kind == TrialKind then None else l.child
  }

  /* ---------------------------------------------------------------- */
  /* The maps as they should be                                        */
  /* ---------------------------------------------------------------- */

  /** The positions of the items whose key is `key`, in increasing order. */
  function Positions(items: seq<Item>, key: string, f: Field): (ps: seq<nat>)
    ensures forall j | 0 <= j < |ps| :: ps[j] < |items| && KeyOf(items[ps[j]], f) == key
    ensures forall i | 0 <= i < |items| && KeyOf(items[i], f) == key :: i in ps
    ensures forall j, k | 0 <= j < k < |ps| :: ps[j] < ps[k]
    decreases |items|
  {
    if items == [] then []
    else
      var n := |items| - 1;
      var front := Positions(items[..n], key, f);
      assert forall i | 0 <= i < n :: items[..n][i] == items[i];
      front + (if KeyOf(items[n], f) == key then [n] else [])
  }

  /** A map registers exactly the positions of each key, and every item's key. */
  predicate Indexed(m: DataMap, items: seq<Item>, f: Field) {
    (forall key | key in m :: m[key] == Positions(items, key, f) && m[key] != [])
    && (forall i | 0 <= i < |items| :: KeyOf(items[i], f) in m)
  }

  /** All four maps of a level index their lists. */
  predicate Consistent(l: Level) {
    Indexed(l.tsNames, l.timeseries, ByName) && Indexed(l.tsIds, l.timeseries, ById)
    && Indexed(l.ldNames, l.leveldata, ByName) && Indexed(l.ldIds, l.leveldata, ById)
  }

  /** The first item whose key is `key`, if any: the reference the lookups answer to. */
  function FirstWith(items: seq<Item>, key: string, f: Field): (r: Option<nat>)
    ensures r.Some? ==> r.value < |items| && KeyOf(items[r.value], f) == key
                        && forall i | 0 <= i < r.value :: KeyOf(items[i], f) != key
    ensures r.None? ==> forall i | 0 <= i < |items| :: KeyOf(items[i], f) != key
  {
    if items == [] then None
    else if KeyOf(items[0], f) == key then Some(0)
    else
      var rest := FirstWith(items[1..], key, f);
      assert forall i | 1 <= i < |items| :: items[i] == items[1..][i - 1];
      if rest.None? then None else Some(rest.value + 1)
  }

  /** Appending an item adds its position under its own key and nowhere else. */
  lemma PositionsAppend(items: seq<Item>, x: Item, key: string, f: Field)
    ensures Positions(items + [x], key, f)
            == Positions(items, key, f) + (if KeyOf(x, f) == key then [|items|] else [])
  {
    assert (items + [x])[..|items|] == items;
  }

  /* ---------------------------------------------------------------- */
  /* Registration                                                      */
  /* ---------------------------------------------------------------- */

  /**
   * The same-object check of `_update_map_entry` (experiment.py:126-133):
   * each position already under the key is compared, by identity, with
   * the new position, both read from `consult`. Reading a position past
   * the end of `consult` is an IndexError.
   */
  function CheckNotSame(existing: seq<nat>, idx: nat, consult: seq<Item>): (r: Result<()>)
    ensures r.Ok? <==> forall j | 0 <= j < |existing| ::
                         existing[j] < |consult| && idx < |consult| && consult[existing[j]].ref != consult[idx].ref
    ensures r.Err? ==> r.error == IndexError || r.error == ValueError
  {
    if existing == [] then Ok(())
    else if existing[0] >= |consult| || idx >= |consult| then Err(IndexError)
    else if consult[existing[0]].ref == consult[idx].ref then Err(ValueError)
    else
      assert forall j | 1 <= j < |existing| :: existing[j] == existing[1..][j - 1];
      CheckNotSame(existing[1..], idx, consult)
  }

  /**
   * `_update_map_entry` (experiment.py:118-138): a new key gets the list
   * [idx]; an existing one, once the same-object check passes, has idx
   * appended.
   */
  function UpdateMapEntry(key: string, m: DataMap, idx: nat, consult: seq<Item>): (r: Result<DataMap>)
    ensures key !in m ==> r == Ok(m[key := [idx]])
    ensures key in m ==> (r.Ok? <==> CheckNotSame(m[key], idx, consult).Ok?)
    ensures key in m && r.Ok? ==> r.value == m[key := m[key] + [idx]]
    ensures key in m && r.Err? ==> r.error == CheckNotSame(m[key], idx, consult).error
  {
    if key in m then
      var _ :- CheckNotSame(m[key], idx, consult);
      Ok(m[key := m[key] + [idx]])
    else Ok(m[key := [idx]])
  }

  /**
   * `add_timeseries` / `add_leveldata` with `_new_data_added` and
   * `_update_data_map` (experiment.py:140-153, 175-178, 190-193): the
   * item is appended to list t and its position registered under its
   * name, then under its id. The same-object checks read list `consult`.
   */
  function AddData(l: Level, item: Item, t: LDType, consult: LDType): (r: Result<Level>)
    ensures r.Ok? <==> UpdateMapEntry(item.data.name, l.Map(t, ByName), |l.Items(t)|,
                                      l.WithItems(t, l.Items(t) + [item]).Items(consult)).Ok?
                       && UpdateMapEntry(item.data.dataId, l.Map(t, ById), |l.Items(t)|,
                                         l.WithItems(t, l.Items(t) + [item]).Items(consult)).Ok?
    ensures r.Ok? ==> r.value.Items(t) == l.Items(t) + [item] && SameOutside(l, r.value, t)
    ensures r.Ok? ==> r.value.Map(t, ByName) == UpdateMapEntry(item.data.name, l.Map(t, ByName), |l.Items(t)|,
                                                               l.WithItems(t, l.Items(t) + [item]).Items(consult)).value
    ensures r.Ok? ==> r.value.Map(t, ById) == UpdateMapEntry(item.data.dataId, l.Map(t, ById), |l.Items(t)|,
                                                             l.WithItems(t, l.Items(t) + [item]).Items(consult)).value
  {
    var l1 := l.WithItems(t, l.Items(t) + [item]);
    var idx := |l.Items(t)|;
    var consulted := l1.Items(consult);
    var names :- UpdateMapEntry(item.data.name, l1.Map(t, ByName), idx, consulted);
    var ids :- UpdateMapEntry(item.data.dataId, l1.Map(t, ById), idx, consulted);
    Ok(l1.WithMaps(t, names, ids))
  }

  /** `add_leveldata` (experiment.py:175-178). */
  function AddLeveldata(l: Level, item: Item): (r: Result<Level>)
    ensures r == AddData(l, item, Leveldata, Leveldata)
    ensures r.Ok? ==> r.value.leveldata == l.leveldata + [item] && r.value.timeseries == l.timeseries
  {
    AddData(l, item, Leveldata, Leveldata)
  }

  /**
   * `add_timeseries` as written (experiment.py:190-193 with 127-133): the
   * same-object check reads the level-data list, not the timeseries.
   */
  function AddTimeseriesAsWritten(l: Level, item: Item): (r: Result<Level>)
    ensures r == AddData(l, item, Timeseries, Leveldata)
    ensures r.Ok? ==> r.value.timeseries == l.timeseries + [item] && r.value.leveldata == l.leveldata
  {
    AddData(l, item, Timeseries, Leveldata)
  }

  /** `add_timeseries` with the same-object check on the timeseries list, as intended. */
  function AddTimeseries(l: Level, item: Item): (r: Result<Level>)
    ensures r == AddData(l, item, Timeseries, Timeseries)
    ensures r.Ok? ==> r.value.timeseries == l.timeseries + [item] && r.value.leveldata == l.leveldata
  {
    AddData(l, item, Timeseries, Timeseries)
  }

  /** Registering one more item keeps a map indexing its list. */
  lemma IndexedAppend(m: DataMap, items: seq<Item>, x: Item, f: Field, m': DataMap)
    requires Indexed(m, items, f)
    requires KeyOf(x, f) in m ==> m' == m[KeyOf(x, f) := m[KeyOf(x, f)] + [|items|]]
    requires KeyOf(x, f) !in m ==> m' == m[KeyOf(x, f) := [|items|]]
    ensures Indexed(m', items + [x], f)
  {
    var all := items + [x];
    forall key | key in m' ensures m'[key] == Positions(all, key, f) && m'[key] != [] {
      AppendAt(m, items, x, f, m', key);
    }
    forall i | 0 <= i < |all| ensures KeyOf(all[i], f) in m' {
      if i < |items| {
        assert all[i] == items[i];
      }
    }
  }

  /** One key of the map after registering one more item. */
  lemma {:induction false} AppendAt(m: DataMap, items: seq<Item>, x: Item, f: Field, m': DataMap, key: string)
    requires Indexed(m, items, f)
    requires KeyOf(x, f) in m ==> m' == m[KeyOf(x, f) := m[KeyOf(x, f)] + [|items|]]
    requires KeyOf(x, f) !in m ==> m' == m[KeyOf(x, f) := [|items|]]
    requires key in m'
    ensures m'[key] == Positions(items + [x], key, f) && m'[key] != []
  {
    PositionsAppend(items, x, key, f);
    if key != KeyOf(x, f) {
      assert key in m;
    } else if KeyOf(x, f) !in m {
      assert forall i | 0 <= i < |items| :: KeyOf(items[i], f) != key;
      PositionsNone(items, key, f);
    }
  }

  /** A key no item has has no positions. */
  lemma {:induction false} PositionsNone(items: seq<Item>, key: string, f: Field)
    requires forall i | 0 <= i < |items| :: KeyOf(items[i], f) != key
    ensures Positions(items, key, f) == []
    decreases |items|
  {
    if items != [] {
      var n := |items| - 1;
      assert forall i | 0 <= i < n :: items[..n][i] == items[i];
      PositionsNone(items[..n], key, f);
    }
  }

  /** Adding data that is registered keeps every map of the level indexing its list. */
  lemma {:induction false} AddDataConsistent(l: Level, item: Item, t: LDType, consult: LDType)
    requires Consistent(l)
    requires AddData(l, item, t, consult).Ok?
    ensures Consistent(AddData(l, item, t, consult).value)
  {
    var r := AddData(l, item, t, consult).value;
    var consulted := l.WithItems(t, l.Items(t) + [item]).Items(consult);
    var idx := |l.Items(t)|;
    assert Indexed(l.Map(t, ByName), l.Items(t), ByName) && Indexed(l.Map(t, ById), l.Items(t), ById);
    IndexedAppend(l.Map(t, ByName), l.Items(t), item, ByName, r.Map(t, ByName));
    IndexedAppend(l.Map(t, ById), l.Items(t), item, ById, r.Map(t, ById));
  }

  /* ---------------------------------------------------------------- */
  /* Lookups                                                           */
  /* ---------------------------------------------------------------- */

  /**
   * `get_timeseries_by_name` / `get_timeseries_by_id`
   * (experiment.py:205-239): the timeseries at the first position
   * registered under the key; None when the key is unknown or has no
   * positions.
   */
  function GetTimeseries(l: Level, key: string, f: Field): (r: Result<Option<Item>>)
    ensures key !in l.Map(Timeseries, f) ==> r == Ok(None)
    ensures key in l.Map(Timeseries, f) && l.Map(Timeseries, f)[key] == [] ==> r == Ok(None)
    ensures r.Ok? && r.value.Some? ==> r.value.value in l.timeseries
    ensures r.Err? ==> r.error == IndexError
  {
    var m := l.Map(Timeseries, f);
    if key !in m || m[key] == [] then Ok(None)
    else if m[key][0] < |l.timeseries| then Ok(Some(l.timeseries[m[key][0]]))
    else Err(IndexError)
  }

  /** The first registered position of a key is its first occurrence. */
  lemma PositionsFirst(items: seq<Item>, key: string, f: Field)
    ensures Positions(items, key, f) != [] <==> FirstWith(items, key, f).Some?
    ensures Positions(items, key, f) != [] ==> Positions(items, key, f)[0] == FirstWith(items, key, f).value
  {
    var ps := Positions(items, key, f);
    var first := FirstWith(items, key, f);
    if ps != [] {
      assert KeyOf(items[ps[0]], f) == key;
      assert first.value in ps;
      var j :| 0 <= j < |ps| && ps[j] == first.value;
      assert ps[0] <= ps[j];
    } else {
      assert forall i | 0 <= i < |items| :: KeyOf(items[i], f) != key;
    }
  }

  /** On a consistent level the lookup answers with the first timeseries that has the key, or None. */
  lemma GetTimeseriesFirst(l: Level, key: string, f: Field)
    requires Consistent(l)
    ensures var first := FirstWith(l.timeseries, key, f);
            GetTimeseries(l, key, f) == Ok(if first.Some? then Some(l.timeseries[first.value]) else None)
  {
    var m := l.Map(Timeseries, f);
    assert Indexed(m, l.timeseries, f);
    PositionsFirst(l.timeseries, key, f);
    var first := FirstWith(l.timeseries, key, f);
    assert first.Some? ==> KeyOf(l.timeseries[first.value], f) in m;
  }

  /** The identities of a list's objects. */
  function Refs(items: seq<Item>): (rs: set<nat>)
    ensures forall i | 0 <= i < |items| :: items[i].ref in rs
    ensures forall r | r in rs :: exists i | 0 <= i < |items| :: items[i].ref == r
  {
    set i | 0 <= i < |items| :: items[i].ref
  }

  /** The same-object check passes for a new object when every compared position is in range. */
  lemma CheckNotSameFresh(existing: seq<nat>, items: seq<Item>, x: Item)
    requires forall j | 0 <= j < |existing| :: existing[j] < |items|
    requires x.ref !in Refs(items)
    ensures CheckNotSame(existing, |items|, items + [x]).Ok?
  {
    var all := items + [x];
    forall j | 0 <= j < |existing| ensures all[existing[j]].ref != all[|items|].ref {
      assert all[existing[j]] == items[existing[j]];
    }
  }

  /** Adding a new object as a timeseries to a consistent level succeeds. */
  lemma AddTimeseriesFresh(l: Level, item: Item)
    requires Consistent(l)
    requires item.ref !in Refs(l.timeseries)
    ensures AddTimeseries(l, item).Ok?
    ensures Consistent(AddTimeseries(l, item).value)
  {
    var ts := l.timeseries;
    assert Indexed(l.tsNames, ts, ByName) && Indexed(l.tsIds, ts, ById);
    if item.data.name in l.tsNames {
      CheckNotSameFresh(l.tsNames[item.data.name], ts, item);
    }
    if item.data.dataId in l.tsIds {
      CheckNotSameFresh(l.tsIds[item.data.dataId], ts, item);
    }
    AddDataConsistent(l, item, Timeseries, Timeseries);
  }

  /**
   * As written, registering a timeseries under a name already taken reads
   * the level-data list at the earlier position: on a level without level
   * data that is an IndexError, even for a different object.
   */
  lemma AddTimeseriesAsWrittenRaises(l: Level, item: Item, k: nat)
    requires Consistent(l) && l.leveldata == []
    requires k < |l.timeseries| && l.timeseries[k].data.name == item.data.name
    ensures AddTimeseriesAsWritten(l, item) == Err(IndexError)
  {
    assert Indexed(l.tsNames, l.timeseries, ByName);
    assert KeyOf(l.timeseries[k], ByName) in l.tsNames;
    var existing := l.tsNames[item.data.name];
    assert existing != [];
  }

  /** After a timeseries is added, a lookup by its name or id finds the first timeseries with that key. */
  lemma AddThenGet(l: Level, item: Item, f: Field)
    requires Consistent(l)
    requires item.ref !in Refs(l.timeseries)
    ensures AddTimeseries(l, item).Ok?
    ensures var l' := AddTimeseries(l, item).value;
            var prior := FirstWith(l.timeseries, KeyOf(item, f), f);
            GetTimeseries(l', KeyOf(item, f), f) == Ok(Some(if prior.Some? then l.timeseries[prior.value] else item))
  {
    AddTimeseriesFresh(l, item);
    GetAfterAppend(l, AddTimeseries(l, item).value, item, f);
  }

  /** A lookup in a consistent level whose list is another's with one item appended. */
  lemma {:induction false} GetAfterAppend(l: Level, l': Level, item: Item, f: Field)
    requires Consistent(l') && l'.timeseries == l.timeseries + [item]
    ensures var prior := FirstWith(l.timeseries, KeyOf(item, f), f);
            GetTimeseries(l', KeyOf(item, f), f) == Ok(Some(if prior.Some? then l.timeseries[prior.value] else item))
  {
    GetTimeseriesFirst(l', KeyOf(item, f), f);
    FirstWithAppend(l.timeseries, item, KeyOf(item, f), f);
    var prior := FirstWith(l.timeseries, KeyOf(item, f), f);
    if prior.Some? {
      assert l'.timeseries[prior.value] == l.timeseries[prior.value];
    } else {
      assert l'.timeseries[|l.timeseries|] == item;
    }
  }

  /** Appending an item does not move an earlier first occurrence, and is the first when there is none. */
  lemma FirstWithAppend(items: seq<Item>, x: Item, key: string, f: Field)
    requires KeyOf(x, f) == key
    ensures var prior := FirstWith(items, key, f);
            FirstWith(items + [x], key, f) == Some(if prior.Some? then prior.value else |items|)
  {
    var all := items + [x];
    var prior := FirstWith(items, key, f);
    if prior.Some? {
      assert forall i | 0 <= i <= prior.value :: all[i] == items[i];
      FirstWithIs(all, key, f, prior.value);
    } else {
      assert forall i | 0 <= i < |items| :: all[i] == items[i];
      assert all[|items|] == x;
      FirstWithIs(all, key, f, |items|);
    }
  }

  /** A position holding the key with none before it is the first. */
  lemma FirstWithIs(items: seq<Item>, key: string, f: Field, n: nat)
    requires n < |items| && KeyOf(items[n], f) == key
    requires forall i | 0 <= i < n :: KeyOf(items[i], f) != key
    ensures FirstWith(items, key, f) == Some(n)
  {
    var r := FirstWith(items, key, f);
    assert r.Some? && r.value <= n;
  }
}
