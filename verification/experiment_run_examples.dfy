/**
 * Runs of the empty pipeline on experiment levels, in the manner of
 * tests/integration/test_experiment_pipeline.py: the empty pipeline
 * returns its input, so each result carries the input's data.
 */
module ExperimentRunExamples {
  import opened Errors
  import Pipelines
  import opened SegmentIO
  import opened Empirical
  import opened ExperimentData
  import opened ExperimentLinks
  import opened ExperimentRuns
  import opened ExperimentExamples

  /** A timeseries named `name` holding v. */
  function Series(v: Value, name: string): (d: EmpiricalData)
    ensures d.name == name && d.data == v
  {
    MakeData(v, map[], name, None, "u")
  }

  /** `Trial("t1")` holding one timeseries, `input`, as object 0. */
  function OneInput(v: Value): (l: Level)
    ensures Consistent(l) && l.timeseries == [Item(0, Series(v, "input"))]
    ensures l.kind == TrialKind && l.parent.None? && l.child.None?
  {
    AddTimeseriesFresh(NewTrial("t1"), Item(0, Series(v, "input")));
    AddTimeseries(NewTrial("t1"), Item(0, Series(v, "input"))).value
  }

  /** The empty pipeline with the given names and storing flag. */
  function Plain(dataName: Option<string>, resultName: Option<string>, store: bool): Job {
    Job([], dataName, resultName, map[], store)
  }

  /** The empty pipeline passes its input through: the result is the input's data under the result name. */
  lemma EmptyPipelineRun(l: Level, job: Job, uuid: string, ref: nat)
    requires Consistent(l) && ref !in Refs(l.timeseries) && job.p == []
    requires Source(l, job.dataName).Ok?
    ensures var source := Source(l, job.dataName).value;
            var r := RunPipeline(l, job, uuid, ref);
            r.Ok? && r.value.1.data == source.data.data && r.value.1.name == ResultName(job, source)
            && (job.store ==> |r.value.0.timeseries| == |l.timeseries| + 1)
            && (!job.store ==> r.value.0 == l)
  {
    var source := Source(l, job.dataName).value;
    assert Pipelines.Run([], job.kwargs["x" := source.data.data]) == Ok(source.data.data);
    RunPipelineSucceeds(l, job, uuid, ref);
  }

  /** A consistent level whose only timeseries is `input`, object 0, holding v; `OneInput(v)` is one. */
  predicate HoldsInput(l: Level, v: Value) {
    Consistent(l) && l.timeseries == [Item(0, Series(v, "input"))]
  }

  /** test_basic_run: the result is named `input_processed`, carries the input and is stored. */
  lemma BasicRun(l: Level, v: Value, uuid: string)
    requires HoldsInput(l, v)
    ensures var r := RunPipeline(l, Plain(None, None, true), uuid, 1);
            r.Ok? && r.value.1.name == "input_processed" && r.value.1.data == v
            && |r.value.0.timeseries| == 2
  {
    EmptyPipelineRun(l, Plain(None, None, true), uuid, 1);
    ProcessedNames();
  }

  lemma ProcessedNames()
    ensures "input" + "_processed" == "input_processed"
    ensures "second" + "_processed" == "second_processed"
  {
  }

  /** test_custom_result_name. */
  lemma CustomResultName(l: Level, v: Value, uuid: string)
    requires HoldsInput(l, v)
    ensures var r := RunPipeline(l, Plain(None, Some("custom_output"), true), uuid, 1);
            r.Ok? && r.value.1.name == "custom_output"
  {
    EmptyPipelineRun(l, Plain(None, Some("custom_output"), true), uuid, 1);
  }

  /** test_no_store: the level keeps its one timeseries. */
  lemma NoStore(l: Level, v: Value, uuid: string)
    requires HoldsInput(l, v)
    ensures var r := RunPipeline(l, Plain(None, None, false), uuid, 1);
            r.Ok? && |r.value.0.timeseries| == 1
  {
    EmptyPipelineRun(l, Plain(None, None, false), uuid, 1);
  }

  /** test_no_timeseries_raises. */
  lemma NoTimeseriesRaises(uuid: string)
    ensures RunPipeline(NewTrial("t1"), Plain(None, None, true), uuid, 0) == Err(ValueError)
  {
  }

  /** test_name_not_found_raises. */
  lemma NameNotFoundRaises(l: Level, v: Value, uuid: string)
    requires HoldsInput(l, v)
    ensures RunPipeline(l, Plain(Some("nonexistent"), None, true), uuid, 1) == Err(ValueError)
  {
    SourceByName(l, "nonexistent");
  }

  /** `Trial("t1")` holding `first` (object 0) and then `second` (object 1). */
  function TwoInputs(v1: Value, v2: Value): (l: Level)
    ensures Consistent(l) && l.timeseries == [Item(0, Series(v1, "first")), Item(1, Series(v2, "second"))]
  {
    var l1 := NewTrial("t1");
    AddTimeseriesFresh(l1, Item(0, Series(v1, "first")));
    var l2 := AddTimeseries(l1, Item(0, Series(v1, "first"))).value;
    SecondFresh(l2, Item(0, Series(v1, "first")), Item(1, Series(v2, "second")));
    AddTimeseries(l2, Item(1, Series(v2, "second"))).value
  }

  /** The second timeseries is a new object and lands after the first. */
  lemma SecondFresh(l: Level, a: Item, b: Item)
    requires Consistent(l) && l.timeseries == [a] && b.ref != a.ref
    ensures AddTimeseries(l, b).Ok?
    ensures Consistent(AddTimeseries(l, b).value) && AddTimeseries(l, b).value.timeseries == [a, b]
  {
    RefsOne(a);
    AddTimeseriesFresh(l, b);
    AppendSecond(l, a, b);
  }

  lemma RefsOne(x: Item)
    ensures Refs([x]) == {x.ref}
  {
    assert [x][0] == x;
    assert x.ref in Refs([x]);
    assert forall r | r in Refs([x]) :: r == x.ref;
  }

  lemma AppendSecond(l: Level, a: Item, b: Item)
    requires l.timeseries == [a] && AddTimeseries(l, b).Ok?
    ensures AddTimeseries(l, b).value.timeseries == [a, b]
  {
    assert [a] + [b] == [a, b];
  }

  /** test_with_data_name: the named timeseries is the input. */
  lemma WithDataName(l: Level, v1: Value, v2: Value, uuid: string)
    requires Consistent(l) && l.timeseries == [Item(0, Series(v1, "first")), Item(1, Series(v2, "second"))]
    ensures var r := RunPipeline(l, Plain(Some("second"), None, true), uuid, 2);
            r.Ok? && r.value.1.data == v2 && r.value.1.name == "second_processed"
  {
    SecondSource(l, v1, v2);
    EmptyPipelineRun(l, Plain(Some("second"), None, true), uuid, 2);
    ProcessedNames();
  }

  /** Asked for by name, `second` is the input, and object 2 is new to the level. */
  lemma SecondSource(l: Level, v1: Value, v2: Value)
    requires Consistent(l) && l.timeseries == [Item(0, Series(v1, "first")), Item(1, Series(v2, "second"))]
    ensures Source(l, Some("second")) == Ok(Item(1, Series(v2, "second")))
    ensures 2 !in Refs(l.timeseries)
  {
    SourceByName(l, "second");
    SecondFirst(l.timeseries, v1, v2);
  }

  /** `second` first occurs at position 1. */
  lemma SecondFirst(items: seq<Item>, v1: Value, v2: Value)
    requires items == [Item(0, Series(v1, "first")), Item(1, Series(v2, "second"))]
    ensures FirstWith(items, "second", ByName) == Some(1)
  {
    assert KeyOf(items[0], ByName) == "first" != "second";
  }

  /** An experiment level e over a trial level t with timeseries, linked 0 to 1. */
  function Over(e: Level, t: Level): (s: Store)
    requires e.parent.None? && t.child.None?
    ensures Closed(s) && s.Keys == {0, 1}
    ensures s[0] == e.(child := Some(1)) && s[1] == t.(parent := Some(0))
  {
    map[0 := e.(child := Some(1)), 1 := t.(parent := Some(0))]
  }

  /** The descent from the experiment visits it and then the trial. */
  lemma Descent(e: Level, t: Level)
    requires e.parent.None? && t.child.None?
    ensures Chain(Over(e, t), 0, Down) == Ok([0, 1])
  {
    var s := Over(e, t);
    WalkEnd(s, 1, Down, 0);
    WalkStep(s, 0, 1, Down, 0, [1]);
    assert [0] + [1] == [0, 1];
    ChainEnough(s, 0, Down, 1);
  }

  /** test_skip_levels_without_matching_name: no level has the name, so nothing runs. */
  lemma SkipWithoutMatchingName(e: Level, t: Level, v: Value, supply: Fresh)
    requires e.parent.None? && e.timeseries == [] && t.child.None? && HoldsInput(t, v)
    ensures RunPipelineOnDescendants(Over(e, t), 0, Plain(Some("nonexistent"), None, true), None, supply)
            == Ok((Over(e, t), []))
  {
    var s := Over(e, t);
    var job := Plain(Some("nonexistent"), None, true);
    Descent(e, t);
    TrialIneligible(e, t, v);
    RunOnSkip(s, 1, [], job, supply);
    RunOnSkip(s, 0, [1], job, supply);
    assert [0] + [1] == [0, 1] && [1] + [] == [1];
  }

  /** The trial has no timeseries named `nonexistent`, so the filter skips it. */
  lemma TrialIneligible(e: Level, t: Level, v: Value)
    requires e.parent.None? && t.child.None? && HoldsInput(t, v)
    ensures Eligible(Over(e, t)[1], None, Some("nonexistent")) == Ok(false)
  {
    SourceByName(Over(e, t)[1], "nonexistent");
  }

  /** A level the filter skips adds nothing to the loop. */
  lemma RunOnSkip(s: Store, x: nat, rest: seq<nat>, job: Job, supply: Fresh)
    requires x in s && forall i | 0 <= i < |rest| :: rest[i] in s
    requires Eligible(s[x], None, job.dataName) == Ok(false)
    ensures RunOn(s, [x] + rest, job, None, supply) == RunOn(s, rest, job, None, supply)
  {
    assert ([x] + rest)[1..] == rest;
  }

  /** A loop over one eligible level is that level's run. */
  lemma RunOnOne(s: Store, x: nat, job: Job, supply: Fresh)
    requires x in s && Eligible(s[x], None, job.dataName) == Ok(true)
    requires RunPipeline(s[x], job, supply(x).0, supply(x).1).Ok?
    ensures var step := RunPipeline(s[x], job, supply(x).0, supply(x).1).value;
            RunOn(s, [x], job, None, supply) == Ok((s[x := step.0], [step.1]))
  {
    var step := RunPipeline(s[x], job, supply(x).0, supply(x).1).value;
    assert [x][1..] == [];
    assert RunOn(s[x := step.0], [], job, None, supply) == Ok((s[x := step.0], []));
    assert [step.1] + [] == [step.1];
  }

  /**
   * test_basic and test_skip_levels_without_data: the experiment has no
   * timeseries and is skipped; the trial gives the one result.
   */
  lemma DescendantsBasic(e: Level, t: Level, v: Value, supply: Fresh)
    requires e.parent.None? && e.timeseries == [] && t.child.None? && HoldsInput(t, v)
    requires supply(1).1 != 0
    ensures var r := RunPipelineOnDescendants(Over(e, t), 0, Plain(None, None, true), None, supply);
            r.Ok? && |r.value.1| == 1 && r.value.1[0].data == v
  {
    var s := Over(e, t);
    Descent(e, t);
    DescendantsLoop(e, t, v, supply);
  }

  /** The loop of test_basic over the experiment and the trial. */
  lemma DescendantsLoop(e: Level, t: Level, v: Value, supply: Fresh)
    requires e.parent.None? && e.timeseries == [] && t.child.None? && HoldsInput(t, v)
    requires supply(1).1 != 0
    ensures var r := RunOn(Over(e, t), [0, 1], Plain(None, None, true), None, supply);
            r.Ok? && |r.value.1| == 1 && r.value.1[0].data == v
  {
    TrialStep(e, t, v, supply);
    ExperimentSkipped(e, t, supply);
  }

  /** The trial alone gives one result holding its input. */
  lemma TrialStep(e: Level, t: Level, v: Value, supply: Fresh)
    requires e.parent.None? && t.child.None? && HoldsInput(t, v)
    requires supply(1).1 != 0
    ensures var r := RunOn(Over(e, t), [1], Plain(None, None, true), None, supply);
            r.Ok? && |r.value.1| == 1 && r.value.1[0].data == v
  {
    var s := Over(e, t);
    var job := Plain(None, None, true);
    assert Consistent(s[1]) && s[1].timeseries == t.timeseries;
    EmptyPipelineRun(s[1], job, supply(1).0, supply(1).1);
    RunOnOne(s, 1, job, supply);
  }

  /** The experiment, holding no timeseries, adds nothing to the loop. */
  lemma ExperimentSkipped(e: Level, t: Level, supply: Fresh)
    requires e.parent.None? && e.timeseries == [] && t.child.None?
    ensures RunOn(Over(e, t), [0, 1], Plain(None, None, true), None, supply)
            == RunOn(Over(e, t), [1], Plain(None, None, true), None, supply)
  {
    RunOnSkip(Over(e, t), 0, [1], Plain(None, None, true), supply);
    assert [0] + [1] == [0, 1];
  }

  /** The levels the examples start from exist: a new experiment, and `OneInput(v)`. */
  lemma StartingLevels(v: Value)
    ensures HoldsInput(OneInput(v), v) && OneInput(v).child.None?
    ensures NewExperiment("exp1").parent.None? && NewExperiment("exp1").timeseries == []
  {
  }
}
