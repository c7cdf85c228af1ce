/**
 * Running a pipeline on the timeseries of an experiment level
 * (src/mopipe/core/data/experiment.py): `run_pipeline` on one level and
 * `run_pipeline_on_descendants` down the chain of children. The fresh
 * object identity and the uuid of each stored result are parameters.
 */
module ExperimentRuns {
  import opened Errors
  import opened SegmentIO
  import opened Inputs
  import Pipelines
  import opened Empirical
  import opened ExperimentData
  import opened ExperimentLinks

  /** The arguments every level's run shares: pipeline, input and result names, keyword arguments. */
  datatype Job = Job(p: Pipelines.Pipeline, dataName: Option<string>, resultName: Option<string>, kwargs: Kwargs, store: bool)

  /**
   * The input timeseries (experiment.py:276-286): a level without
   * timeseries, or a named timeseries the level does not have, is a
   * ValueError; without a name it is the first timeseries.
   */
  function Source(l: Level, dataName: Option<string>): (r: Result<Item>)
    ensures l.timeseries == [] ==> r == Err(ValueError)
    ensures r.Ok? ==> r.value in l.timeseries
    ensures l.timeseries != [] && dataName.None? ==> r == Ok(l.timeseries[0])
    ensures l.timeseries != [] && dataName.Some? ==>
              (r.Ok? <==> GetTimeseries(l, dataName.value, ByName).Ok? && GetTimeseries(l, dataName.value, ByName).value.Some?)
    ensures r.Err? ==> r.error == ValueError || r.error == IndexError
  {
    if |l.timeseries| == 0 then Err(ValueError)
    else if dataName.None? then Ok(l.timeseries[0])
    else
      var found :- GetTimeseries(l, dataName.value, ByName);
      if found.None? then Err(ValueError) else Ok(found.value)
  }

  /** On a consistent level a named input is the first timeseries with that name. */
  lemma SourceByName(l: Level, name: string)
    requires Consistent(l) && l.timeseries != []
    ensures var first := FirstWith(l.timeseries, name, ByName);
            Source(l, Some(name)) == if first.Some? then Ok(l.timeseries[first.value]) else Err(ValueError)
  {
    GetTimeseriesFirst(l, name, ByName);
  }

  /** The name of the result: the one given, or the input's name with `_processed` appended. */
  function ResultName(job: Job, source: Item): (n: string)
    ensures job.resultName.Some? ==> n == job.resultName.value
    ensures job.resultName.None? ==> |n| == |source.data.name| + 10 && n[..|source.data.name|] == source.data.name
                                     && n[|source.data.name|..] == "_processed"
  {
    if job.resultName.Some? then job.resultName.value else source.data.name + "_processed"
  }

  /**
   * `run_pipeline` (experiment.py:275-302): the input's data becomes the
   * keyword argument `x`, the pipeline's output is wrapped with the
   * input's metadata and the result name under a generated id, and, when
   * asked, added to the level's timeseries as the object `ref`.
   */
  function RunPipeline(l: Level, job: Job, uuid: string, ref: nat): (r: Result<(Level, EmpiricalData)>)
    ensures Source(l, job.dataName).Err? ==> r == Err(Source(l, job.dataName).error)
    ensures Source(l, job.dataName).Ok? ==>
              var source := Source(l, job.dataName).value;
              var out := Pipelines.Run(job.p, job.kwargs["x" := source.data.data]);
              (out.Err? ==> r == Err(out.error))
              && (r.Ok? ==> out.Ok? && r.value.1 == MakeData(out.value, source.data.metadata, ResultName(job, source), None, uuid))
    ensures r.Ok? && !job.store ==> r.value.0 == l
    ensures r.Ok? && job.store ==> r.value.0.timeseries == l.timeseries + [Item(ref, r.value.1)]
                                   && SameOutside(l, r.value.0, Timeseries)
  {
    var source :- Source(l, job.dataName);
    var out :- Pipelines.Run(job.p, job.kwargs["x" := source.data.data]);
    var result := MakeData(out, source.data.metadata, ResultName(job, source), None, uuid);
    if job.store then
      var l' :- AddTimeseries(l, Item(ref, result));
      Ok((l', result))
    else Ok((l, result))
  }

  /**
   * On a consistent level, with a new object identity, only the input
   * lookup and the pipeline can fail, and the level stays consistent.
   */
  lemma RunPipelineSucceeds(l: Level, job: Job, uuid: string, ref: nat)
    requires Consistent(l) && ref !in Refs(l.timeseries)
    ensures var source := Source(l, job.dataName);
            RunPipeline(l, job, uuid, ref).Ok? <==> source.Ok? && Pipelines.Run(job.p, job.kwargs["x" := source.value.data.data]).Ok?
    ensures RunPipeline(l, job, uuid, ref).Ok? ==> Consistent(RunPipeline(l, job, uuid, ref).value.0)
  {
    var source := Source(l, job.dataName);
    if source.Ok? {
      var out := Pipelines.Run(job.p, job.kwargs["x" := source.value.data.data]);
      if out.Ok? {
        var result := MakeData(out.value, source.value.data.metadata, ResultName(job, source.value), None, uuid);
        AddTimeseriesFresh(l, Item(ref, result));
      }
    }
  }

  /** A stored result is what a later lookup of its name finds, unless an earlier timeseries has that name. */
  lemma RunThenGet(l: Level, job: Job, uuid: string, ref: nat)
    requires Consistent(l) && ref !in Refs(l.timeseries) && job.store
    requires RunPipeline(l, job, uuid, ref).Ok?
    ensures var (l', result) := RunPipeline(l, job, uuid, ref).value;
            var prior := FirstWith(l.timeseries, result.name, ByName);
            GetTimeseries(l', result.name, ByName) == Ok(Some(if prior.Some? then l.timeseries[prior.value] else Item(ref, result)))
  {
    var result := RunPipeline(l, job, uuid, ref).value.1;
    AddThenGet(l, Item(ref, result), ByName);
  }

  /**
   * The store step as written: on a level without level data, a result
   * whose name an existing timeseries already carries makes the source's
   * `add_timeseries` raise IndexError, where the model's run stores it.
   */
  lemma RunStoreAsWrittenRaises(l: Level, job: Job, uuid: string, ref: nat, k: nat)
    requires Consistent(l) && ref !in Refs(l.timeseries) && job.store && l.leveldata == []
    requires RunPipeline(l, job, uuid, ref).Ok?
    requires k < |l.timeseries| && l.timeseries[k].data.name == RunPipeline(l, job, uuid, ref).value.1.name
    ensures AddTimeseriesAsWritten(l, Item(ref, RunPipeline(l, job, uuid, ref).value.1)) == Err(IndexError)
  {
    AddTimeseriesAsWrittenRaises(l, Item(ref, RunPipeline(l, job, uuid, ref).value.1), k);
  }

  /* ---------------------------------------------------------------- */
  /* Descendants                                                       */
  /* ---------------------------------------------------------------- */

  /**
   * The filter of `run_pipeline_on_descendants` (experiment.py:332-338):
   * the level is at the target depth when one is given, has timeseries,
   * and has the named timeseries when a name is given.
   */
  function Eligible(l: Level, targetDepth: Option<int>, dataName: Option<string>): (r: Result<bool>)
    ensures r.Ok? && r.value ==> targetDepth.Some? ==> l.depth == targetDepth.value
    ensures r.Ok? && r.value ==> Source(l, dataName).Ok?
    ensures r.Ok? && !r.value ==> (targetDepth.Some? && l.depth != targetDepth.value) || Source(l, dataName) == Err(ValueError)
    ensures r.Err? ==> r == Err(IndexError)
  {
    if targetDepth.Some? && l.depth != targetDepth.value then Ok(false)
    else if |l.timeseries| == 0 then Ok(false)
    else if dataName.None? then Ok(true)
    else
      var found :- GetTimeseries(l, dataName.value, ByName);
      Ok(found.Some?)
  }

  /** Where a fresh uuid and object identity come from, per level. */
  type Fresh = nat -> (string, nat)

  /**
   * The loop of `run_pipeline_on_descendants` (experiment.py:331-346)
   * over the given levels: each eligible level runs the pipeline on its
   * current state and the results are collected in order.
   */
  function RunOn(s: Store, ids: seq<nat>, job: Job, targetDepth: Option<int>, supply: Fresh): (r: Result<(Store, seq<EmpiricalData>)>)
    requires forall i | 0 <= i < |ids| :: ids[i] in s
    ensures r.Ok? ==> r.value.0.Keys == s.Keys && |r.value.1| <= |ids|
    ensures r.Ok? ==> forall k | k in s :: SameOutside(s[k], r.value.0[k], Timeseries)
    ensures r.Ok? ==> forall k | k in s && k !in ids :: r.value.0[k] == s[k]
    decreases |ids|
  {
    if ids == [] then Ok((s, []))
    else
      var x := ids[0];
      var ok :- Eligible(s[x], targetDepth, job.dataName);
      if !ok then RunOn(s, ids[1..], job, targetDepth, supply)
      else
        var step :- RunPipeline(s[x], job, supply(x).0, supply(x).1);
        var rest :- RunOn(s[x := step.0], ids[1..], job, targetDepth, supply);
        Ok((rest.0, [step.1] + rest.1))
  }

  /**
   * The reference reading of the loop: every eligible level's result
   * computed from the level as it was before the loop.
   */
  function ResultsOn(s: Store, ids: seq<nat>, job: Job, targetDepth: Option<int>, supply: Fresh): (r: Result<seq<EmpiricalData>>)
    requires forall i | 0 <= i < |ids| :: ids[i] in s
    ensures r.Ok? ==> |r.value| <= |ids|
    decreases |ids|
  {
    if ids == [] then Ok([])
    else
      var x := ids[0];
      var ok :- Eligible(s[x], targetDepth, job.dataName);
      var rest :- ResultsOn(s, ids[1..], job, targetDepth, supply);
      if !ok then Ok(rest)
      else
        var step :- RunPipeline(s[x], job, supply(x).0, supply(x).1);
        Ok([step.1] + rest)
  }

  /** The reference reading depends only on the listed levels. */
  lemma {:induction false} ResultsLocal(s: Store, s': Store, ids: seq<nat>, job: Job, targetDepth: Option<int>, supply: Fresh)
    requires forall i | 0 <= i < |ids| :: ids[i] in s && ids[i] in s' && s[ids[i]] == s'[ids[i]]
    ensures ResultsOn(s, ids, job, targetDepth, supply) == ResultsOn(s', ids, job, targetDepth, supply)
    decreases |ids|
  {
    if ids != [] {
      ResultsLocal(s, s', ids[1..], job, targetDepth, supply);
    }
  }

  /** Levels listed once each do not see each other's stored results. */
  predicate Distinct(ids: seq<nat>) {
    forall i, j | 0 <= i < j < |ids| :: ids[i] != ids[j]
  }

  /** The rest of a distinct list is distinct and does not hold its head. */
  lemma DistinctTail(ids: seq<nat>)
    requires Distinct(ids) && ids != []
    ensures Distinct(ids[1..])
    ensures forall i | 0 <= i < |ids[1..]| :: ids[1..][i] == ids[i + 1] && ids[1..][i] != ids[0]
  {
  }

  /** One step of a completed loop: the head level is skipped, or its result leads the rest. */
  lemma RunOnHead(s: Store, ids: seq<nat>, job: Job, targetDepth: Option<int>, supply: Fresh)
    requires ids != [] && forall i | 0 <= i < |ids| :: ids[i] in s
    requires RunOn(s, ids, job, targetDepth, supply).Ok?
    ensures Eligible(s[ids[0]], targetDepth, job.dataName).Ok?
    ensures Eligible(s[ids[0]], targetDepth, job.dataName) == Ok(false) ==>
              RunOn(s, ids[1..], job, targetDepth, supply) == RunOn(s, ids, job, targetDepth, supply)
    ensures Eligible(s[ids[0]], targetDepth, job.dataName) == Ok(true) ==>
              var x := ids[0];
              RunPipeline(s[x], job, supply(x).0, supply(x).1).Ok? &&
              var step := RunPipeline(s[x], job, supply(x).0, supply(x).1).value;
              RunOn(s[x := step.0], ids[1..], job, targetDepth, supply).Ok? &&
              RunOn(s, ids, job, targetDepth, supply).value.1 == [step.1] + RunOn(s[x := step.0], ids[1..], job, targetDepth, supply).value.1
  {
  }

  /** One step of the reference reading, given the reading of the rest. */
  lemma ResultsOnHead(s: Store, ids: seq<nat>, job: Job, targetDepth: Option<int>, supply: Fresh, rest: seq<EmpiricalData>)
    requires ids != [] && forall i | 0 <= i < |ids| :: ids[i] in s
    requires Eligible(s[ids[0]], targetDepth, job.dataName).Ok?
    requires ResultsOn(s, ids[1..], job, targetDepth, supply) == Ok(rest)
    ensures Eligible(s[ids[0]], targetDepth, job.dataName) == Ok(false) ==> ResultsOn(s, ids, job, targetDepth, supply) == Ok(rest)
    ensures var x := ids[0];
            Eligible(s[x], targetDepth, job.dataName) == Ok(true) && RunPipeline(s[x], job, supply(x).0, supply(x).1).Ok? ==>
              ResultsOn(s, ids, job, targetDepth, supply) == Ok([RunPipeline(s[x], job, supply(x).0, supply(x).1).value.1] + rest)
  {
  }

  /** Levels other than the one updated read the same. */
  lemma UpdateElsewhere(s: Store, x: nat, v: Level, ids: seq<nat>)
    requires forall i | 0 <= i < |ids| :: ids[i] in s && ids[i] != x
    ensures forall i | 0 <= i < |ids| :: ids[i] in s[x := v] && s[x := v][ids[i]] == s[ids[i]]
  {
  }

  /**
   * Over distinct levels, when the loop completes its results are the
   * reference results: storing a result on one level changes nothing
   * the later levels read.
   */
  lemma {:induction false} RunOnMatchesResults(s: Store, ids: seq<nat>, job: Job, targetDepth: Option<int>, supply: Fresh)
    requires forall i | 0 <= i < |ids| :: ids[i] in s
    requires Distinct(ids)
    requires RunOn(s, ids, job, targetDepth, supply).Ok?
    ensures ResultsOn(s, ids, job, targetDepth, supply) == Ok(RunOn(s, ids, job, targetDepth, supply).value.1)
    decreases |ids|, 1
  {
    if ids != [] {
      var tail := ids[1..];
      DistinctTail(ids);
      RunOnHead(s, ids, job, targetDepth, supply);
      if Eligible(s[ids[0]], targetDepth, job.dataName) == Ok(false) {
        RunOnMatchesResults(s, tail, job, targetDepth, supply);
        ResultsOnHead(s, ids, job, targetDepth, supply, RunOn(s, tail, job, targetDepth, supply).value.1);
      } else {
        EligibleHeadMatches(s, ids, job, targetDepth, supply);
      }
    }
  }

  /** The step of `RunOnMatchesResults` where the head level is eligible and stores its result. */
  lemma {:induction false} EligibleHeadMatches(s: Store, ids: seq<nat>, job: Job, targetDepth: Option<int>, supply: Fresh)
    requires ids != [] && forall i | 0 <= i < |ids| :: ids[i] in s
    requires Distinct(ids)
    requires RunOn(s, ids, job, targetDepth, supply).Ok?
    requires Eligible(s[ids[0]], targetDepth, job.dataName) == Ok(true)
    ensures ResultsOn(s, ids, job, targetDepth, supply) == Ok(RunOn(s, ids, job, targetDepth, supply).value.1)
    decreases |ids|, 0
  {
    var x := ids[0];
    var tail := ids[1..];
    DistinctTail(ids);
    RunOnHead(s, ids, job, targetDepth, supply);
    var step := RunPipeline(s[x], job, supply(x).0, supply(x).1).value;
    var s1 := s[x := step.0];
    UpdateElsewhere(s, x, step.0, tail);
    RunOnMatchesResults(s1, tail, job, targetDepth, supply);
    ResultsLocal(s1, s, tail, job, targetDepth, supply);
    ResultsOnHead(s, ids, job, targetDepth, supply, RunOn(s1, tail, job, targetDepth, supply).value.1);
  }

  /**
   * `run_pipeline_on_descendants` (experiment.py:304-347): the loop over
   * the level and its descendants, in order. A child chain that does not
   * end is a RecursionError.
   */
  function RunPipelineOnDescendants(s: Store, x: nat, job: Job, targetDepth: Option<int>, supply: Fresh)
    : (r: Result<(Store, seq<EmpiricalData>)>)
    requires Closed(s) && x in s
    ensures Chain(s, x, Down).Err? ==> r == Err(RecursionError)
    ensures Chain(s, x, Down).Ok? ==> r == RunOn(s, Chain(s, x, Down).value, job, targetDepth, supply)
    ensures r.Ok? ==> r.value.0.Keys == s.Keys && Closed(r.value.0)
  {
    var chain :- Chain(s, x, Down);
    assert forall i | 0 <= i < |chain| :: chain[i] in s;
    var r := RunOn(s, chain, job, targetDepth, supply);
    assert r.Ok? ==> forall k | k in s :: r.value.0[k].parent == s[k].parent && r.value.0[k].child == s[k].child;
    r
  }

  /** The results of a completed run are the reference results over the descent. */
  lemma DescendantsResults(s: Store, x: nat, job: Job, targetDepth: Option<int>, supply: Fresh)
    requires Closed(s) && x in s
    requires RunPipelineOnDescendants(s, x, job, targetDepth, supply).Ok?
    ensures Chain(s, x, Down).Ok?
    ensures ResultsOn(s, Chain(s, x, Down).value, job, targetDepth, supply)
            == Ok(RunPipelineOnDescendants(s, x, job, targetDepth, supply).value.1)
  {
    var chain := Chain(s, x, Down).value;
    WalkDistinct(s, chain, Down);
    RunOnMatchesResults(s, chain, job, targetDepth, supply);
  }
}
