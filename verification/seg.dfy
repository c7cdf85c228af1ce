/**
 * The segment call protocol of src/mopipe/core/segments/seg.py: a
 * segment validates its keyword arguments, preprocesses them, processes,
 * postprocesses and validates the output. The body of a concrete
 * segment (`process`) and its hooks are functions carried by the segment.
 */
module Seg {
  import opened Errors
  import opened SegmentIO
  import opened Inputs
  import opened Outputs
  import Util

  datatype Segment = Segment(
    name: string,
    segmentId: string,
    input: InputGate,
    output: OutputGate,
    process: Kwargs -> Result<Value>,
    preprocess: Kwargs -> Kwargs,
    postprocess: Value -> Value)

  /**
   * `Segment.__init__` (seg.py:31-34) with the default hooks of
   * seg.py:46-52 (`_preprocess_input` returns its kwargs, and
   * `_postprocess_output` its output). A given id is kept verbatim,
   * otherwise it is generated with the name as prefix.
   */
  function MakeSegment(name: string, id: Option<string>, uuid: string, input: InputGate, output: OutputGate,
                       process: Kwargs -> Result<Value>): (s: Segment)
    ensures s.name == name && s.input == input && s.output == output && s.process == process
    ensures id.Some? ==> s.segmentId == id.value
    ensures id.None? ==> s.segmentId == name + "_" + uuid
    ensures forall kw :: s.preprocess(kw) == kw
    ensures forall v :: s.postprocess(v) == v
  {
    Util.GeneratedIdParts(name, uuid);
    Segment(name, Util.MaybeGenerateId(id, Some(name), None, uuid), input, output, process, kw => kw, v => v)
  }

  /** `Segment.__call__` (seg.py:87-98). */
  function Call(s: Segment, kwargs: Kwargs): (r: Result<Value>)
    ensures ValidateInput(s.input, kwargs) == Ok(false) ==> r == Err(ValueError)
    ensures ValidateInput(s.input, kwargs).Err? ==> r == Err(ValidateInput(s.input, kwargs).error)
    ensures r.Ok? ==> ValidateInput(s.input, kwargs) == Ok(true)
    ensures r.Ok? ==> s.process(s.preprocess(kwargs)).Ok?
                      && r.value == s.postprocess(s.process(s.preprocess(kwargs)).value)
                      && ValidateOutput(s.output, r.value) == Ok(true)
  {
    var valid :- ValidateInput(s.input, kwargs);
    if !valid then Err(ValueError)
    else
      var args := s.preprocess(kwargs);
      var out :- s.process(args);
      var result := s.postprocess(out);
      var ok :- ValidateOutput(s.output, result);
      if !ok then Err(ValueError) else Ok(result)
  }

  /** On invalid input the body is never consulted: any other body gives the same outcome. */
  lemma InvalidInputSkipsProcess(s: Segment, body: Kwargs -> Result<Value>, kwargs: Kwargs)
    requires ValidateInput(s.input, kwargs) == Ok(false)
    ensures Call(s, kwargs) == Call(s.(process := body), kwargs) == Err(ValueError)
  {
  }

  /** A produced output the output gate refuses raises ValueError (seg.py:95-97). */
  lemma InvalidOutputRaises(s: Segment, kwargs: Kwargs)
    requires ValidateInput(s.input, kwargs) == Ok(true)
    requires s.process(s.preprocess(kwargs)).Ok?
    requires ValidateOutput(s.output, s.postprocess(s.process(s.preprocess(kwargs)).value)) == Ok(false)
    ensures Call(s, kwargs) == Err(ValueError)
  {
  }

  /** With the default hooks a valid call returns exactly what the body returns. */
  lemma DefaultHooksReturnProcessOutput(name: string, id: Option<string>, uuid: string, input: InputGate,
                                        output: OutputGate, process: Kwargs -> Result<Value>, kwargs: Kwargs)
    requires ValidateInput(input, kwargs) == Ok(true)
    requires process(kwargs).Ok? && ValidateOutput(output, process(kwargs).value) == Ok(true)
    ensures Call(MakeSegment(name, id, uuid, input, output, process), kwargs) == process(kwargs)
  {
    var s := MakeSegment(name, id, uuid, input, output, process);
    assert s.preprocess(kwargs) == kwargs;
    assert s.postprocess(process(kwargs).value) == process(kwargs).value;
  }
}
