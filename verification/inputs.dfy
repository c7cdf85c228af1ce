/**
 * The input gates of src/mopipe/core/segments/inputs.py: each segment
 * mixes in one of them, and `validate_input` decides on the keyword
 * arguments of a call whether the segment may run.
 */
module Inputs {
  import opened Errors
  import opened SegmentIO

  /** Keyword arguments of a call. */
  type Kwargs = map<string, Value>

  /**
   * The input mixins. `OtherInput` carries the subclass's
   * `_validate_other`, or `None` when the subclass keeps the base
   * version, which raises.
   */
  datatype InputGate =
    | UnivariateSeriesInput
    | MultivariateSeriesInput
    | SingleValueInput
    | MultiValueInput
    | SingleNumericValueInput
    | AnySeriesInput
    | AnyNumericInput
    | AnyInput
    | OtherInput(other: Option<Value -> bool>)

  /** `_ensure_input_exists` (inputs.py:17-21). */
  function InputExists(kwargs: Kwargs): (ok: bool)
    ensures ok <==> "x" in kwargs
  {
    "x" in kwargs
  }

  /** The type/shape test a gate applies to `x`. */
  function Accepts(gate: InputGate, x: Value): bool
    requires !gate.OtherInput?
  {
    match gate
    case UnivariateSeriesInput => SeriesOrFrame(x) && Univariate(x)
    case MultivariateSeriesInput => SeriesOrFrame(x) && Multivariate(x)
    case SingleValueInput => SingleValue(x)
    case MultiValueInput => MultipleValues(x)
    case SingleNumericValueInput => SingleNumericValue(x)
    case AnySeriesInput => AnySeries(x)
    case AnyNumericInput => AnyNumeric(x)
    case AnyInput => AnyValue(x)
  }

  /**
   * `validate_input` (inputs.py:34-160). Every gate but `OtherInput`
   * answers False without an `x`; `OtherInput` reads `x` unchecked (a
   * KeyError without one) and defers to `_validate_other`.
   */
  function ValidateInput(gate: InputGate, kwargs: Kwargs): (r: Result<bool>)
    ensures !gate.OtherInput? ==> r.Ok?
    ensures !gate.OtherInput? && "x" !in kwargs ==> r == Ok(false)
    ensures !gate.OtherInput? && "x" in kwargs ==> r == Ok(Accepts(gate, kwargs["x"]))
    ensures gate.OtherInput? && "x" !in kwargs ==> r == Err(KeyError)
    ensures gate.OtherInput? && "x" in kwargs && gate.other.None? ==> r == Err(NotImplementedError)
    ensures gate.OtherInput? && "x" in kwargs && gate.other.Some? ==> r == Ok(gate.other.value(kwargs["x"]))
  {
    if gate.OtherInput? then
      if "x" !in kwargs then Err(KeyError)
      else match gate.other
        case None => Err(NotImplementedError)
        case Some(f) => Ok(f(kwargs["x"]))
    else if !InputExists(kwargs) then Ok(false)
    else Ok(Accepts(gate, kwargs["x"]))
  }

  /** A univariate gate takes a Series or a one-column frame of at least two rows, and no wider frame. */
  lemma UnivariateInputShapes(x: Value)
    ensures ValidateInput(UnivariateSeriesInput, map["x" := x]) == Ok(
              (x.Series? && |x.column.cells| >= 2) || (x.Frame? && x.table.Rows() >= 2 && x.table.Cols() == 1))
    ensures x.Frame? && x.table.Cols() >= 2 ==> ValidateInput(UnivariateSeriesInput, map["x" := x]) == Ok(false)
  {
  }

  /** A multivariate gate takes frames of at least two rows and two columns, and never a Series. */
  lemma MultivariateInputShapes(x: Value)
    ensures ValidateInput(MultivariateSeriesInput, map["x" := x]) == Ok(
              x.Frame? && x.table.Rows() >= 2 && x.table.Cols() >= 2)
    ensures x.Series? ==> ValidateInput(MultivariateSeriesInput, map["x" := x]) == Ok(false)
  {
  }

  /** An AnyInput gate accepts any value that is present, None included. */
  lemma AnyInputAcceptsPresent(kwargs: Kwargs)
    ensures ValidateInput(AnyInput, kwargs) == Ok("x" in kwargs)
  {
  }
}
