/**
 * The output gates of src/mopipe/core/segments/outputs.py:
 * `validate_output` decides whether what a segment produced is
 * acceptable.
 */
module Outputs {
  import opened Errors
  import opened SegmentIO

  /** The output mixins; `OtherOutput` as for inputs. */
  datatype OutputGate =
    | UnivariateSeriesOutput
    | MultivariateSeriesOutput
    | SingleValueOutput
    | MultiValueOutput
    | SingleNumericValueOutput
    | AnySeriesOutput
    | AnyNumericOutput
    | AnyOutput
    | OtherOutput(other: Option<Value -> bool>)

  /** `validate_output` (outputs.py:28-137). */
  function ValidateOutput(gate: OutputGate, out: Value): (r: Result<bool>)
    ensures gate.OtherOutput? && gate.other.None? ==> r == Err(NotImplementedError)
    ensures !(gate.OtherOutput? && gate.other.None?) ==> r.Ok?
    ensures gate == UnivariateSeriesOutput ==>
              r == Ok((out.Series? && |out.column.cells| >= 2)
                      || (out.Frame? && out.table.Rows() >= 2 && out.table.Cols() == 1))
    ensures gate == MultivariateSeriesOutput ==>
              r == Ok(out.Frame? && out.table.Rows() >= 2 && out.table.Cols() >= 2)
    ensures gate == AnySeriesOutput ==>
              r == Ok(out.Frame? && out.table.Rows() >= 1 && out.table.Cols() >= 1)
    ensures gate == SingleNumericValueOutput ==> r == Ok(out.Int? || out.Float? || out.Scalar?)
    ensures gate == AnyOutput ==> r == Ok(true)
  {
    match gate
    case UnivariateSeriesOutput => Ok(SeriesOrFrame(out) && Univariate(out))
    case MultivariateSeriesOutput => Ok(SeriesOrFrame(out) && Multivariate(out))
    case SingleValueOutput => Ok(SingleValue(out))
    case MultiValueOutput => Ok(MultipleValues(out))
    case SingleNumericValueOutput => Ok(SingleNumericValue(out))
    case AnySeriesOutput => Ok(AnySeries(out))
    case AnyNumericOutput => Ok(AnyNumeric(out))
    case AnyOutput => Ok(AnyValue(out))
    case OtherOutput(other) =>
      match other
      case None => Err(NotImplementedError)
      case Some(f) => Ok(f(out))
  }
}
