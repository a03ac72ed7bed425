/** `wove.gauge`: stitch and row gauges as a count divided by a length. */
module Gauge {
  import opened Wrappers

  /** The ValueError "<name> must be positive". */
  datatype GaugeError = NotPositive(name: string)

  function GaugeMessage(e: GaugeError): string
  {
    e.name + " must be positive"
  }

  /** `_validate_positive`. */
  function ValidatePositive(value: real, name: string): (r: Outcome<GaugeError>)
    ensures r == Pass <==> value > 0.0
    ensures r.Fail? ==> r.error == NotPositive(name)
  {
    if value <= 0.0 then Fail(NotPositive(name)) else Pass
  }

  /**
   * The shared shape of the four gauges: validate the count, then the length, then
   * divide. The count is checked first, so it is the one named when both are bad.
   */
  function Quotient(count: real, countName: string, length: real, lengthName: string)
    : (r: Result<real, GaugeError>)
    ensures count <= 0.0 ==> r == Failure(NotPositive(countName))
    ensures count > 0.0 && length <= 0.0 ==> r == Failure(NotPositive(lengthName))
    ensures r.Success? <==> count > 0.0 && length > 0.0
    ensures r.Success? ==> r.value > 0.0 && r.value * length == count
  {
    match ValidatePositive(count, countName)
    case Fail(e) => Failure(e)
    case Pass =>
      match ValidatePositive(length, lengthName)
      case Fail(e) => Failure(e)
      case Pass => Success(count / length)
  }

  /** `stitches_per_inch`: `Quotient` naming "stitches" and "inches". */
  function StitchesPerInch(stitches: real, inches: real): (r: Result<real, GaugeError>)
    ensures r.Success? <==> stitches > 0.0 && inches > 0.0
  {
    Quotient(stitches, "stitches", inches, "inches")
  }

  /** `rows_per_inch`: `Quotient` naming "rows" and "inches". */
  function RowsPerInch(rows: real, inches: real): (r: Result<real, GaugeError>)
    ensures r.Success? <==> rows > 0.0 && inches > 0.0
  {
    Quotient(rows, "rows", inches, "inches")
  }

  /** `stitches_per_cm`: `Quotient` naming "stitches" and "cm". */
  function StitchesPerCm(stitches: real, cm: real): (r: Result<real, GaugeError>)
    ensures r.Success? <==> stitches > 0.0 && cm > 0.0
  {
    Quotient(stitches, "stitches", cm, "cm")
  }

  /** `rows_per_cm`: `Quotient` naming "rows" and "cm". */
  function RowsPerCm(rows: real, cm: real): (r: Result<real, GaugeError>)
    ensures r.Success? <==> rows > 0.0 && cm > 0.0
  {
    Quotient(rows, "rows", cm, "cm")
  }

  /**
   * The four gauges compute the same quotient and fail on the same inputs; only the
   * argument names in their messages differ.
   */
  lemma GaugesAgree(count: real, length: real)
    ensures StitchesPerInch(count, length).Success? <==> RowsPerCm(count, length).Success?
    ensures StitchesPerInch(count, length).Success? ==>
      StitchesPerInch(count, length) == RowsPerInch(count, length) ==
      StitchesPerCm(count, length) == RowsPerCm(count, length)
  {
  }
}
