/**
 * What the transcoders make of the media probe's answer: the `duration` field
 * of its `format` section is missing, the literal `N/A`, unparseable, or a
 * number.
 */
module Probe {
  import opened Wrappers

  /**
   * The probe's answer for one file: the tool failed (with its error output),
   * or it reported a `format` section whose `duration` may be absent.
   */
  datatype ProbeOutcome = ProbeFailed(stderr: string) | Probed(duration: Option<string>)

  /** Why no duration could be used. */
  datatype DurationError = CannotDetermine | InvalidDuration(text: string)

  /**
   * The duration check shared by the three transcoders. `parseFloat` stands
   * for Python's `float(text)`, `None` where it raises `ValueError`.
   */
  function ParseDuration(field: Option<string>, parseFloat: string -> Option<real>): (r: Result<real, DurationError>)
    ensures r == Err(CannotDetermine) <==> field == None || field == Some("N/A")
    ensures r.Err? && r.error.InvalidDuration? <==>
              field.Some? && field.value != "N/A" && parseFloat(field.value).None?
    ensures r.Err? && r.error.InvalidDuration? ==> r.error.text == field.value
    ensures r.Ok? <==> field.Some? && field.value != "N/A" && parseFloat(field.value).Some?
    ensures r.Ok? ==> Some(r.value) == parseFloat(field.value)
  {
    match field
    case None => Err(CannotDetermine)
    case Some(text) =>
      if text == "N/A" then Err(CannotDetermine)
      else
        match parseFloat(text)
        case None => Err(InvalidDuration(text))
        case Some(d) => Ok(d)
  }
}
