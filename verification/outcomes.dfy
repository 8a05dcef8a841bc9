/** Failure-carrying results shared by the fuzzy inference model. */
module Outcomes {

  /** The ways a construction or an inference call can fail. */
  datatype Error =
    | ZeroStep          // a sample grid whose step is 0 (numpy's arange divides by the step)
    | NoRules           // aggregation over an empty rule base
    | MissingInput      // a rule names a membership degree that was not supplied
    | UniverseMismatch  // a consequent curve is not sampled on the output universe

  datatype Result<+T> = Ok(value: T) | Failure(error: Error)
}
