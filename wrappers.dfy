/** Failure-carrying values for the Python exceptions and the non-finite float
    results that the modelled code can produce. */
module Wrappers {

  datatype Option<+T> = None | Some(value: T)

  /** The ways a modelled operation can fail, named after what Python or pandas
      would do at that point. */
  datatype Error =
    | KeyError(key: string)   // a missing column, row label or dictionary key
    | IndexError              // positional access past the end of a sequence
    | NotFinite               // a NaN or infinite float, or rounding one to an integer
    | TypeError               // concatenating a string with a float NaN
    | ValueError              // pandas objects of mismatched lengths; a frame of scalars alone
    | NothingToConcatenate    // pandas.concat of an empty list

  datatype Result<+T> = Ok(value: T) | Err(error: Error)

  /** How a step that Python would abort with an exception ended. */
  datatype Outcome = Done | Failed(error: Error)
}
