/** Option and Result values, and the errors the modelled program can report. */
module Wrappers {

  datatype Option<+T> = None | Some(value: T)

  /** The failures calendar-tidy surfaces to its caller (anyhow::Error in the program). */
  datatype Error =
    | InvalidDate                      // the start date did not parse
    | EndTimeOutOfRange                // time_min + 24 * days hours is not a representable instant
    | FetchFailed(reason: string)      // the backend's list call failed
    | DeleteFailed(id: string)         // the backend refused to delete this event id

  datatype Result<+T> = Ok(value: T) | Err(error: Error) {
    predicate IsFailure() { Err? }

    function PropagateFailure<U>(): Result<U>
      requires Err?
    {
      Err(error)
    }

    function Extract(): T
      requires Ok?
    {
      value
    }
  }
}
