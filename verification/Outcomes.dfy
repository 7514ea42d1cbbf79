/** Results shared by the other modules. */
module Outcomes {

  datatype Option<T> = None | Some(value: T)

  /** A Go error value: nil, or an error with its text. */
  datatype Outcome = Clean | Failed(text: string)
}
