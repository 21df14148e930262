/** Small result types shared by the model. */
module Results {

  /** A value that may be absent. */
  datatype Option<+T> = None | Some(value: T)

  /** The reply of an external service: a value, or a failure whose reason
      the program only logs. */
  datatype Outcome<+T> = Ok(value: T) | Failed(reason: string)
}
