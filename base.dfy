/** Values shared by every module of the model: optional values (JavaScript's
    `undefined`/`null`) and the way an awaited operation settles. */
module Base {

  datatype Option<T> = None | Some(value: T) {
    /** `x ?? d`: the value, or `d` when absent. */
    function GetOr(default: T): T {
      if Some? then value else default
    }
  }

  /** How a promise-returning operation settles: it resolves, or it rejects
      (`Threw`) with an error whose `message` is given. */
  datatype Outcome = Resolved | Threw(message: string)
}
