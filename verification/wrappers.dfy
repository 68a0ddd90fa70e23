/** The optional-value type used wherever the source reads a field that may be absent
    (`user` before login, `appointment.timeSlot?.start`) or a parse that may fail. */
module Wrappers {

  datatype Option<+T> = None | Some(value: T) {

    /** Returns the value in Some, or `default` when None. */
    function GetOr(default: T): T {
      match this
      case Some(v) => v
      case None => default
    }
  }
}
