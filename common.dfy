/** Value types shared by the whole model: an optional value, the exceptions the
    interface code can raise, and the outcome of a callback that may raise one. */
module Common {

  /** Python's `None` or a value. */
  datatype Option<T> = None | Some(value: T) {
    function GetOr(default: T): T {
      if Some? then value else default
    }
  }

  /** The built-in exceptions the modelled callbacks can raise. `Unmodelled` stands
      for a path whose behaviour depends on a conversion this model does not
      describe (see the README). */
  datatype Exception =
    | ValueError
    | IndexError
    | KeyError
    | ZeroDivisionError
    | AttributeError
    | TypeError
    | Unmodelled

  /** How a callback ended: normally, or with an exception that propagates to the
      Tk event loop (which reports it and carries on). */
  datatype Outcome = Done | Raised(error: Exception)

  /** A value, or the exception raised while computing it. */
  datatype Result<T> = Ok(value: T) | Err(error: Exception)
}
