/** Optional values, the errors the fitter raises, and results carrying either. */
module Outcomes {

  /**
   * An argument that may be left out: Python's `None`, or a keyword that was
   * not passed.
   */
  datatype Option<T> = None | Some(value: T)

  /** The supplied argument, or `default` when it was left out. */
  function Supplied<T>(arg: Option<T>, default: T): T {
    if arg.Some? then arg.value else default
  }

  /** The exceptions the fitter lets escape to its caller. */
  datatype Error =
    | UnsupportedPrior   // a prior family other than "uniform" was configured
    | EmptyChain         // `max` over a chain with no usable sample
    | UndefinedName      // a name lookup that fails at run time

  /** Either the value an operation returns or the exception it raises. */
  datatype Result<+T> = Ok(value: T) | Err(error: Error)
}
