/** Outcomes shared by the timer, the report and the benchmark runner:
    an optional value, a value-or-exception result, and the exceptions the
    modelled code raises or lets through. */
module Errors {

  datatype Option<T> = None | Some(value: T)

  /** The exceptions that can leave a call of the modelled code. */
  datatype Error =
    | ValueError(message: string)       // bad argument, re-entered timer, min() of nothing
    | AssertionError                    // a failing `assert`
    | AttributeError(attribute: string) // reading an attribute that was never assigned
    | TypeError                         // an operation applied to None
    | ZeroDivisionError                 // float division by zero
    | IndexError                        // subscript past the end of a list
    | BenchmarkError(message: string)   // domain failure raised by a phase provider
    | VerificationError                 // raised by the verify wrapper

  /** Either the value a call returned or the exception it raised. */
  datatype Result<T> = Ok(value: T) | Err(error: Error)

  /** How a call that returns nothing ended: normally or by an exception. */
  datatype Outcome = Done | Raised(error: Error)

  /** What is left of a result once its value is dropped. */
  function Status<T>(r: Result<T>): (o: Outcome)
    ensures o.Done? <==> r.Ok?
    ensures o.Raised? ==> o.error == r.error
  {
    if r.Err? then Raised(r.error) else Done
  }
}
