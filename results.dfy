/** Failure-carrying values for the Python exceptions the pipeline raises or lets propagate. */
module Results {

  datatype Option<T> = None | Some(value: T)

  /** The Python exception classes that the modelled code raises, or that escape from it. */
  datatype Error =
    | ValueError            // explicit `raise ValueError(...)`, and `list.index` on a missing item
    | KeyError              // a missing dict key that nobody catches
    | TypeError             // e.g. `None + str`, subscripting None, raising a tuple
    | IndexError            // a list or string index out of range
    | AttributeError        // a method called on a value that does not have it (`None.lower()`)
    | NotImplementedError   // unsupported executor or aggregation
    | UnboundLocalError     // a local read before any assignment
    | CalledProcessError    // `subprocess.run(..., check=True)` with a non-zero exit
    | RemoteError           // an exception from the remote API other than HttpError

  datatype Result<T> = Ok(value: T) | Err(error: Error)
  {
    predicate IsFailure() { Err? }

    function PropagateFailure<U>(): Result<U>
      requires Err?
    {
      Err(error)
    }

    function Extract(): T
      requires Ok?
    {
      value
    }
  }
}
