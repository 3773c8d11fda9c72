/** Failure-carrying values shared by every module of the model.
    Python exceptions become `Err` values whose `kind` records the exception
    class, because the orchestrator's `except` clauses dispatch on the class. */
module Results {

  datatype Option<+T> = None | Some(value: T)

  /** The Python exception classes the core raises or catches. */
  datatype ErrorKind =
    | ValueError         // raised by clean_json_response and by tool routing
    | JsonDecodeError    // a subclass of ValueError in Python
    | RuntimeError       // "Server ... not initialized"
    | TypeError
    | AttributeError
    | LookupError        // KeyError and IndexError
    | ZeroDivisionError
    | OverflowError      // an int too large for a float
    | EofError           // input() at end of standard input
    | RemoteError        // anything else raised by a transport or a remote server

  datatype Error = Error(kind: ErrorKind, message: string)

  /** `except (ValueError, json.JSONDecodeError)` catches exactly these. */
  predicate IsValueError(e: Error) {
    e.kind == ValueError || e.kind == JsonDecodeError
  }

  datatype Result<+T> = Ok(value: T) | Err(error: Error)
}
