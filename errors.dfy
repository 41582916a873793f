/** Failure values for the exceptions the core raises, and the wrappers that carry them. */
module Errors {

  /** The exceptions that can escape the core's operations. */
  datatype Failure =
    | RuntimeError(cause: string)              // the chat-completion client re-raised a backend error
    | AttributeError(attribute: string)        // a field read before anything set it
    | KeyError(key: string)                    // a missing key in a parsed JSON object
    | TypeError(detail: string)                // a value of the wrong kind (indexing a non-object, a bad keyword)
    | ValueError(expected: nat, got: nat)      // `a, b = xs` with |xs| != 2
    | JsonDecodeError                          // the reply was not JSON
    | RecordsError                             // whatever `pd.DataFrame.from_records` raises on a `services` value that is not a list of objects
    | UnidentifiedImageError                   // PIL cannot identify the uploaded file as an image
    | ImportError(name: string)                // a name imported from a module that does not define it

  datatype Result<+T> = Ok(value: T) | Err(error: Failure)

  datatype Option<+T> = None | Some(value: T)
}
