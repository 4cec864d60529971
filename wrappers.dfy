/** Small failure-carrying datatypes shared by the other modules. */
module Wrappers {

  datatype Option<+T> = None | Some(value: T)

  datatype Result<+T, +E> = Ok(value: T) | Err(error: E)

  /** The Python exceptions the modelled code can raise and not catch. */
  datatype Raised =
    | AttributeError          // e.g. keys_exist on a non-dict, or with no keys
    | TypeError               // indexing something that is not a dict with a string key
    | KeyError(key: string)   // indexing a dict with a key it does not hold
    | ValueError              // int(chunk, 16) on text that is not hexadecimal
}
