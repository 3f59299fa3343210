/** Optional values and fallible results, for the source's nil references, error returns and panics. */
module Outcomes {
  datatype Option<T> = None | Some(value: T)

  /** Why an operation of the source fails instead of producing a value. */
  datatype Failure =
    | BadSize(size: nat)        // an image of the wrong length was supplied
    | OutOfRange(index: int)    // Go would panic with an index out of range
    | Unimplemented(op: nat)    // the instruction table has no entry for this opcode
    | NilCall(addr: nat)        // Go would panic calling a method through a nil interface
    | Unmodelled(addr: nat)     // an I/O register access whose dispatch the model does not define

  datatype Result<T> = Ok(value: T) | Err(failure: Failure)
}
