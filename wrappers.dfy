/** Failure-carrying values and Python list indexing, shared by the modules of this model. */
module Wrappers {

  datatype Option<+T> = None | Some(value: T)

  /** The Python exceptions the modelled code raises on purpose. */
  datatype Error =
    | ValueError(message: string)
    | IndexError(message: string)
    | StatisticsError(message: string)

  /** A value, or the exception raised instead of returning it. */
  datatype Result<+T> = Ok(value: T) | Err(error: Error)

  /** The message of the IndexError Python raises when reading a list past either end. */
  const OutOfRange := "list index out of range"
  /** The message of the IndexError Python raises when assigning to a list past either end. */
  const AssignmentOutOfRange := "list assignment index out of range"

  /**
   * The position `key` denotes in a Python list of `length` items: a
   * negative key counts back from the end, and a key past either end
   * denotes none.
   */
  function Slot(length: nat, key: int): (slot: Option<nat>)
    ensures slot.Some? <==> -(length as int) <= key < length
    ensures slot.Some? ==> slot.value < length && (slot.value == key || slot.value == key + length)
  {
    if 0 <= key < length then Some(key)
    else if -(length as int) <= key < 0 then Some(key + length)
    else None
  }
}
