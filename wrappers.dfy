/** Small value wrappers shared by every module of the model. */
module Wrappers {

  /** A value that may be absent: JavaScript's `undefined` or SQL's NULL. */
  datatype Option<+T> = None | Some(value: T)

  /** The outcome of an operation that can fail with a message. */
  datatype Result<+T> = Ok(value: T) | Err(message: string)

  /** One field of a partial update: `Keep` is a key left `undefined`, which
      the store does not write; `Set(v)` overwrites the column with `v`. */
  datatype Field<+T> = Keep | Set(value: T)

  /** The column value after a partial update has been applied. */
  function Write<T>(f: Field<T>, current: T): (r: T)
    ensures f.Keep? ==> r == current
    ensures f.Set? ==> r == f.value
  {
    match f
    case Keep => current
    case Set(v) => v
  }
}
