/** Option and Result, the shapes the source uses for `null` results and thrown errors. */
module Wrappers {

  datatype Option<+T> = None | Some(value: T)

  /** Outcome of an operation that either produces a value or fails with a message. */
  datatype Result<+T> = Success(value: T) | Failure(message: string)

  function Get<K, V>(m: map<K, V>, k: K): Option<V>
  {
    if k in m then Some(m[k]) else None
  }
}
