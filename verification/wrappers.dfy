/** Option and Result, shared by the modules of this model. */
module Wrappers {

  /** `None` plays the part of Go's nil for maps and pointers. */
  datatype Option<+T> = None | Some(value: T)

  /** A Go `(value, error)` pair in which exactly one side is meaningful. */
  datatype Result<+T, +E> = Success(value: T) | Failure(error: E)

  /** Looks a key up in a map; `None` when the key is absent. */
  function Get<K, V>(m: map<K, V>, k: K): Option<V>
  {
    if k in m then Some(m[k]) else None
  }
}
