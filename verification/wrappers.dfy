/** The failure types shared by the model. */
module Wrappers {

  datatype Option<+T> = None | Some(value: T)

  /** Go's (value, error) pair: a value on success, a fault otherwise. */
  datatype Result<+T, +E> = Ok(value: T) | Err(error: E) {
    predicate IsFailure() {
      Err?
    }

    function PropagateFailure<U>(): Result<U, E>
      requires Err?
    {
      Err(error)
    }

    function Extract(): T
      requires Ok?
    {
      value
    }
  }

  /** The entry a map holds for a key, if any. */
  function Get<K, V>(m: map<K, V>, k: K): Option<V> {
    if k in m then Some(m[k]) else None
  }
}
