/** Option and Result, the shapes in which the model returns absence and failure. */
module Prelude {
  datatype Option<+T> = None | Some(value: T)

  datatype Result<+T, +E> = Ok(value: T) | Err(error: E)

  // The value of a string-to-string table at a key, "" when the key is missing.
  function Lookup(m: map<string, string>, key: string): string {
    if key in m then m[key] else ""
  }

  // The value of a map at a key, when there is one.
  function At<K, V>(m: map<K, V>, key: K): Option<V> {
    if key in m then Some(m[key]) else None
  }
}
