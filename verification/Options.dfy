// The two result shapes shared by every module: a value that may be missing
// (Go's nil pointers and absent map keys) and a call that may fail.
module Options {
  datatype Option<+T> = None | Some(value: T)

  datatype Result<+T, +E> = Ok(value: T) | Err(error: E)

  // Reading a map the way Go's comma-ok form does.
  function Lookup<K, V>(m: map<K, V>, k: K): Option<V> {
    if k in m then Some(m[k]) else None
  }
}
