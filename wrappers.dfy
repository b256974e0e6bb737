/** The optional value used wherever a dictionary lookup can miss. */
module Wrappers {

  datatype Option<+T> = None | Some(value: T)

  /** What `m.get(k)` reads: the value stored under `k`, if any. */
  function Lookup<K, V>(m: map<K, V>, k: K): Option<V>
  {
    if k in m then Some(m[k]) else None
  }
}
