/** Shared carriers for optional values and for calls that can fail. */
module Wrappers {
  datatype Option<+T> = None | Some(value: T) {
    function GetOr(default: T): T { if Some? then value else default }
  }

  datatype Result<+T, +E> = Ok(value: T) | Err(error: E)

  /** `dict.get`. */
  function Lookup<K, V>(m: map<K, V>, k: K): Option<V> { if k in m then Some(m[k]) else None }

  ghost predicate NoDup<T(!new)>(q: seq<T>) { forall i, k :: 0 <= i < k < |q| ==> q[i] != q[k] }
}
