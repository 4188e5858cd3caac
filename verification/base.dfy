/** Vocabulary shared by every module: optional values, results, identifiers and time. */
module Base {
  datatype Option<+T> = None | Some(value: T)

  /** The ways in which an operation of the control plane reports an error. */
  datatype Error =
    | NotFound      // the row is not there
    | Constraint    // the database refused the statement
    | Unavailable   // the call failed
    | Refused       // the request is not acceptable
    | TimedOut
    | Cancelled
    | Malformed     // a reply that cannot be understood

  datatype Result<+T> = Ok(value: T) | Err(error: Error)

  /** Names of projects, branches, endpoints, tenants and timelines. */
  type Id = string

  /** Milliseconds. */
  type Time = int

  function Get<K, V>(m: map<K, V>, k: K): Option<V> {
    if k in m then Some(m[k]) else None
  }

  /** Writes `v` under `k`; None removes the entry. */
  function Put<K, V>(m: map<K, V>, k: K, v: Option<V>): map<K, V> {
    if v.Some? then m[k := v.value] else m - {k}
  }
}
