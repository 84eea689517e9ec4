/** What several of the models use. */
module Common {
  datatype Option<+T> = None | Some(value: T)

  /** Text and payloads; JSON syntax and SHA-256 are not modelled. */
  type Bytes = string

  /** The largest integer that JSON carries exactly: counters and revisions stop here. */
  const MAX_SAFE: int := 9007199254740991

  /** Events captured after the last opening of the send gate, and those before it. */
  datatype Class = New | History

  function Other(c: Class): Class { if c == New then History else New }

  function Get<K, V>(m: map<K, V>, k: K): Option<V> { if k in m then Some(m[k]) else None }
}
