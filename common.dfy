/** Value types shared by the server and the client model: optional values,
    provider-call results, JSON metadata values, and the few pieces of
    JavaScript semantics the modelled code leans on (truthiness, the white
    space that `trim` and `parseInt` skip, how a template literal renders a
    missing id). */
module Common {

  datatype Option<+T> = None | Some(value: T)

  /** The outcome of a call into a provider SDK: a value, or a rejection
      (network failure, timeout, 4xx/5xx, unknown record). */
  datatype Result<+T> = Ok(value: T) | Err

  /** A JSON value stored in an identity record's public metadata. Only the
      shapes the modelled code writes or tests are distinguished. */
  datatype Json = JStr(s: string) | JNull

  function Lookup<K, V>(m: map<K, V>, k: K): (r: Option<V>)
    ensures r.Some? <==> k in m
    ensures r.Some? ==> r.value == m[k]
  {
    if k in m then Some(m[k]) else None
  }

  /** JavaScript truthiness of a possibly missing string: `undefined`, `null`
      and `""` are falsy. */
  predicate Truthy(v: Option<string>)
  {
    v.Some? && v.value != ""
  }

  /** Truthiness of a metadata value: only a non-empty string is truthy. */
  predicate TruthyJson(v: Option<Json>)
  {
    v.Some? && v.value.JStr? && v.value.s != ""
  }

  /** How `${id}` renders a possibly missing id. */
  function IdText(id: Option<string>): string
  {
    if id.Some? then id.value else "undefined"
  }

  /** The characters `String.prototype.trim` removes and `parseInt` skips:
      ECMAScript WhiteSpace and LineTerminator. */
  predicate IsJsSpace(c: char)
  {
    c == '\t' || c == '\n' || c == '\U{000B}' || c == '\U{000C}' || c == '\r' || c == ' '
    || c == '\U{00A0}' || c == '\U{1680}' || ('\U{2000}' <= c <= '\U{200A}')
    || c == '\U{2028}' || c == '\U{2029}' || c == '\U{202F}' || c == '\U{205F}'
    || c == '\U{3000}' || c == '\U{FEFF}'
  }
}
