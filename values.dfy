/** The values a notification is made of, and the ways its synthesis can fail. */
module Values {
  import opened Base

  /** A payload value: a string, Python's None, or a boolean. */
  datatype Value = Str(s: string) | Null | Flag(b: bool)

  /** The flat dictionary handed to the notifier. */
  type Payload = map<string, Value>

  /**
   * `_timestamp_to_str`, left uninterpreted: the formatted local time of a
   * raw epoch string, or None when `float()` or `fromtimestamp` raises.
   */
  type Formatter = string -> Option<string>

  /** The exceptions that escape `handle_request` after the downstream call. */
  datatype Failure =
    | BadCopySource(header: string)   // `copy_from.split('/', 1)` has one part, so unpacking raises ValueError
    | BadTimestamp(raw: string)       // the timestamp formatter raises
    | NoContentLength                 // `env['CONTENT_LENGTH']` raises KeyError

  datatype Result<T> = Ok(value: T) | Err(error: Failure)

  /** Python truth of an optional string: present and non-empty. */
  predicate Truthy(o: Option<string>)
  {
    o.Some? && o.value != ""
  }

  /** A header value as the payload holds it: its string, or None when the header is absent. */
  function HeaderValue(o: Option<string>): Value
  {
    if o.Some? then Str(o.value) else Null
  }

  /** String metadata as payload values. */
  function Lift(m: map<string, string>): Payload
  {
    map k | k in m :: Str(m[k])
  }

  /** Assigning one key is the union with a one-key dictionary. */
  lemma UpdateIsUnion<K, V>(m: map<K, V>, k: K, v: V)
    ensures m[k := v] == m + map[k := v]
  {
  }

  /** A union with nothing changes nothing. */
  lemma UnionEmpty<K, V>(m: map<K, V>)
    ensures m + map[] == m
  {
  }
}
