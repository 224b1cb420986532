/** Decoded JSON values, as `simplejson.loads` hands them to the client.
    Numbers are integers only; objects are maps from keys to values. */
module Json {
  import opened Errors

  datatype Value =
    | Null
    | Bool(b: bool)
    | Num(n: int)
    | Str(s: string)
    | Arr(items: seq<Value>)
    | Obj(fields: map<string, Value>)

  /** `value[key]` on a decoded value: only an object holding `key` has an entry. */
  function Member(v: Value, key: string): Option<Value>
  {
    if v.Obj? && key in v.fields then Some(v.fields[key]) else None
  }
}
