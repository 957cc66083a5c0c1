/** The values the script handles: what Python's JSON decoding produces for
    the supplies API response, and Python's `None`-or-value results. */
module Json {

  datatype Option<+T> = None | Some(value: T)

  /** A decoded JSON value as Python sees it. `Float` carries the number as an
      exact real; Python's binary rounding is not modelled. */
  datatype Value =
    | Null
    | Bool(b: bool)
    | Int(i: int)
    | Float(f: real)
    | Str(s: string)
    | Arr(items: seq<Value>)
    | Obj(fields: map<string, Value>)

  /** A Python dict with string keys: one raw record. */
  type Record = map<string, Value>

  /** `row.get(key)`: the stored value, or `None` when the key is absent. */
  function Get(row: Record, key: string): Value {
    if key in row then row[key] else Null
  }
}
