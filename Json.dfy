/** JSON values as they reach the request handlers and leave the database client. */
module Json {
  import opened Wrappers

  /** A JSON value; an object maps each of its keys to one value. */
  datatype Value =
    | Null
    | Bool(b: bool)
    | Num(n: real)
    | Str(s: string)
    | Arr(items: seq<Value>)
    | Obj(fields: map<string, Value>)

  /** JavaScript `o[k]` on an object: `None` stands for `undefined`. */
  function Get(fields: map<string, Value>, k: string): Option<Value> {
    if k in fields then Some(fields[k]) else None
  }
}
