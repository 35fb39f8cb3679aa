/** JSON values as the proxy reads and edits them (serde_json::Value). */
module Json {
  import opened Seqs

  datatype Json =
    | Null
    | Bool(b: bool)
    | Num(n: int)
    | Str(s: string)
    | Arr(elems: seq<Json>)
    | Obj(fields: map<string, Json>)

  /** Value::get with a string key: nothing on a value that is no object. */
  function Get(v: Json, key: string): Option<Json> {
    if v.Obj? && key in v.fields then Some(v.fields[key]) else None
  }

  function AsStr(v: Option<Json>): Option<string> {
    if v.Some? && v.value.Str? then Some(v.value.s) else None
  }

  function GetStr(v: Json, key: string): Option<string> {
    AsStr(Get(v, key))
  }

  /** Value::pointer with two steps, neither of them a number. */
  function Get2(v: Json, k1: string, k2: string): Option<Json> {
    match Get(v, k1)
    case None => None
    case Some(w) => Get(w, k2)
  }

  /** What value[key] names once serde_json has made room for it. */
  function Slot(v: Json, key: string): Json {
    match Get(v, key)
    case None => Null
    case Some(w) => w
  }

  /** A value that value[key] = x does not panic on. */
  predicate Open(v: Json) {
    v.Null? || v.Obj?
  }

  /** value[key] = x: null becomes an object. */
  function Put(v: Json, key: string, x: Json): Json
    requires Open(v)
  {
    if v.Null? then Obj(map[key := x]) else Obj(v.fields[key := x])
  }

  function Drop(v: Json, key: string): Json {
    if v.Obj? then Obj(v.fields - {key}) else v
  }
}
