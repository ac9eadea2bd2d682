/** JSON values as Go's encoding/json decodes them into interface{}. */
module Json {

  datatype Json =
    | Null
    | Bool(b: bool)
    | Num(n: real)
    | Str(s: string)
    | Arr(a: seq<Json>)
    | Obj(m: map<string, Json>)

  /** A decoded JSON object: the source's ThingDescription type. */
  type Members = map<string, Json>

  datatype Option<+T> = None | Some(value: T)
}
