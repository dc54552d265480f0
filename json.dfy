/**
 * JavaScript values as the component-configuration core handles them:
 * JSON data plus `undefined`, which lodash's merge treats specially.
 * Numbers are integers; the core does no arithmetic on them.
 */
module Json {

  datatype Option<T> = None | Some(value: T)

  datatype Json =
    | Undefined
    | Null
    | Bool(b: bool)
    | Num(n: int)
    | Str(s: string)
    | Arr(items: seq<Json>)
    | Obj(props: map<string, Json>)

  /**
   * The host's `JSON.parse` and `JSON.stringify`, kept abstract.
   * `parse` is partial: `None` stands for the exception it throws on
   * malformed text. `stringify` is total on the values it is applied to
   * here (objects and arrays).
   */
  datatype Codec = Codec(parse: string -> Option<Json>, stringify: Json -> string)

  /** The value stored under `key`, or `undefined` when the key is absent. */
  function Lookup(m: map<string, Json>, key: string): Json
  {
    if key in m then m[key] else Undefined
  }
}
