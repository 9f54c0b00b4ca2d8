/** Values shared by every part of the model: optional values, results with an
    error path, and the JSON-like values the Python code keeps in its dicts. */
module Values {

  datatype Option<T> = None | Some(value: T) {
    /** Python's `d.get(k, default)` once the lookup is done. */
    function GetOr(default: T): T {
      if Some? then value else default
    }
  }

  /** A value or the message of the exception that replaced it. */
  datatype Result<T, E> = Success(value: T) | Failure(error: E)

  /** A JSON value as Python holds it after `json.loads`: objects keep their
      key order. Floating-point numbers are not modelled. */
  datatype Json =
    | JNull
    | JBool(b: bool)
    | JNum(n: int)
    | JStr(s: string)
    | JArr(items: seq<Json>)
    | JObj(members: seq<(string, Json)>)

  /** A `Dict[str, Any]` whose order does not matter to the model. */
  type Record = map<string, Json>
}
