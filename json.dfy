/** The JSON values that `json.load` produces, without floating-point numbers. */
module Json {

  /** A JSON document. Python's `None` is `JNull`; a JSON object is a `dict` with string keys. */
  datatype Json =
    | JNull
    | JBool(b: bool)
    | JInt(i: int)
    | JStr(s: string)
    | JArr(items: seq<Json>)
    | JObj(fields: map<string, Json>)
}
