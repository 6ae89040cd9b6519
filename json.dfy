/** The values a JSON decoder produces and a Python `Dict` holds. */
module JsonValues {

  datatype Json =
    | JNull
    | JBool(b: bool)
    | JNumber(n: int)
    | JString(s: string)
    | JArray(items: seq<Json>)
    | JObject(members: map<string, Json>)

  /** A Python `dict` with string keys, such as a dumped options model or an extra filter. */
  type Dict = map<string, Json>
}
