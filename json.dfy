/** JSON values, as the routes receive and store them (`z.any()`, `Record<string, any>`). */
module Json {
  datatype Json =
    | JNull
    | JBool(b: bool)
    | JNum(n: real)
    | JStr(s: string)
    | JArr(items: seq<Json>)
    | JObj(fields: map<string, Json>)
}
