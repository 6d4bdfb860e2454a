/**
 * JSON values as `json.load`/`json.loads` hand them to the planner. Only
 * integral numbers are distinguished; an object is a map from key to value.
 */
module JsonData {
  datatype Json =
    | JNull
    | JBool(b: bool)
    | JInt(i: int)
    | JFloat(x: real)
    | JStr(s: string)
    | JArr(items: seq<Json>)
    | JObj(fields: map<string, Json>)
}
