/**
  JSON values as serde_json's data model sees them. The text syntax (lexing,
  printing, escapes) is not part of this model; an object is a map, so it has
  neither key order nor duplicate keys.
 */
module JsonValues {

  datatype Json =
    | JNull
    | JBool(b: bool)
    | JNum(n: real)   // every JSON number; f64 rounding is not modelled
    | JStr(s: string)
    | JArr(items: seq<Json>)
    | JObj(fields: map<string, Json>)
}
