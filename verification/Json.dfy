/** A decoded JSON document. */
module JsonTrees {
  datatype Json =
    | Null
    | Boolean(b: bool)
    | Numeral(x: real)
    | Str(text: string)
    | Arr(items: seq<Json>)
    | Obj(fields: map<string, Json>)
}
