/** JSON values, and the parts of the standard and JSON libraries the rewriter calls. */
module Json {
  import opened Wrappers
  import opened Bytes

  /** A number is kept as the library prints it. */
  datatype Json =
    | Null
    | Bool(flag: bool)
    | Number(literal: Text)
    | String(text: Text)
    | Array(items: seq<Json>)
    | Object(fields: map<Text, Json>)

  /** `parse` and `show` (printing) are the JSON library's, `trim` is the string library's. */
  datatype Library = Library(parse: Text -> Option<Json>, show: Json -> Text, trim: Text -> Text)

  /** Indexing: a missing key, or a value that is not an object, gives Null. */
  function At(v: Json, key: Text): Json {
    if v.Object? && key in v.fields then v.fields[key] else Null
  }

  /** Assigning through an index turns Null into an object; other values cannot be indexed. */
  function Put(v: Json, key: Text, x: Json): Json
    requires v.Null? || v.Object?
  {
    Object((if v.Object? then v.fields else map[])[key := x])
  }
}
