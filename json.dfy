/** JSON-shaped values: what the analyzers put in their result
    dictionaries and what the cache stores. Floating-point numbers are
    kept as their text and never computed with. */
module JsonValues {

  datatype Json =
    | JNull
    | JBool(b: bool)
    | JInt(i: int)
    | JFloat(text: string)
    | JStr(s: string)
    | JArr(items: seq<Json>)
    | JObj(fields: map<string, Json>)

  /** The name Python gives to the type of a decoded JSON value, as it
      appears in an AttributeError message. */
  function PyTypeName(j: Json): string {
    match j
    case JNull => "NoneType"
    case JBool(_) => "bool"
    case JInt(_) => "int"
    case JFloat(_) => "float"
    case JStr(_) => "str"
    case JArr(_) => "list"
    case JObj(_) => "dict"
  }

  /** A dictionary owned by a caller and shared by reference: the cache
      writes a timestamp into the very object it is handed. */
  class JsonDict {
    var fields: map<string, Json>

    constructor(fields: map<string, Json>)
      ensures this.fields == fields
    {
      this.fields := fields;
    }
  }
}
