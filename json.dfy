/** The JSON values a stage uses to describe its requirements. Only the
    shape needed by the core is modelled: whether a value holds members. */
module Json {

  datatype JsonValue =
    | JNull
    | JBoolean(b: bool)
    | JNumber(n: int)
    | JString(s: string)
    | JList(items: seq<JsonValue>)
    | JObject(fields: map<string, JsonValue>)

  /** JsonValue.size(): the number of elements of a list or of entries of an
      object; every other value has size 0. */
  function Size(j: JsonValue): nat
  {
    match j
    case JList(items) => |items|
    case JObject(fields) => |fields|
    case _ => 0
  }

  /** A list or object with at least one member. */
  predicate HasMembers(j: JsonValue)
  {
    (j.JList? && j.items != []) || (j.JObject? && j.fields != map[])
  }

  /** The value returned by emptyJson(): an empty JSON object. */
  const EmptyJson: JsonValue := JObject(map[])

  lemma SizePositiveIffMembers(j: JsonValue)
    ensures Size(j) > 0 <==> HasMembers(j)
  {
  }
}
