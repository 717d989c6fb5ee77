/** The subset of Jackson's `JsonNode` API the webhook handlers navigate:
  * `get`, `has`, `asText`, `isArray`, `isTextual`, `size` and `get(index)`. */
module Json {
  import opened Common

  datatype Json =
    | JNull
    | JBool(b: bool)
    | JNumber(literal: string)
    | JString(text: string)
    | JArray(items: seq<Json>)
    | JObject(fields: map<string, Json>)

  /** `node.get(key)`: the field of an object node, `null` (None) for a
    * missing field or a node that is not an object. A field holding JSON
    * `null` is present (a `NullNode`). */
  function Get(j: Json, key: string): (r: Option<Json>)
    ensures r.Some? <==> j.JObject? && key in j.fields
    ensures r.Some? ==> r.value == j.fields[key]
  {
    if j.JObject? && key in j.fields then Some(j.fields[key]) else None
  }

  /** `node.has(key)` */
  predicate Has(j: Json, key: string)
  {
    Get(j, key).Some?
  }

  /** `node.asText()`: the text of a string node, the literal of a number or
    * boolean, "null" for a `NullNode`, and "" for containers. */
  function AsText(j: Json): string
  {
    match j
    case JNull => "null"
    case JBool(b) => if b then "true" else "false"
    case JNumber(lit) => lit
    case JString(t) => t
    case JArray(_) => ""
    case JObject(_) => ""
  }

  /** `node.get(key).asText()` for a present field. */
  function Text(j: Json, key: string): string
    requires Has(j, key)
  {
    AsText(Get(j, key).value)
  }

  /** `node.get(k1).get(k2)…` where every step must be present. */
  function GetPath(j: Json, path: seq<string>): (r: Option<Json>)
    ensures path == [] ==> r == Some(j)
    decreases |path|
  {
    if path == [] then Some(j)
    else
      match Get(j, path[0])
      case None => None
      case Some(child) => GetPath(child, path[1..])
  }

  /** The text at a path when every step is present (the guarded
    * `has(…) && get(…).has(…) ? get(…).get(…).asText() : null` idiom, and
    * equally the unguarded `get(…).get(…).asText()` whose missing step is a
    * `NullPointerException`). */
  function TextAt(j: Json, path: seq<string>): (r: Option<string>)
    ensures r.Some? <==> GetPath(j, path).Some?
  {
    match GetPath(j, path)
    case None => None
    case Some(node) => Some(AsText(node))
  }

  lemma TextAtOne(j: Json, key: string)
    ensures TextAt(j, [key]) == (if Has(j, key) then Some(AsText(j.fields[key])) else None)
  {
    assert [key][1..] == [];
  }

  lemma TextAtTwo(j: Json, k1: string, k2: string)
    ensures TextAt(j, [k1, k2]) ==
      (if Has(j, k1) && Has(j.fields[k1], k2) then Some(AsText(j.fields[k1].fields[k2])) else None)
  {
    assert [k1, k2][1..] == [k2];
    assert [k2][1..] == [];
    if Has(j, k1) {
      assert GetPath(j, [k1, k2]) == GetPath(j.fields[k1], [k2]);
    }
  }

  /** `node.size()` for an array node. */
  function Size(j: Json): nat
  {
    match j
    case JArray(items) => |items|
    case JObject(fields) => |fields|
    case _ => 0
  }
}
