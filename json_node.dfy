/** Jackson's `JsonNode`, seen through the accessors the controllers and
    listeners use, and the plain reply a controller returns. */
module JsonNodes {
  import opened Wrappers

  /** A parsed JSON value: `null`, a scalar (string, number or boolean, held
      as its text), or an object. Arrays are read only as non-objects and are
      not distinguished from scalars. */
  datatype JsonNode = Null | Scalar(text: string) | Object(fields: map<string, JsonNode>)

  /** `ObjectMapper.readTree`: a parse failure is `None`. It is a parameter
      of every operation that parses. */
  type Parser = string -> Option<JsonNode>

  /** `node.asText()`: a scalar's text, "null" for null and "" for an
      object. */
  function AsText(node: JsonNode): (t: string)
    ensures node.Scalar? ==> t == node.text
    ensures node.Null? ==> t == "null"
  {
    match node
    case Null => "null"
    case Scalar(text) => text
    case Object(_) => ""
  }

  /** `node.get(name)`: the field of an object, and Java null (`None`) for a
      missing field or a node that is not an object. */
  function Get(node: JsonNode, name: string): (r: Option<JsonNode>)
    ensures r.Some? <==> node.Object? && name in node.fields
  {
    if node.Object? && name in node.fields then Some(node.fields[name]) else None
  }

  /** `node.has(name)`. */
  predicate Has(node: JsonNode, name: string)
  {
    node.Object? && name in node.fields
  }

  /** `node.path(name)`: like `get`, but a missing field gives the missing
      node (`None`), and the path of the missing node is missing again. */
  function Path(node: Option<JsonNode>, name: string): Option<JsonNode>
  {
    if node.Some? then Get(node.value, name) else None
  }

  /** `asText()` of a node reached by `path`: the missing node reads as "". */
  function PathText(node: Option<JsonNode>): (t: string)
    ensures node.None? ==> t == ""
  {
    if node.Some? then AsText(node.value) else ""
  }

  /** A controller's `ResponseEntity<String>`. */
  datatype Reply = Reply(status: int, body: string)
}
