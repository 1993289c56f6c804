/**
 * The already-parsed JSON schema tree that the data model generator consumes.
 * Only the keywords the generator looks at are represented.
 */
module JsonSchema {
  import opened Wrappers

  /** The value of the "type" keyword. */
  datatype JsonType = NullType | BooleanType | IntegerType | NumberType | StringType | ObjectType | ArrayType

  /** A literal listed by the "enum" keyword. */
  datatype Literal = StringLiteral(text: string) | NumberLiteral(number: int) | BooleanLiteral(flag: bool) | NullLiteral

  /**
   * One schema node. `properties` and `definitions` keep the document order of the
   * "properties" and "definitions" objects; `definitions` is only consulted on the root
   * node, the target of "#/definitions/..." pointers.
   */
  datatype Schema = Schema(
    jsonType: Option<JsonType>,
    format: Option<string>,
    enumValues: Option<seq<Literal>>,
    items: Option<Schema>,
    reference: Option<string>,
    properties: seq<Property>,
    definitions: seq<Property>,
    description: Option<string>)

  /** A named entry of a "properties" or "definitions" object. */
  datatype Property = Property(name: string, schema: Schema)

  /** The names of a "properties" or "definitions" object. */
  function Names(entries: seq<Property>): set<string> {
    set i | 0 <= i < |entries| :: entries[i].name
  }

  /** The schema of the first entry called `name`, as a dictionary lookup finds it. */
  function Lookup(entries: seq<Property>, name: string): (r: Option<Schema>)
    ensures r.Some? ==> name in Names(entries)
    ensures r.Some? ==> exists i | 0 <= i < |entries| :: entries[i] == Property(name, r.value)
    ensures r.None? <==> name !in Names(entries)
    decreases |entries|
  {
    if entries == [] then None
    else if entries[0].name == name then Some(entries[0].schema)
    else
      var rest := Lookup(entries[1..], name);
      assert Names(entries) == {entries[0].name} + Names(entries[1..]) by {
        forall n | n in Names(entries) ensures n in {entries[0].name} + Names(entries[1..]) {
          var i :| 0 <= i < |entries| && entries[i].name == n;
          if i > 0 { assert entries[1..][i - 1].name == n; }
        }
      }
      assert rest.Some? ==> exists i | 0 <= i < |entries| :: entries[i] == Property(name, rest.value) by {
        if rest.Some? {
          var i :| 0 <= i < |entries[1..]| && entries[1..][i] == Property(name, rest.value);
          assert entries[i + 1] == Property(name, rest.value);
        }
      }
      rest
  }

  /** No two entries share a name, as in a parsed JSON object. */
  predicate UniqueNames(entries: seq<Property>) {
    forall i, j | 0 <= i < j < |entries| :: entries[i].name != entries[j].name
  }

  /** The name of a "type" keyword value, as it appears in a schema document; "none" when absent. */
  function TypeKeyword(t: Option<JsonType>): (r: string)
    ensures t.None? <==> r == "none"
  {
    match t
    case None => "none"
    case Some(NullType) => "null"
    case Some(BooleanType) => "boolean"
    case Some(IntegerType) => "integer"
    case Some(NumberType) => "number"
    case Some(StringType) => "string"
    case Some(ObjectType) => "object"
    case Some(ArrayType) => "array"
  }

  /** Distinct "type" values have distinct keywords. */
  lemma TypeKeywordsAreDistinct(a: Option<JsonType>, b: Option<JsonType>)
    ensures TypeKeyword(a) == TypeKeyword(b) <==> a == b
  {
  }

  /** A node that carries nothing but a "type" keyword. */
  function OfType(t: JsonType): Schema {
    Schema(Some(t), None, None, None, None, [], [], None)
  }

  /** `{"type": "string", "format": f}` */
  function StringWithFormat(f: string): Schema {
    OfType(StringType).(format := Some(f))
  }

  /** `{"type": "array", "items": items}` */
  function ArrayOf(items: Schema): Schema {
    OfType(ArrayType).(items := Some(items))
  }

  /** `{"$ref": pointer}` */
  function Ref(pointer: string): Schema {
    Schema(None, None, None, None, Some(pointer), [], [], None)
  }

  /** `{"enum": literals}` with no "type" keyword. */
  function EnumOf(literals: seq<Literal>): Schema {
    Schema(None, None, Some(literals), None, None, [], [], None)
  }

  /** `{"type": "object", "properties": ..., "definitions": ...}` */
  function ObjectSchema(properties: seq<Property>, definitions: seq<Property>): Schema {
    Schema(Some(ObjectType), None, None, None, None, properties, definitions, None)
  }
}
