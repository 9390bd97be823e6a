/**
 * A stream's JSON schema as the connector sees it: an ordered `properties` dict
 * (which may be missing) whose values are property dicts that `to_sql_type`
 * updates in place.
 */
module Schema {
  import opened Results
  import opened TypeMapping

  /** One property's JSON-schema dict; `to_sql_type` may write its `maxLength`. */
  class PropertySchema {
    const types: set<string>
    const datelike: bool
    const multipleOf: Option<real>
    var maxLength: Option<int>

    constructor (v: JsonSchemaType)
      ensures View() == v
    {
      types, datelike, maxLength, multipleOf := v.types, v.datelike, v.maxLength, v.multipleOf;
    }

    /** The dict's current contents. */
    function View(): JsonSchemaType
      reads this
    {
      JsonSchemaType(types, datelike, maxLength, multipleOf)
    }
  }

  /** `schema["properties"]` in its insertion order: property name and dict. */
  type Properties = seq<(string, PropertySchema)>

  /** A stream schema; `properties` is None when the schema has no such key. */
  datatype TableSchema = TableSchema(properties: Option<Properties>)

  /** The property names, in schema order, of a property list or of its views. */
  function Names<T>(ps: seq<(string, T)>): (r: seq<string>)
    ensures |r| == |ps| && forall i :: 0 <= i < |ps| ==> r[i] == ps[i].0
  {
    seq(|ps|, i requires 0 <= i < |ps| => ps[i].0)
  }

  function Objects(ps: Properties): set<PropertySchema>
  {
    set i | 0 <= i < |ps| :: ps[i].1
  }

  /** The properties' current contents, in order. */
  function Views(ps: Properties): (r: seq<(string, JsonSchemaType)>)
    reads Objects(ps)
    ensures |r| == |ps| && forall i :: 0 <= i < |ps| ==> r[i] == (ps[i].0, ps[i].1.View())
  {
    seq(|ps|, i requires 0 <= i < |ps| reads Objects(ps) => (ps[i].0, ps[i].1.View()))
  }

  /**
   * What a decoded JSON schema guarantees: property names are dict keys, so
   * distinct, and every property is its own dict.
   */
  predicate WellFormed(ps: Properties)
  {
    && (forall i, j :: 0 <= i < j < |ps| ==> ps[i].0 != ps[j].0)
    && (forall i, j :: 0 <= i < j < |ps| ==> ps[i].1 != ps[j].1)
  }

  function SchemaObjects(s: TableSchema): set<PropertySchema>
  {
    if s.properties.Some? then Objects(s.properties.value) else {}
  }

  predicate SchemaWellFormed(s: TableSchema)
  {
    s.properties.Some? ==> WellFormed(s.properties.value)
  }

  /** The properties' current contents, if the schema has a `properties` key. */
  function SchemaViews(s: TableSchema): Option<seq<(string, JsonSchemaType)>>
    reads SchemaObjects(s)
  {
    if s.properties.Some? then Some(Views(s.properties.value)) else None
  }
}
