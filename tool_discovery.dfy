/**
 * Tool definitions: the record describing one tool (name, optional title,
 * description, input schema, optional output schema, optional annotations),
 * its builder functions, and the JSON-Schema subset its schemas are written
 * in. Every builder takes the record by value and returns it with exactly one
 * field replaced.
 */
module ToolDiscovery {
  import opened Wrappers

  /** A YAML value (annotation, enum member, default); opaque here. */
  type YamlValue(==)

  /** A 64-bit float (`minimum`, `maximum`); opaque here. */
  type F64(==)

  /** Rust's `usize` on a 64-bit target. */
  type Usize = n: int | 0 <= n < 0x1_0000_0000_0000_0000

  /** The JSON Schema `type` keyword's values. */
  datatype JsonSchemaType = Object | Array | String | Number | Integer | Boolean | Null

  /** A JSON Schema, every keyword optional. */
  datatype JsonSchema = JsonSchema(
    schemaType: Option<JsonSchemaType>,
    description: Option<string>,
    properties: Option<map<string, JsonSchema>>,
    required: Option<seq<string>>,
    items: Option<JsonSchema>,
    enumValues: Option<seq<YamlValue>>,
    defaultValue: Option<YamlValue>,
    additionalProperties: Option<bool>,
    minimum: Option<F64>,
    maximum: Option<F64>,
    minLength: Option<Usize>,
    maxLength: Option<Usize>,
    pattern: Option<string>)

  /** A tool's definition. */
  datatype ToolDefinition = ToolDefinition(
    name: string,
    title: Option<string>,
    description: string,
    inputSchema: JsonSchema,
    outputSchema: Option<JsonSchema>,
    annotations: Option<map<string, YamlValue>>)

  /** The derived `Default` of `JsonSchema`: no keyword present. */
  function DefaultSchema(): (s: JsonSchema)
    ensures s.schemaType.None? && s.description.None? && s.properties.None?
    ensures s.required.None? && s.items.None? && s.enumValues.None?
    ensures s.defaultValue.None? && s.additionalProperties.None?
    ensures s.minimum.None? && s.maximum.None?
    ensures s.minLength.None? && s.maxLength.None? && s.pattern.None?
  {
    JsonSchema(None, None, None, None, None, None, None, None, None, None, None, None, None)
  }

  /** A definition with the three required fields; every optional field absent. */
  function NewDefinition(name: string, description: string, inputSchema: JsonSchema): (d: ToolDefinition)
    ensures d.name == name && d.description == description && d.inputSchema == inputSchema
    ensures d.title.None? && d.outputSchema.None? && d.annotations.None?
  {
    ToolDefinition(name, None, description, inputSchema, None, None)
  }

  /** `d` with its title set to `title`. */
  function WithTitle(d: ToolDefinition, title: string): (r: ToolDefinition)
    ensures r.title == Some(title)
    ensures r.name == d.name && r.description == d.description && r.inputSchema == d.inputSchema
    ensures r.outputSchema == d.outputSchema && r.annotations == d.annotations
  {
    d.(title := Some(title))
  }

  /** `d` with its output schema set to `schema`. */
  function WithOutputSchema(d: ToolDefinition, schema: JsonSchema): (r: ToolDefinition)
    ensures r.outputSchema == Some(schema)
    ensures r.name == d.name && r.title == d.title && r.description == d.description
    ensures r.inputSchema == d.inputSchema && r.annotations == d.annotations
  {
    d.(outputSchema := Some(schema))
  }

  /** `d` with its annotations set to `annotations`. */
  function WithAnnotations(d: ToolDefinition, annotations: map<string, YamlValue>): (r: ToolDefinition)
    ensures r.annotations == Some(annotations)
    ensures r.name == d.name && r.title == d.title && r.description == d.description
    ensures r.inputSchema == d.inputSchema && r.outputSchema == d.outputSchema
  {
    d.(annotations := Some(annotations))
  }

  /** Setters of different fields commute. */
  lemma SettersCommute(d: ToolDefinition, t: string, s: JsonSchema, a: map<string, YamlValue>)
    ensures WithTitle(WithOutputSchema(d, s), t) == WithOutputSchema(WithTitle(d, t), s)
    ensures WithTitle(WithAnnotations(d, a), t) == WithAnnotations(WithTitle(d, t), a)
    ensures WithOutputSchema(WithAnnotations(d, a), s) == WithAnnotations(WithOutputSchema(d, s), a)
  {
  }

  /** Setting the same field twice keeps only the last value. */
  lemma SettersLastWins(d: ToolDefinition, t1: string, t2: string, s1: JsonSchema, s2: JsonSchema,
                        a1: map<string, YamlValue>, a2: map<string, YamlValue>)
    ensures WithTitle(WithTitle(d, t1), t2) == WithTitle(d, t2)
    ensures WithOutputSchema(WithOutputSchema(d, s1), s2) == WithOutputSchema(d, s2)
    ensures WithAnnotations(WithAnnotations(d, a1), a2) == WithAnnotations(d, a2)
  {
  }

  /** The Rust identifier of each variant. */
  function VariantName(t: JsonSchemaType): string
  {
    match t
    case Object => "Object"
    case Array => "Array"
    case String => "String"
    case Number => "Number"
    case Integer => "Integer"
    case Boolean => "Boolean"
    case Null => "Null"
  }

  /** ASCII lower-casing of one character. */
  function LowerChar(c: char): char
  {
    if 'A' <= c <= 'Z' then (c as int + 32) as char else c
  }

  /** Lower-casing, as serde's `rename_all = "lowercase"` applies it to an identifier. */
  function ToLower(s: string): string
  {
    seq(|s|, i requires 0 <= i < |s| => LowerChar(s[i]))
  }

  /** The name a variant has on the wire: its identifier in lower case. */
  function TypeName(t: JsonSchemaType): string
  {
    ToLower(VariantName(t))
  }

  /** Reading a `type` keyword back: exactly the seven lower-case names are accepted. */
  function ParseTypeName(s: string): (r: Option<JsonSchemaType>)
  {
    match s
    case "object" => Some(Object)
    case "array" => Some(Array)
    case "string" => Some(String)
    case "number" => Some(Number)
    case "integer" => Some(Integer)
    case "boolean" => Some(Boolean)
    case "null" => Some(Null)
    case _ => None
  }

  /** The wire name of each variant. */
  lemma TypeNameTable(t: JsonSchemaType)
    ensures TypeName(t) == match t
      case Object => "object"
      case Array => "array"
      case String => "string"
      case Number => "number"
      case Integer => "integer"
      case Boolean => "boolean"
      case Null => "null"
  {
  }

  /** A name parses to `t` exactly when it is `t`'s wire name. */
  lemma ParseTypeNameExact(s: string, t: JsonSchemaType)
    ensures ParseTypeName(s) == Some(t) <==> s == TypeName(t)
  {
    TypeNameTable(t);
    match t
    case Object =>
    case Array =>
    case String =>
    case Number =>
    case Integer =>
    case Boolean =>
    case Null =>
  }

  /** Different variants have different wire names. */
  lemma TypeNameInjective(t1: JsonSchemaType, t2: JsonSchemaType)
    ensures TypeName(t1) == TypeName(t2) ==> t1 == t2
  {
    ParseTypeNameExact(TypeName(t1), t1);
    ParseTypeNameExact(TypeName(t2), t2);
  }
}
