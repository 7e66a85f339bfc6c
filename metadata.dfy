/**
 * The schema metadata plugin (src/plugins/commonStatics.ts). Registered on a
 * Mongoose schema, it adds a static `getFieldMetadata` that walks the
 * schema's paths and derives, per field, the UI metadata a dynamic admin form
 * needs. The Mongoose schema object is modelled as a `Schema` value: its
 * paths in `Object.keys` order, each with the attributes the plugin reads.
 */
module Metadata {
  import opened Wrappers
  import opened Strings
  import opened Overrides

  /** `schema.paths`, in key order. */
  datatype Schema = Schema(paths: seq<Field>)

  /**
   * The shape of a path's `options.type`: not an array, or an array whose
   * first element's `type` is `member` (None when that is not a schema
   * with paths).
   */
  datatype TypeOption = PlainType | ArrayOfTypes(member: Option<Schema>)

  /** `field.instance`: the name of a Mongoose SchemaType. */
  datatype Instance =
    | String | Number | Date | Buffer | Boolean | Mixed | ObjectId
    | Array | Decimal128 | Map | Embedded | UUID | BigInt

  function InstanceName(i: Instance): string
  {
    match i
    case String => "String"
    case Number => "Number"
    case Date => "Date"
    case Buffer => "Buffer"
    case Boolean => "Boolean"
    case Mixed => "Mixed"
    case ObjectId => "ObjectId"
    case Array => "Array"
    case Decimal128 => "Decimal128"
    case Map => "Map"
    case Embedded => "Embedded"
    case UUID => "UUID"
    case BigInt => "BigInt"
  }

  /** One Mongoose SchemaType, as far as the plugin inspects it. */
  datatype Field = Field(
    name: string,                     // the key in `schema.paths`
    instance: Instance,               // `field.instance`
    casterInstance: Option<Instance>, // `field.caster?.instance`
    isRequired: bool,                 // `field.isRequired`
    ref: Option<string>,              // `field.options.ref`
    enumValues: seq<string>,          // `field.options.enum`, [] when undeclared
    defaultValue: Option<string>,     // `field.options.default` (not read by the plugin)
    schema: Option<Schema>,           // `field.schema`
    typeOption: TypeOption)           // `field.options.type`

  /** An entry of `refFieldMapping`, and the `ref` of a metadata record. */
  datatype RefTarget = RefTarget(model: string, strField: string)

  /**
   * One value of the metadata map. `ref` None is the empty string `''`;
   * `typeName` is the record's `type` key. An ArrayRecord has no
   * `enumValues`, `dependsOn` or `filterField` keys.
   */
  datatype Meta =
    | FieldRecord(componentType: string, required: bool, ref: Option<RefTarget>, typeName: string,
                  isArray: bool, enumValues: seq<string>, dependsOn: Option<string>, filterField: Option<string>)
    | ArrayRecord(componentType: string, required: bool, ref: Option<RefTarget>, typeName: string,
                  isArray: bool, questionField: Option<string>, descriptionField: Option<string>)
    | Nested(entries: seq<(string, Meta)>)

  /** The plugin's options; an undefined option behaves as an empty map. */
  datatype PluginOptions = PluginOptions(
    defaultComponentOverrides: map<string, OTree>,
    refFieldMapping: map<string, RefTarget>)

  /** What `getFieldMetadata` closes over: the `runtimeOverrides` object and the options. */
  datatype Plugin = Plugin(runtimeOverrides: map<string, string>, options: PluginOptions)

  /** `schemaMetadataPlugin(schema, options)`: `runtimeOverrides` starts empty and nothing writes it. */
  function Register(options: PluginOptions): Plugin
  {
    Plugin(map[], options)
  }

  /** Audit and framework field names that never appear in the metadata. `slug` is not among them. */
  const ExcludedNames: seq<string> :=
    ["createdAt", "updatedAt", "deletedAt", "deleted", "author", "__v", "_id",
     "isDeleted", "--v", "favorites", "comments", "displayPosition", "readTime"]

  predicate Excluded(name: string)
  {
    name in ExcludedNames
  }

  /** The dotted path of a field below `prefix`; an empty prefix is falsy. */
  function FullName(prefix: string, name: string): string
  {
    if prefix == "" then name else prefix + "." + name
  }

  /** The hard-coded dependency hint, set by field name only. */
  function DependsOn(name: string): Option<string>
  {
    if name == "expert" then Some("center")
    else if name == "weekDay" then Some("center,expert")
    else None
  }

  /** `inferComponentType`. */
  function InferComponentType(f: Field): string
  {
    if f.instance == String then "TextField"
    else if f.instance == Array && f.casterInstance == Some(String) then "MultiSelect"
    else "TextField"
  }

  /** JavaScript truthiness of a possibly undefined string. */
  predicate Truthy(s: Option<string>)
  {
    s.Some? && s.value != ""
  }

  /** `runtimeOverrides[fullFieldName]`. */
  function RuntimeOverride(p: Plugin, full: string): Option<string>
  {
    if full in p.runtimeOverrides then Some(p.runtimeOverrides[full]) else None
  }

  /** `getOverride(fullFieldName, defaultComponentOverrides ?? {})`. */
  function DefaultOverride(p: Plugin, full: string): Option<string>
  {
    Lookup(Node(p.options.defaultComponentOverrides), Split(full, '.'))
  }

  /** `runtime || override || inferred`. */
  function FirstTruthy(runtime: Option<string>, default: Option<string>, inferred: string): string
  {
    if Truthy(runtime) then runtime.value
    else if Truthy(default) then default.value
    else inferred
  }

  /** The `componentType` of a record. */
  function ResolveComponentType(p: Plugin, full: string, f: Field): string
  {
    FirstTruthy(RuntimeOverride(p, full), DefaultOverride(p, full), InferComponentType(f))
  }

  /** The `ref` of a record: a truthy declared ref is looked up in the mapping. */
  function RefOf(f: Field, mapping: map<string, RefTarget>): Option<RefTarget>
  {
    if f.ref.Some? && f.ref.value != "" then
      Some(if f.ref.value in mapping then mapping[f.ref.value] else RefTarget(f.ref.value, ""))
    else None
  }

  /** `Object.keys(s.paths)`. */
  function Names(s: Schema): seq<string>
  {
    seq(|s.paths|, i requires 0 <= i < |s.paths| => s.paths[i].name)
  }

  /** `xs[k]`, undefined past the end. */
  function At(xs: seq<string>, k: nat): Option<string>
  {
    if k < |xs| then Some(xs[k]) else None
  }

  /** The field has `instance === 'Embedded'` or a `schema`. */
  predicate HasSubSchema(f: Field)
  {
    f.instance == Embedded || f.schema.Some?
  }

  /** An Array whose `options.type[0].type` is a schema with paths. */
  predicate IsSubdocArray(f: Field)
  {
    f.instance == Array && f.typeOption.ArrayOfTypes? && f.typeOption.member.Some?
  }

  /**
   * The sub-schema the plugin recurses into exists where it is needed.
   * Mongoose gives every Embedded path a schema; without it `processSchema`
   * would dereference `undefined`.
   */
  predicate WellFormedField(f: Field)
    decreases f
  {
    && (f.instance == Embedded ==> f.schema.Some?)
    && (f.schema.Some? && !IsSubdocArray(f) ==> WellFormed(f.schema.value))
  }

  predicate WellFormed(s: Schema)
    decreases s
  {
    forall i :: 0 <= i < |s.paths| ==> WellFormedField(s.paths[i])
  }

  /** The leaf record of a scalar, scalar-array or reference field. */
  function LeafRecord(f: Field, full: string, p: Plugin): Meta
  {
    FieldRecord(ResolveComponentType(p, full, f), f.isRequired, RefOf(f, p.options.refFieldMapping),
                InstanceName(f.instance), f.instance == Array, f.enumValues, DependsOn(f.name), DependsOn(f.name))
  }

  /** The single record of an array of sub-documents. */
  function SubdocArrayRecord(f: Field, full: string, p: Plugin): Meta
    requires IsSubdocArray(f)
  {
    var members := Names(f.typeOption.member.value);
    ArrayRecord(ResolveComponentType(p, full, f), f.isRequired, RefOf(f, p.options.refFieldMapping),
                InstanceName(f.instance), f.instance == Array, At(members, 0), At(members, 1))
  }

  /** The key and value stored for one non-excluded field whose parent path is `prefix`. */
  function Entry(f: Field, prefix: string, p: Plugin): (string, Meta)
    requires WellFormedField(f)
    decreases f, 1
  {
    (f.name, FieldMeta(f, prefix, p))
  }

  /** The metadata of one non-excluded field whose parent path is `prefix`. */
  function FieldMeta(f: Field, prefix: string, p: Plugin): Meta
    requires WellFormedField(f)
    decreases f, 0
  {
    var full := FullName(prefix, f.name);
    if HasSubSchema(f) then
      if IsSubdocArray(f) then SubdocArrayRecord(f, full, p)
      else Nested(Entries(f.schema.value, |f.schema.value.paths|, full, p))
    else LeafRecord(f, full, p)
  }

  /** The `result` map `processSchema` has built after its first `n` paths. */
  function Entries(s: Schema, n: nat, prefix: string, p: Plugin): seq<(string, Meta)>
    requires n <= |s.paths| && WellFormed(s)
    decreases s, n
  {
    if n == 0 then []
    else
      var f := s.paths[n - 1];
      var rest := Entries(s, n - 1, prefix, p);
      if Excluded(f.name) then rest else rest + [Entry(f, prefix, p)]
  }

  /** What `getFieldMetadata()` returns for a schema. */
  function FieldMetadata(s: Schema, p: Plugin): seq<(string, Meta)>
    requires WellFormed(s)
  {
    Entries(s, |s.paths|, "", p)
  }

  // ---------------------------------------------------------------------
  // The imperative plugin code.

  /** The `||` chain that picks a record's `componentType`, using `getOverride`. */
  method ComponentTypeOf(p: Plugin, fullFieldName: string, field: Field) returns (componentType: string)
    ensures componentType == ResolveComponentType(p, fullFieldName, field)
  {
    var runtime := RuntimeOverride(p, fullFieldName);
    var default := GetOverride(fullFieldName, p.options.defaultComponentOverrides);
    if Truthy(runtime) {
      componentType := runtime.value;
    } else if Truthy(default) {
      componentType := default.value;
    } else {
      componentType := InferComponentType(field);
    }
  }

  /**
   * `processSchema(subSchema, prefix)`: fill `result` path by path, skipping
   * excluded names and recursing into embedded schemas.
   */
  method ProcessSchema(subSchema: Schema, prefix: string, p: Plugin) returns (result: seq<(string, Meta)>)
    requires WellFormed(subSchema)
    ensures result == Entries(subSchema, |subSchema.paths|, prefix, p)
    decreases subSchema
  {
    result := [];
    var i := 0;
    while i < |subSchema.paths|
      invariant 0 <= i <= |subSchema.paths|
      invariant result == Entries(subSchema, i, prefix, p)
    {
      var field := subSchema.paths[i];
      assert WellFormedField(field);
      if field.name !in ExcludedNames {
        var fullFieldName := FullName(prefix, field.name);
        var dependsOn := DependsOn(field.name);
        var meta: Meta;
        if field.instance == Embedded || field.schema.Some? {
          if field.instance == Array && field.typeOption.ArrayOfTypes? && field.typeOption.member.Some? {
            var subFields := Names(field.typeOption.member.value);
            var componentType := ComponentTypeOf(p, fullFieldName, field);
            meta := ArrayRecord(componentType, field.isRequired, RefOf(field, p.options.refFieldMapping),
                                InstanceName(field.instance), field.instance == Array, At(subFields, 0), At(subFields, 1));
          } else {
            var nested := ProcessSchema(field.schema.value, fullFieldName, p);
            meta := Nested(nested);
          }
        } else {
          var componentType := ComponentTypeOf(p, fullFieldName, field);
          meta := FieldRecord(componentType, field.isRequired, RefOf(field, p.options.refFieldMapping),
                              InstanceName(field.instance), field.instance == Array, field.enumValues, dependsOn, dependsOn);
        }
        assert meta == FieldMeta(field, prefix, p);
        result := result + [(field.name, meta)];
      }
      i := i + 1;
    }
  }

  /** The `getFieldMetadata` static: `Object.assign({}, processSchema(this.schema))`. */
  method GetFieldMetadata(schema: Schema, p: Plugin) returns (metadata: seq<(string, Meta)>)
    requires WellFormed(schema)
    ensures metadata == FieldMetadata(schema, p)
  {
    metadata := ProcessSchema(schema, "", p);
  }
}
