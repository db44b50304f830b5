/** The shapes the GraphQL plugin works on: the introspected GraphQL type
    descriptors it reads and the sheet and workbook configurations it builds
    (typescript/graphql-plugin/types.ts and the Flatfile API types it names). */
module PluginTypes {
  import opened Wrappers

  /** A JSON value: the caller-supplied properties that the plugin copies
      through without looking at them (sheet actions, workbook labels, ...). */
  datatype Value =
    | Null
    | Bool(b: bool)
    | Num(n: int)
    | Str(s: string)
    | Arr(items: seq<Value>)
    | Obj(members: map<string, Value>)

  /** The type of a GraphQL field as introspection reports it: a tree of
      LIST and NON_NULL wrappers over a named SCALAR or OBJECT leaf; every
      other kind (ENUM, UNION, INTERFACE, INPUT_OBJECT) is `Other`. */
  datatype TypeRef =
    | Scalar(name: string)
    | Object(name: string)
    | List(ofType: TypeRef)
    | NonNull(ofType: TypeRef)
    | Other(kind: string)

  /** One field of an introspected GraphQL type; the description may be null. */
  datatype SourceField = SourceField(name: string, description: Option<string>, typeRef: TypeRef)

  /** One entry of `__schema.types` in an introspection result. */
  datatype TypeDescriptor = TypeDescriptor(
    kind: string,
    name: string,
    description: Option<string>,
    fields: seq<SourceField>)

  /** The type of a Flatfile field, as far as the plugin produces them. */
  datatype FieldType = NumberType | BooleanType | StringType | ReferenceType

  /** A field constraint; `required` is the only one the plugin ever names. */
  datatype Constraint = Required

  /** The `config` of a reference field: the sheet it points at and how. */
  datatype RefConfig = RefConfig(ref: string, key: string, relationship: string)

  /** A Flatfile field (Property); `displayLabel` is its `label`. The synthesized `id` field carries no
      description, constraints or multi, so those three are optional. */
  datatype Property = Property(
    key: string,
    displayLabel: string,
    description: Option<string>,
    constraints: Option<seq<Constraint>>,
    multi: Option<bool>,
    fieldType: FieldType,
    config: Option<RefConfig>)

  /** A caller's partial sheet configuration: a slug naming the GraphQL
      object it applies to, and every other property it sets. */
  datatype SheetConfig = SheetConfig(slug: string, props: map<string, Value>)

  /** A generated sheet: the four computed properties, and the other
      properties carried over from the matching override. */
  datatype Sheet = Sheet(
    name: string,
    slug: string,
    description: string,
    fields: seq<Property>,
    props: map<string, Value>)

  /** Where the schema comes from: a string (a URL or an SDL document), an
      in-memory GraphQLSchema instance (named by an opaque handle), or
      any other value a caller passes. */
  datatype Source =
    | Text(text: string)
    | SchemaInstance(handle: nat)
    | OtherSource(value: Value)

  /** PartialWorkbookConfig: the source, an optional workbook name, optional
      sheet overrides, and every other workbook property the caller sets. */
  datatype WorkbookConfig = WorkbookConfig(
    source: Source,
    name: Option<string>,
    sheets: Option<seq<SheetConfig>>,
    props: map<string, Value>)

  /** The workbook configuration handed to workbook creation. */
  datatype Workbook = Workbook(
    name: string,
    source: Source,
    sheets: seq<Sheet>,
    props: map<string, Value>)
}
