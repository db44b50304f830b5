/** generateField.ts: one GraphQL field becomes one Flatfile field, or
    nothing when its type kind is unsupported. */
module FieldMapping {
  import opened Wrappers
  import opened PluginTypes

  /** getType: the Flatfile type of a GraphQL scalar, by its name. */
  function ScalarType(scalar: string): (t: FieldType)
    ensures t == NumberType <==> scalar == "Float" || scalar == "Int"
    ensures t == BooleanType <==> scalar == "Boolean"
    ensures t == StringType <==> scalar != "Float" && scalar != "Int" && scalar != "Boolean"
  {
    if scalar == "Float" || scalar == "Int" then NumberType
    else if scalar == "Boolean" then BooleanType
    else StringType
  }

  /** The type left after removing every outer NON_NULL wrapper. */
  function Unwrapped(t: TypeRef): (u: TypeRef)
    ensures !u.NonNull?
  {
    if t.NonNull? then Unwrapped(t.ofType) else t
  }

  /** `t` under `n` NON_NULL wrappers. */
  function WrapNonNull(t: TypeRef, n: nat): TypeRef {
    if n == 0 then t else NonNull(WrapNonNull(t, n - 1))
  }

  /** The base property of the field spread together with a type and a config:
      the constraints and multi are computed from the field's own (outer) kind. */
  function WithType(field: SourceField, capitalCase: string -> string,
                    fieldType: FieldType, config: Option<RefConfig>): Property
  {
    Property(
      key := field.name,
      displayLabel := capitalCase(field.name),
      description := Some(field.description.GetOr("")),
      constraints := Some(if field.typeRef.NonNull? then [Required] else []),
      multi := Some(field.typeRef.List?),
      fieldType := fieldType,
      config := config)
  }

  /** generateField. NON_NULL recurses on the wrapped type with the same name
      and description, so the `required` constraint of its base property is
      discarded: no field produced here is ever required. */
  function GenerateField(field: SourceField, capitalCase: string -> string): (r: Option<Property>)
    ensures r.None? <==> Unwrapped(field.typeRef).Other?
    ensures r.Some? ==> r.value.key == field.name && r.value.displayLabel == capitalCase(field.name)
    ensures r.Some? ==> r.value.description == Some(field.description.GetOr(""))
    ensures r.Some? ==> r.value.constraints == Some([])
    ensures r.Some? ==> r.value.multi == Some(Unwrapped(field.typeRef).List?)
    ensures Unwrapped(field.typeRef).Scalar? ==>
      r.Some? && r.value.fieldType == ScalarType(Unwrapped(field.typeRef).name) && r.value.config.None?
    ensures Unwrapped(field.typeRef).Object? ==>
      r.Some? && r.value.fieldType == ReferenceType &&
      r.value.config == Some(RefConfig(Unwrapped(field.typeRef).name, "id", "has-one"))
    ensures Unwrapped(field.typeRef).List? ==>
      r.Some? && r.value.fieldType == StringType && r.value.config.None?
    decreases field.typeRef
  {
    match field.typeRef
    case Scalar(name) => Some(WithType(field, capitalCase, ScalarType(name), None))
    case Object(name) =>
      Some(WithType(field, capitalCase, ReferenceType, Some(RefConfig(name, "id", "has-one"))))
    case List(_) => Some(WithType(field, capitalCase, StringType, None))
    case NonNull(inner) => GenerateField(field.(typeRef := inner), capitalCase)
    case Other(_) => None
  }

  /** Any number of NON_NULL wrappers leaves the mapping unchanged. */
  lemma {:induction false} NonNullTransparent(field: SourceField, t: TypeRef, n: nat,
                                              capitalCase: string -> string)
    ensures GenerateField(field.(typeRef := WrapNonNull(t, n)), capitalCase)
         == GenerateField(field.(typeRef := t), capitalCase)
  {
    if n > 0 {
      NonNullTransparent(field, t, n - 1, capitalCase);
    }
  }

  /** An unsupported kind is skipped however many NON_NULL wrappers it sits under. */
  lemma {:induction false} UnsupportedSkipped(field: SourceField, kind: string, n: nat,
                                              capitalCase: string -> string)
    ensures GenerateField(field.(typeRef := WrapNonNull(Other(kind), n)), capitalCase).None?
  {
    NonNullTransparent(field, Other(kind), n, capitalCase);
  }

  /** A list field is a multi string field whatever its element type. */
  lemma ListIgnoresElementType(field: SourceField, a: TypeRef, b: TypeRef,
                               capitalCase: string -> string)
    ensures GenerateField(field.(typeRef := List(a)), capitalCase)
         == GenerateField(field.(typeRef := List(b)), capitalCase)
    ensures GenerateField(field.(typeRef := List(a)), capitalCase).value.multi == Some(true)
  {
  }
}
