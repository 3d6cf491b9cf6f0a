/** Field descriptors of the record types: the declared type of each field and
    the `[ApiName]` override, if any, that names the key it is read from. */
module FieldTables {
  import opened Wrappers

  /** The declared type of a field. */
  datatype FieldType =
    | IntField
    | DoubleField
    | BoolField
    | StringField
    | DateTimeField
    | EnumField(enumName: string)
    | RecordField(recordName: string)
    | ListField(elementName: string)
    | StringPairField

  datatype FieldDescriptor = FieldDescriptor(name: string, fieldType: FieldType, apiName: Option<string>)

  /** The key a field is read from: the declared override when there is one,
      else the mapping engine's own derivation from the field name. That
      derivation is not part of this model, so it is a parameter. */
  function SourceKey(d: FieldDescriptor, deriveKey: string -> string): (key: string)
    ensures d.apiName.Some? ==> key == d.apiName.value
    ensures d.apiName.None? ==> key == deriveKey(d.name)
  {
    match d.apiName
    case Some(k) => k
    case None => deriveKey(d.name)
  }

  /** The route a field takes at one call site: a transform registered under
      the field's name receives the value at the field's key; every other field
      goes through the engine's default coercion for its declared type. */
  datatype Resolution = ByTransform(key: string) | ByDefaultCoercion(key: string, fieldType: FieldType)

  function Resolve(d: FieldDescriptor, registered: set<string>, deriveKey: string -> string): (r: Resolution)
    ensures r.ByTransform? <==> d.name in registered
    ensures r.key == SourceKey(d, deriveKey)
    ensures r.ByDefaultCoercion? ==> r.fieldType == d.fieldType
  {
    if d.name in registered then ByTransform(SourceKey(d, deriveKey))
    else ByDefaultCoercion(SourceKey(d, deriveKey), d.fieldType)
  }
}
