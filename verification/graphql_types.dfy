/**
 * The GraphQL type the generator gives a protobuf field: a scalar for a
 * scalar kind, a Timestamp, ByteString or object type for a message
 * reference, wrapped in List for a repeated field and in NonNull for a
 * required one.
 */
module GraphQLTypes {
  import opened Wrappers
  import opened Descriptors
  import opened Naming

  /** A GraphQL output type, as the generated code refers to it. */
  datatype OutType =
    | Float | Int | Boolean | String | ByteString | Timestamp
    | Object(varName: string)
    | List(elem: OutType)
    | NonNull(inner: OutType)
  {
    /** Not a List or NonNull modifier. */
    predicate IsNamed()
    {
      !List? && !NonNull?
    }
  }

  /** Why generation stops. The Go code panics or exits at the first of these. */
  datatype GenError =
    | UnsupportedGroup
    | UnsupportedEnum
    | UnknownKind(kind: FieldType)
    | UnresolvedType(typeName: string)
    | UnresolvedMembers(typeNames: set<string>)

  /** The kinds the generator maps to GraphQL's Int. */
  predicate IsIntegerKind(k: FieldType)
  {
    k in {TypeInt64, TypeUint64, TypeInt32, TypeUint32, TypeFixed64, TypeFixed32,
          TypeSfixed32, TypeSfixed64, TypeSint32, TypeSint64}
  }

  /**
   * The named type of a message-typed field: the Timestamp scalar for a
   * foreign type named exactly "Timestamp", ByteString for any other
   * foreign type, and the generated object for a type of the same package.
   * A type name that resolves to nothing stops generation.
   */
  function MessageType(message: MessageDescriptor, field: FieldDescriptor, objects: map<string, GoObject>)
    : (r: Result<OutType, GenError>)
    ensures field.typeName !in objects <==> r == Failure(UnresolvedType(field.typeName))
    ensures r.Success? ==> r.value.IsNamed()
  {
    if field.typeName !in objects then Failure(UnresolvedType(field.typeName))
    else
      var obj := objects[field.typeName];
      if obj.packageName != message.packageName then
        if field.typeName == "Timestamp" then Success(Timestamp) else Success(ByteString)
      else Success(Object(TypeVarName(obj.goName)))
  }

  /**
   * The named type of a field, by kind, with the integer case listing all ten
   * integer kinds. Groups, enums and unknown kinds stop generation.
   */
  function KindType(message: MessageDescriptor, field: FieldDescriptor, objects: map<string, GoObject>)
    : (r: Result<OutType, GenError>)
    ensures r.Success? ==> r.value.IsNamed()
    ensures r.Failure? && r.error.UnknownKind? <==> field.kind.TypeUnknown?
    ensures r.Failure? ==> !r.error.UnresolvedMembers?
    ensures r.Failure? && r.error.UnknownKind? ==> r.error.kind == field.kind
  {
    match field.kind
    case TypeDouble | TypeFloat => Success(Float)
    case TypeInt64 | TypeUint64 | TypeInt32 | TypeUint32 | TypeFixed64 | TypeFixed32
      | TypeSfixed32 | TypeSfixed64 | TypeSint32 | TypeSint64 => Success(Int)
    case TypeBool => Success(Boolean)
    case TypeString => Success(String)
    case TypeGroup => Failure(UnsupportedGroup)
    case TypeEnum => Failure(UnsupportedEnum)
    case TypeMessage => MessageType(message, field, objects)
    case TypeBytes => Success(ByteString)
    case _ => Failure(UnknownKind(field.kind))
  }

  /**
   * The kind switch as the Go code writes it. Its integer case lists nine
   * kinds, without `uint32`, so a `uint32` field reaches the default case and
   * generation stops there, as it does for an unknown kind.
   */
  function KindTypeAsWritten(message: MessageDescriptor, field: FieldDescriptor, objects: map<string, GoObject>)
    : (r: Result<OutType, GenError>)
    ensures r.Success? ==> r.value.IsNamed()
    ensures r.Failure? && r.error.UnknownKind? <==> field.kind.TypeUnknown? || field.kind == TypeUint32
    ensures r.Failure? && r.error.UnknownKind? ==> r.error.kind == field.kind
  {
    match field.kind
    case TypeDouble | TypeFloat => Success(Float)
    case TypeInt64 | TypeUint64 | TypeInt32 | TypeFixed64 | TypeFixed32
      | TypeSfixed32 | TypeSfixed64 | TypeSint32 | TypeSint64 => Success(Int)
    case TypeBool => Success(Boolean)
    case TypeString => Success(String)
    case TypeGroup => Failure(UnsupportedGroup)
    case TypeEnum => Failure(UnsupportedEnum)
    case TypeMessage => MessageType(message, field, objects)
    case TypeBytes => Success(ByteString)
    case _ => Failure(UnknownKind(field.kind))
  }

  /** List first for a repeated field, NonNull outermost for a required one. */
  function Wrap(t: OutType, repeated: bool, required: bool): (r: OutType)
  {
    var l := if repeated then List(t) else t;
    if required then NonNull(l) else l
  }

  /** The named type and the two modifiers of a wrapped type. */
  function Unwrap(t: OutType): (OutType, bool, bool)
  {
    var (inner, required) := if t.NonNull? then (t.inner, true) else (t, false);
    if inner.List? then (inner.elem, true, required) else (inner, false, required)
  }

  /** Wrapping a named type loses nothing: Unwrap recovers the type and both flags. */
  lemma UnwrapWrap(t: OutType, repeated: bool, required: bool)
    requires t.IsNamed()
    ensures Unwrap(Wrap(t, repeated, required)) == (t, repeated, required)
  {
  }

  /** The GraphQL type of a field: its named type with the modifiers its label calls for. */
  function GraphQLType(message: MessageDescriptor, field: FieldDescriptor, objects: map<string, GoObject>)
    : (r: Result<OutType, GenError>)
    ensures r.Success? <==> KindType(message, field, objects).Success?
    ensures r.Success? ==>
      Unwrap(r.value) == (KindType(message, field, objects).value, field.cardinality == Repeated, field.cardinality == Required)
    ensures r.Failure? ==> r.error == KindType(message, field, objects).error
  {
    match KindType(message, field, objects)
    case Success(t) =>
      UnwrapWrap(t, field.cardinality == Repeated, field.cardinality == Required);
      Success(Wrap(t, field.cardinality == Repeated, field.cardinality == Required))
    case Failure(e) => Failure(e)
  }

  /** The Go graphQLType, with the kind switch as written. */
  function GraphQLTypeAsWritten(message: MessageDescriptor, field: FieldDescriptor, objects: map<string, GoObject>)
    : (r: Result<OutType, GenError>)
    ensures r.Success? <==> KindTypeAsWritten(message, field, objects).Success?
    ensures r.Success? ==>
      Unwrap(r.value) == (KindTypeAsWritten(message, field, objects).value, field.cardinality == Repeated, field.cardinality == Required)
    ensures r.Failure? ==> r.error == KindTypeAsWritten(message, field, objects).error
  {
    match KindTypeAsWritten(message, field, objects)
    case Success(t) =>
      UnwrapWrap(t, field.cardinality == Repeated, field.cardinality == Required);
      Success(Wrap(t, field.cardinality == Repeated, field.cardinality == Required))
    case Failure(e) => Failure(e)
  }

  /**
   * The kind mapping: floating kinds to Float, integer kinds to Int, bool to
   * Boolean, string to String, bytes to ByteString; groups, enums and
   * unknown kinds are rejected, never mapped.
   */
  lemma {:induction false} KindMapping(message: MessageDescriptor, field: FieldDescriptor, objects: map<string, GoObject>)
    ensures var r := KindType(message, field, objects);
      && (field.kind in {TypeDouble, TypeFloat} <==> r == Success(Float))
      && (IsIntegerKind(field.kind) <==> r == Success(Int))
      && (field.kind == TypeBool <==> r == Success(Boolean))
      && (field.kind == TypeString <==> r == Success(String))
      && (field.kind == TypeGroup <==> r == Failure(UnsupportedGroup))
      && (field.kind == TypeEnum <==> r == Failure(UnsupportedEnum))
      && (field.kind.TypeUnknown? <==> r == Failure(UnknownKind(field.kind)))
      && (field.kind == TypeBytes ==> r == Success(ByteString))
  {
    var r := KindType(message, field, objects);
    if field.kind == TypeMessage {
      MessageTypeShape(message, field, objects);
    }
  }

  lemma MessageTypeShape(message: MessageDescriptor, field: FieldDescriptor, objects: map<string, GoObject>)
    ensures var r := MessageType(message, field, objects);
      r.Success? ==> r.value in {Timestamp, ByteString} || r.value.Object?
    ensures MessageType(message, field, objects).Failure? ==> MessageType(message, field, objects).error.UnresolvedType?
  {
  }

  /**
   * A message field's type by where its type lives: another package gives
   * Timestamp exactly for the type name "Timestamp" and ByteString otherwise;
   * the same package gives the object "GraphQL" + Go type name + "Type".
   */
  lemma MessageTypeCases(message: MessageDescriptor, field: FieldDescriptor, objects: map<string, GoObject>)
    requires field.kind == TypeMessage && field.typeName in objects
    ensures var obj := objects[field.typeName];
      var r := KindType(message, field, objects);
      && (obj.packageName != message.packageName && field.typeName == "Timestamp" ==> r == Success(Timestamp))
      && (obj.packageName != message.packageName && field.typeName != "Timestamp" ==> r == Success(ByteString))
      && (obj.packageName == message.packageName ==> r == Success(Object(TypeVarName(obj.goName))))
  {
  }

  /** Both modifiers give NonNull(List(t)); neither leaves t unchanged. */
  lemma WrapCases(t: OutType)
    ensures Wrap(t, true, true) == NonNull(List(t))
    ensures Wrap(t, true, false) == List(t)
    ensures Wrap(t, false, true) == NonNull(t)
    ensures Wrap(t, false, false) == t
  {
  }

  /** As written, a `uint32` field stops generation although every other integer kind maps to Int. */
  lemma Uint32Rejected(message: MessageDescriptor, field: FieldDescriptor, objects: map<string, GoObject>)
    requires field.kind == TypeUint32
    ensures GraphQLTypeAsWritten(message, field, objects) == Failure(UnknownKind(TypeUint32))
    ensures GraphQLType(message, field, objects).Success?
    ensures Unwrap(GraphQLType(message, field, objects).value).0 == Int
  {
  }

  /** The written and the corrected mapping differ only on `uint32` fields. */
  lemma AsWrittenAgrees(message: MessageDescriptor, field: FieldDescriptor, objects: map<string, GoObject>)
    requires field.kind != TypeUint32
    ensures GraphQLTypeAsWritten(message, field, objects) == GraphQLType(message, field, objects)
  {
  }
}
