/**
 * The parts of a protobuf file descriptor the GraphQL and bitflags
 * generators read. Names the Go code generator derives (CamelCase Go type
 * names, Go field names) are carried as attributes rather than computed.
 */
module Descriptors {
  import opened Wrappers
  import opened GoTypes

  /** A protobuf field type, as FieldDescriptorProto numbers them. */
  datatype FieldType =
    | TypeDouble | TypeFloat | TypeInt64 | TypeUint64 | TypeInt32
    | TypeFixed64 | TypeFixed32 | TypeBool | TypeString | TypeGroup
    | TypeMessage | TypeBytes | TypeUint32 | TypeEnum | TypeSfixed32
    | TypeSfixed64 | TypeSint32 | TypeSint64
    | TypeUnknown(code: int)

  /** A field's cardinality: a field has exactly one label. */
  datatype Label = Optional | Required | Repeated

  /**
   * One field of a message. `goName` is the Go struct field name,
   * `typeName` the referenced type of a message field (empty otherwise),
   * `oneofIndex` the oneof group the field belongs to, if any.
   */
  datatype FieldDescriptor = FieldDescriptor(
    name: string,
    goName: string,
    kind: FieldType,
    typeName: string,
    cardinality: Label,
    oneofIndex: Option<Int32>)

  /** A oneof group: its proto name and its CamelCase form. */
  datatype OneofDecl = OneofDecl(name: string, goName: string)

  /**
   * A message type: its name path (outer messages first), its Go type name
   * (the path in CamelCase joined by '_'), its Go package, its fields and
   * oneof groups in declaration order, whether it is a synthetic map entry,
   * and whether it carries the bitflags option (what `IsBitflags` answers).
   */
  datatype MessageDescriptor = MessageDescriptor(
    typeName: seq<string>,
    goName: string,
    packageName: string,
    fields: seq<FieldDescriptor>,
    oneofDecls: seq<OneofDecl>,
    mapEntry: bool,
    bitflags: bool)

  /** A .proto file: whether it asks for GraphQL output, and its messages in order. */
  datatype FileDescriptor = FileDescriptor(graphqlFile: bool, messages: seq<MessageDescriptor>)

  /** What looking a type name up among all loaded files yields: its Go type name and package. */
  datatype GoObject = GoObject(goName: string, packageName: string)
}
