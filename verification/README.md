# opsee/protobuf in Dafny

This project models the core of opsee/protobuf, a set of protoc plugins and
protobuf helper types written in Go:

- **GraphQL generator** (`plugin/graphql/graphql.go`). For every `.proto`
  file that asks for GraphQL output, it builds one object type per message
  that is not a map entry and has fields. Each ordinary field gets a GraphQL
  type from its proto kind and label, plus a resolver. Each oneof group
  becomes a union whose `ResolveType` switches on the Go wrapper type of the
  value. The model computes the resulting schema, a `Schema` value, instead
  of emitting Go text.
- **Scalars** (`plugin/graphql/scalars/scalars.go`). These are the
  ByteString, Timestamp and Any scalars and their coercion functions.
- **Bitflags generator** (`plugin/bitflags/bitflags.go`). For every message
  carrying the bitflags option, it emits methods on the boolean struct:
  - `UInt64` and `FromUInt64`;
  - `HighFlags` and `LowFlags`;
  - `SetFlag`, `ClearFlag`, `SetFlags` and `ClearFlags`;
  - `TestFlag` and `TestFlags`;
  - `Scan` and `Value`.

  The model is the `FlagSet` class, whose methods are what the emitted code
  does.
- **Permissions** (`opseeproto/types/permissions.go`). This is a 64-bit
  permission bitmap with a registry of bit names per permission type.
- **Timestamp** (`opseeproto/types/timestamp.go`). This covers validation,
  milliseconds and the database scanner.
- **Name mangling** (`gogogqlproto/helper.go`). The snake-case conversion is
  shared by all three copies of the loop. The generated type variable names
  come from here too.

The modules follow the program. `GoTypes` holds Go's integer widths, two's
complement conversions and truncating division. `Bits` holds `uint64` bit
operations, where a `uint64` is its unsigned value and `|`, `&` and `^` are
defined on binary digits. The other modules are `Naming`, `Timestamps`,
`Permissions`, `Scalars`, `Descriptors`, `GraphQLTypes`, `GraphQLGenerate`
and `Bitflags`.

Anything the Go code changes in place is a class with `modifies` clauses:
- the permission bitmap and the `Permission` record;
- the `Timestamp` message under `Scan`;
- the plugins' per-file state;
- a bitflags struct.

The loops that compute state are methods proved against specification
functions. The loops that emit the schema become functions that compute the
schema as a value.

## Model

| member | source | states |
|---|---|---|
| GoTypes.ToUint64 | opseeproto/types/permissions.go:134-147 | `uint64(v)` keeps non-negative values and adds 2^64 to negative `int64` values |
| GoTypes.ToInt64 | opseeproto/types/permissions.go:153-155 | `int64(u)` is non-negative exactly when u < 2^63, and is congruent to u modulo 2^64 |
| GoTypes.UintIntRoundTrip | opseeproto/types/permissions.go:134-155 | `uint64(int64(u)) == u` for every `uint64`, so scanning the stored value restores a bitmap |
| GoTypes.IntUintRoundTrip | opseeproto/types/permissions.go:134-155 | `int64(uint64(v)) == v` for every `int64` |
| GoTypes.Wrap64 | plugin/graphql/scalars/scalars.go:58-59 | wrapping into `int64` keeps the value modulo 2^64 |
| GoTypes.Wrap64Identity | plugin/graphql/scalars/scalars.go:58-59 | wrapping leaves values already inside the `int64` range unchanged |
| GoTypes.TruncDiv | opseeproto/types/timestamp.go:56-59 | Go's `/` truncates toward zero: the remainder has the dividend's sign and is smaller than the divisor |
| GoTypes.DriverInt | opseeproto/types/timestamp.go:34-50 | the integer value carried by an `int`, `int32` or `int64` database value |
| Bits.Shl1 | opseeproto/types/permissions.go:58-70 | `uint64(1) << uint(i)` is 2^i for 0 <= i < 64, and 0 for any other i, including negative i |
| Bits.TestBitSpec | opseeproto/types/permissions.go:67-70 | `p & (1 << i) > 0` holds exactly when 0 <= i < 64 and binary digit i of p is 1 |
| Bits.Shl1Test | opseeproto/types/permissions.go:58-70 | the mask `1 << k` tests true at index k only, and nowhere when k is outside [0, 64) |
| Bits.SetBitSpec | opseeproto/types/permissions.go:58-60 | after `p \| (1 << i)`, bit i tests true when i is a bit index, and every other bit tests as before |
| Bits.ClearBitSpec | opseeproto/types/permissions.go:62-65 | after `p &^ (1 << i)`, bit i tests false, and every other bit tests as before |
| Bits.TestExtensional | opseeproto/types/permissions.go:67-70 | two `uint64` values on which all 64 tests agree are equal |
| Bits.TopBit | opseeproto/types/permissions.go:153-155 | bit 63 is set exactly when the value is at least 2^63, which is when `int64` reads it as negative |
| Bits.OrBit | opseeproto/types/permissions.go:58-60 | each binary digit of `a \| b` is the or of the digits of a and b |
| Bits.AndBit | opseeproto/types/permissions.go:62-70 | each binary digit of `a & b` is the and of the digits of a and b |
| Bits.FlipBit | opseeproto/types/permissions.go:62-65 | `^m` on 64 bits flips each of the 64 digits of m |
| Bits.OrBound | opseeproto/types/permissions.go:58-60 | `\|` of two values below 2^n stays below 2^n, so it stays a `uint64` |
| Bits.Extensional | opseeproto/types/permissions.go:67-70 | values below 2^n that agree on every digit below n are equal |
| Naming.SnakeCase | gogogqlproto/helper.go:35-48 | the loop writes, for each rune, '_' at a word boundary and then the rune in lower case; the result is `Snake(name)` |
| Naming.ToLower | gogogqlproto/helper.go:44 | lower-cases ASCII capitals by +32 and keeps every other rune |
| Naming.Snake | gogogqlproto/helper.go:35-48 | the snake-case form is at least as long as the input and at most twice as long |
| Naming.SnakeShape | gogogqlproto/helper.go:35-48 | the output is the lower-cased input with one '_' inserted before each boundary; its length is the input length plus the number of boundaries |
| Naming.SnakeNoUpper | gogogqlproto/helper.go:35-48 | the output contains no upper-case letter |
| Naming.SnakeIdempotent | gogogqlproto/helper.go:35-48 | snake-casing a snake-cased name changes nothing |
| Naming.SnakeDessert | gogogqlproto/helper.go:35-48 | "Dessert" becomes "dessert" |
| Naming.SnakeAcronym | gogogqlproto/helper.go:35-48 | "HTTPServer" becomes "http_server": in an acronym run the break comes before the last capital |
| Naming.TypeVarName | gogogqlproto/helper.go:31-33 | the variable name is "GraphQL", then the type name, then "Type" |
| Naming.TypeVarNameInjective | gogogqlproto/helper.go:31-33 | distinct type names give distinct variable names |
| Timestamps.Ts.Validate | opseeproto/types/timestamp.go:18-32 | no error exactly in the documented range; otherwise the first failing check in order: seconds too small, seconds too large, nanos outside [0, 1e9) |
| Timestamps.Ts.Millis | opseeproto/types/timestamp.go:56-59 | the result equals seconds*1000 + nanos/1e6 modulo 2^64 with truncating division; for a valid timestamp it is exact and lies within [seconds*1000, seconds*1000+999] |
| Timestamps.MillisMonotone | opseeproto/types/timestamp.go:56-59 | on valid timestamps, Millis preserves order |
| Timestamps.Timestamp.Scan | opseeproto/types/timestamp.go:34-50 | an `int`, `int32` or `int64` replaces the seconds and other types leave them; nanos never change; the error is the validation of the new value |
| Timestamps.Timestamp.ValueError | opseeproto/types/timestamp.go:52-54 | Value fails exactly when the current value is out of range |
| Permissions.PermissionsError | opseeproto/types/permissions.go:157-159 | the error is tagged "PermissionsError" and its message is "Not authorized: " followed by the name |
| Permissions.PermissionsBitmap.Get | opseeproto/types/permissions.go:24-29 | the registered name and true, or "" and false for an unregistered index |
| Permissions.PermissionsBitmap.Length | opseeproto/types/permissions.go:31-35 | the number of registered indices |
| Permissions.PermissionsBitmap.Register | opseeproto/types/permissions.go:37-41 | the index now reads as the new name, every other index reads as before, and the count grows only for a new index |
| Permissions.Permission.Set | opseeproto/types/permissions.go:58-60 | the bitmap becomes `perm \| 1 << i` and the name is unchanged |
| Permissions.Permission.Clear | opseeproto/types/permissions.go:62-65 | the bitmap becomes `perm &^ 1 << i` and the name is unchanged |
| Permissions.Permission.Test | opseeproto/types/permissions.go:67-70 | true exactly when 0 <= i < 64 and bit i of the bitmap is set |
| Permissions.Permission.HighBits | opseeproto/types/permissions.go:73-81 | exactly the set bit indices, in strictly ascending order |
| Permissions.BitsBelow | opseeproto/types/permissions.go:73-81 | at most n indices, each below n and each a set bit |
| Permissions.BitsBelowSpec | opseeproto/types/permissions.go:73-81 | the scan up to n lists exactly the set bits below n, ascending |
| Permissions.Lookup | opseeproto/types/permissions.go:84-96 | at most one name per index, each a registered name |
| Permissions.Permission.Granted | opseeproto/types/permissions.go:84-96 | nothing for an unregistered type; otherwise at most 64 names, each registered for this type |
| Permissions.LookupSpec | opseeproto/types/permissions.go:84-96 | every registered set bit contributes its name, and every listed name comes from a registered set bit |
| Permissions.Permission.Permissions | opseeproto/types/permissions.go:84-96 | nothing for an unregistered type; otherwise the registered names of the set bits in bit order |
| Permissions.Permission.HasPermissions | opseeproto/types/permissions.go:99-114 | one entry per requested name, true exactly when the permission grants that name |
| Permissions.Permission.CheckPermissions | opseeproto/types/permissions.go:117-127 | one entry per requested name: no error when granted, "Not authorized: <name>" otherwise |
| Permissions.Permission.Scan | opseeproto/types/permissions.go:134-147 | an `int`, `int32` or `int64` becomes the bitmap through `uint64(v)`; any other type is an error and changes nothing |
| Permissions.Permission.Value | opseeproto/types/permissions.go:149-155 | the stored `int64` converts back to the bitmap, and is negative exactly when bit 63 is set |
| Permissions.SetClearExamples | opseeproto/types/permissions_test.go:64-94 | setting bit 0 or bit 63 of 0 gives 1 or 2^63, and clearing bit 63 of 2^63 or bit 3 of 8 gives 0 |
| Permissions.TestExamples | opseeproto/types/permissions_test.go:95-115 | bit 3 of 0xf is set, bit 4 of 0 is not, and bit 0 of 0xfe is not |
| Permissions.HighBitsExample | opseeproto/types/permissions_test.go:127-141 | the set bits of 0x3 are [0, 1] |
| Permissions.ClearOwnBit | opseeproto/types/permissions.go:62-65 | clearing the only set bit leaves 0 |
| Scalars.CoerceString | plugin/graphql/scalars/scalars.go:14-22 | strings pass through, byte slices become the string of the same bytes, and anything else is formatted |
| Scalars.CoerceInt | plugin/graphql/scalars/scalars.go:38-97 | bools and narrow integers pass through; `int` passes as is; `uint` wraps to `int64` (`Wrap64`, congruent modulo 2^64 and within the `int64` range); `int64`, `uint32` and `uint64` pass only within the 32-bit range; a Timestamp gives its milliseconds; anything else gives nothing |
| Scalars.CoerceIntFits | plugin/graphql/scalars/scalars.go:45-73 | every range-checked or narrow result fits GraphQL's 32-bit Int |
| Scalars.CoerceAny | plugin/graphql/scalars/scalars.go:115-122 | the payload of an Any message, and nothing for any other value |
| Scalars.StringParseLiteral | plugin/graphql/scalars/scalars.go:25-36 | the text of a string literal, and nothing for any other literal |
| Scalars.Atoi | plugin/graphql/scalars/scalars.go:100-113 | accepts exactly an optional sign followed by one or more decimal digits whose value fits `int64`, and returns that value |
| Scalars.TimestampParseLiteral | plugin/graphql/scalars/scalars.go:100-113 | an integer literal parses as Atoi does, and every other literal gives nothing |
| Scalars.AtoiFormatInt | plugin/graphql/scalars/scalars.go:100-113 | every `int64` written in decimal parses back to itself |
| GraphQLTypes.MessageType | plugin/graphql/graphql.go:220-232 | an unknown type name is an error; otherwise the result is a named type |
| GraphQLTypes.MessageTypeCases | plugin/graphql/graphql.go:220-232 | from another package, "Timestamp" gives the Timestamp scalar and anything else gives ByteString; from the same package, the object variable of the type |
| GraphQLTypes.KindMapping | plugin/graphql/graphql.go:203-236 | floats map to Float, the ten integer kinds to Int, bool to Boolean, string to String and bytes to ByteString; group, enum and unknown kinds are errors and are never mapped |
| GraphQLTypes.GraphQLType | plugin/graphql/graphql.go:201-248 | the kind's named type, wrapped in List when repeated and in NonNull when required; any kind error is passed on |
| GraphQLTypes.UnwrapWrap | plugin/graphql/graphql.go:239-247 | the wrapping keeps the named type and both label flags recoverable |
| GraphQLTypes.WrapCases | plugin/graphql/graphql.go:239-247 | List goes inside NonNull, and neither applies without its label |
| GraphQLTypes.Uint32Rejected | plugin/graphql/graphql.go:207-211 | as written, a `uint32` field stops generation, while the corrected mapping gives Int |
| GraphQLTypes.KindType | plugin/graphql/graphql.go:203-236 | the corrected kind switch: any success is a named type, and the "unknown proto field type" stop happens exactly for unknown kinds |
| GraphQLTypes.KindTypeAsWritten | plugin/graphql/graphql.go:203-236 | the kind switch as written: any success is a named type, and the "unknown proto field type" stop happens exactly for unknown kinds and for `uint32` |
| GraphQLTypes.GraphQLTypeAsWritten | plugin/graphql/graphql.go:201-248 | `graphQLType` as written: the as-written named type with the label modifiers, or the as-written kind error |
| GraphQLTypes.AsWrittenAgrees | plugin/graphql/graphql.go:203-236 | the written and corrected mappings agree on every kind except `uint32` |
| GraphQLGenerate.SelectedMembers | plugin/graphql/graphql.go:56-65 | the selection holds exactly the messages that are neither map entries nor empty |
| GraphQLGenerate.SelectedAppend | plugin/graphql/graphql.go:56-65 | the selection keeps file order |
| GraphQLGenerate.OneofFields | plugin/graphql/graphql.go:250-260 | the group holds exactly the fields whose oneof index is the group's, in declaration order |
| GraphQLGenerate.MembersOfSpec | plugin/graphql/graphql.go:250-260 | a field is a member exactly when it is in the message and in the group |
| GraphQLGenerate.MembersOfAppend | plugin/graphql/graphql.go:250-260 | members keep declaration order |
| GraphQLGenerate.OneofsOfSpec | plugin/graphql/graphql.go:56-76 | one group per oneof declaration of every kept message, keyed by the two positions, holding that declaration's members |
| GraphQLGenerate.GraphQLGenerator.Collect | plugin/graphql/graphql.go:56-76 | the kept messages in order, and the groups of exactly those messages |
| GraphQLGenerate.GraphQLGenerator.Generate | plugin/graphql/graphql.go:43-199 | no output for a file without the GraphQL option; otherwise the collected state and the schema built from it |
| GraphQLGenerate.BuildSchema | plugin/graphql/graphql.go:78-199 | a schema has one object per kept message, with its type variable, and one union per collected group; an unresolved-members error names at least one type, and only types that resolve to nothing |
| GraphQLGenerate.ObjectFor | plugin/graphql/graphql.go:88-161 | an object is named by the snake case of the joined name path and held in the type variable of the Go name; it has the ordinary fields first, then one field per oneof declaration |
| GraphQLGenerate.UnionFor | plugin/graphql/graphql.go:164-195 | the union variable is "GraphQL" + name + "Union"; it has one member and one switch arm per group member, arm i carrying the wrapper of member i and resolving to member i's object |
| GraphQLGenerate.ResolveField | plugin/graphql/graphql.go:108-129 | the resolver succeeds exactly for the declaring type or an accepted wrapper, reads the named Go field, reads it through the payload only for a wrapper, and otherwise reports "field <name> not resolved" |
| GraphQLGenerate.ResolveOneof | plugin/graphql/graphql.go:140-149 | the resolver succeeds exactly for the declaring type, with the group's getter, and otherwise reports "field <name> not resolved" |
| GraphQLGenerate.ResolveType | plugin/graphql/graphql.go:179-192 | nothing exactly when no arm carries the value's type; otherwise the object of an arm that carries it |
| GraphQLGenerate.UnionName | plugin/graphql/graphql.go:266-268 | the message's CamelCase name followed by the group's |
| GraphQLGenerate.UnionVarName | plugin/graphql/graphql.go:270-272 | "GraphQL", then the union name, then "Union" |
| GraphQLGenerate.WrapperName | plugin/graphql/graphql.go:184 | the outer message's name, '_', then the member type's name |
| GraphQLGenerate.BuildSchemaSucceeds | plugin/graphql/graphql.go:96-195 | generation succeeds exactly when every ordinary field of a kept message has a type and every oneof member's type resolves |
| GraphQLGenerate.FirstPlainError | plugin/graphql/graphql.go:96-132 | the error reported is the first ordinary field's, in message order |
| GraphQLGenerate.TypeErrorNone | plugin/graphql/graphql.go:96-132 | no type error exactly when every ordinary field has a type |
| GraphQLGenerate.FieldsErrorNone | plugin/graphql/graphql.go:96-132 | within one message, no error exactly when all the fields have a type |
| GraphQLGenerate.PlainFieldsSpec | plugin/graphql/graphql.go:96-100 | the ordinary fields are exactly those outside every oneof group |
| GraphQLGenerate.SchemaObjects | plugin/graphql/graphql.go:78-95 | one object per kept message, in order, named by the snake case of its name path joined with '_' |
| GraphQLGenerate.ObjectLayout | plugin/graphql/graphql.go:96-154 | an object lists its ordinary fields in order, then one union-typed field per oneof declaration |
| GraphQLGenerate.FieldDispatch | plugin/graphql/graphql.go:105-132 | a field resolver reads the source's own field when handed the message itself, reads the payload field when handed the oneof wrapper that carries the message, and otherwise reports "field <name> not resolved" |
| GraphQLGenerate.OneofDispatch | plugin/graphql/graphql.go:133-154 | a oneof field resolver accepts only the declaring type and calls the group's getter |
| GraphQLGenerate.NotResolved | plugin/graphql/graphql.go:127-129 | the message is "field ", then the field name, then " not resolved" |
| GraphQLGenerate.UnionDispatch | plugin/graphql/graphql.go:164-195 | a union resolves each member's wrapper to that member's object, and resolves any other value to nothing |
| GraphQLGenerate.ResolveTypeFirst | plugin/graphql/graphql.go:180-192 | the type switch takes the first case naming the value's type |
| GraphQLGenerate.ResolveTypeNone | plugin/graphql/graphql.go:180-192 | no case, no type |
| GraphQLGenerate.MemberTypes | plugin/graphql/graphql.go:174-176 | one entry per group member, entry i being the Go type name of member i's resolved object |
| GraphQLGenerate.WrapperInjective | plugin/graphql/graphql.go:262-272 | wrapper names of one message are equal only for the same member type |
| Bitflags.BitflagMessages | plugin/bitflags/bitflags.go:34-38 | at most the file's messages, each carrying the bitflags option |
| Bitflags.BitflagMessagesMembers | plugin/bitflags/bitflags.go:34-38 | exactly the messages carrying the bitflags option receive the methods |
| Bitflags.BitflagsPlugin.Generate | plugin/bitflags/bitflags.go:30-38 | the plugin's list is reset and then holds the messages with the option, in file order |
| Bitflags.FlagNamesLower | plugin/bitflags/bitflags.go:253-266 | flag names are free of capitals and are their own snake case |
| Bitflags.FlagSet.constructor | plugin/bitflags/bitflags.go:63-68 | a fresh struct has one false flag per field, named by the snake case of the Go field name |
| Bitflags.FlagSet.UInt64 | plugin/bitflags/bitflags.go:43-57 | the loop of `b \|= 1 << i` over the true fields yields `Pack(fields)` |
| Bitflags.Pack | plugin/bitflags/bitflags.go:43-57 | a struct with no true field packs to 0; PackBits gives every bit |
| Bitflags.PackBits | plugin/bitflags/bitflags.go:43-57 | bit i of UInt64 is set exactly when field i exists, is true and i < 64 |
| Bitflags.Unpack | plugin/bitflags/bitflags.go:207-225 | one field per flag, field i being the test of bit i |
| Bitflags.FlagSet.FromUInt64 | plugin/bitflags/bitflags.go:207-225 | field i becomes whether bit i of b is set, and no error is returned |
| Bitflags.UnpackPack | plugin/bitflags/bitflags.go:43-225 | `FromUInt64(UInt64())` keeps the first 64 fields and clears any beyond; with at most 64 fields it restores them all |
| Bitflags.PackUnpack | plugin/bitflags/bitflags.go:43-225 | `UInt64()` after `FromUInt64(b)` gives b back when b fits the number of fields |
| Bitflags.FlagSet.HighFlags | plugin/bitflags/bitflags.go:59-73 | the names of the true fields, in field order |
| Bitflags.FlagSet.LowFlags | plugin/bitflags/bitflags.go:75-91 | the names of the false fields, in field order |
| Bitflags.Pick | plugin/bitflags/bitflags.go:59-91 | at most one name per field, each a flag name; PickMembers and PickPartition give the rest |
| Bitflags.PickMembers | plugin/bitflags/bitflags.go:59-91 | a name is listed exactly when a field of that name has the listed value |
| Bitflags.PickPartition | plugin/bitflags/bitflags.go:59-91 | HighFlags and LowFlags together hold each flag name once per field |
| Bitflags.IndexOf | plugin/bitflags/bitflags.go:94-112 | the case a `switch` on the flag selects: the first field of that name, or none when no field has it |
| Bitflags.Flag | plugin/bitflags/bitflags.go:172-190 | the selected field's value, and false for an unknown name |
| Bitflags.Assign | plugin/bitflags/bitflags.go:94-133 | only the selected field takes the new value, and an unknown name changes nothing |
| Bitflags.AssignFlag | plugin/bitflags/bitflags.go:94-190 | after SetFlag (ClearFlag), testing that flag gives true (false) and every other name tests as before |
| Bitflags.FlagSet.SetFlag | plugin/bitflags/bitflags.go:94-112 | the named field becomes true and there is no error; an unknown name gives "invalid flag" and changes nothing |
| Bitflags.FlagSet.ClearFlag | plugin/bitflags/bitflags.go:115-133 | the named field becomes false and there is no error; an unknown name gives "invalid flag" and changes nothing |
| Bitflags.FlagSet.SetFlags | plugin/bitflags/bitflags.go:137-152 | SetFlag applied to each flag in order, and one error per unknown flag in input order |
| Bitflags.FlagSet.ClearFlags | plugin/bitflags/bitflags.go:154-169 | ClearFlag applied to each flag in order, and one error per unknown flag in input order |
| Bitflags.AssignAll | plugin/bitflags/bitflags.go:137-169 | one field per flag, each either unchanged or set to the assigned value |
| Bitflags.AssignAllFlag | plugin/bitflags/bitflags.go:137-169 | after SetFlags (ClearFlags), every known listed flag tests true (false) and every other name tests as before |
| Bitflags.Unknown | plugin/bitflags/bitflags.go:137-169 | at most one error per listed flag, each naming a flag that is not a field name |
| Bitflags.UnknownMembers | plugin/bitflags/bitflags.go:137-169 | the errors name exactly the unknown flags, and there are none when every flag is known |
| Bitflags.FlagSet.TestFlag | plugin/bitflags/bitflags.go:172-190 | the named field, and false for an unknown name |
| Bitflags.FlagSet.TestFlags | plugin/bitflags/bitflags.go:192-203 | true exactly when every listed flag tests true, so true for an empty list |
| Bitflags.FlagSet.Scan | plugin/bitflags/bitflags.go:228-241 | an `int`, `int32` or `int64` is unpacked through `uint64(v)`; any other type gives an invalid-type error and changes nothing |
| Bitflags.FlagSet.Value | plugin/bitflags/bitflags.go:245-248 | the stored `int64` converts back to `UInt64()`, and is negative exactly when flag 63 exists and is set |
| Bitflags.ValueScanRoundTrip | plugin/bitflags/bitflags.go:228-248 | scanning the value Value stores restores every field of a struct with at most 64 flags |

## Left out

- Floating point is not represented, for these branches:
  - `coerceInt` on `float32`/`float64` and on strings parsed with `ParseFloat` (plugin/graphql/scalars/scalars.go:74-89);
  - the `float32`/`float64` cases of the bitflags `Scan`.

  `DOther` stands for the other, non-numeric, database types.
- GraphQLGenerate.BuildSchema: generation types ordinary fields with the corrected kind switch (`GraphQLTypes.GraphQLType`), so a kept message with a `uint32` field gets an Int field where the Go code as written panics; `GraphQLGenerate.GraphQLGenerator.Generate` and `GraphQLGenerate.BuildSchemaSucceeds` state the corrected behaviour (see Findings).
- Go's `int` is taken to be 64 bits wide, both for the `int` database value (`GoTypes.DriverValue.DInt`) and for `Scalars.GoInt`. A 32-bit platform is not modelled.
- Scalars.CoerceInt: requires the value not to be a string, because the string branch parses a float.
- The `%v` formatting in `coerceString` is left as the uninterpreted `Printed(v)`.
- `time.Time` values in the Timestamp scalar and the timestamp scanner are not modelled; only the integer cases are.
- Code emission is left out: the text of generated Go, comments, imports and `p.P` calls. The model computes what the generated code does (the schema, the `FlagSet` methods), not its text.
- `generator.CamelCase`, `GetFieldName` and the `ObjectNamed` lookup across loaded files are taken as given. They appear as descriptor data (`goName`) and as an `objects` map parameter.
- `opseeproto.IsBitflags` and the GraphQL file option are not part of this model. Their answers are the descriptor flags `bitflags` and `graphqlFile`.
- Go map iteration order is not modelled. The unions are a map keyed by group, and unresolved oneof member names are reported as a set.
- Generation stops at the first failure (a panic or `os.Exit`) rather than collecting every error. `BuildSchema` returns that first error only.
- A oneof member that is not a message has an empty type name. The `ObjectNamed` lookup of "" then fails, so the model reports it as an unresolved type.
- The `"Timestamp"` check in `graphQLType` compares the raw type name literally, as written.
- The permission name registry is a global map in Go. Here it is a parameter of the methods that read it.
- Mutexes, `MarshalJSON`, `opseeproto/types/any.go` and `coerceError` are not modelled. Neither are nil pointers and nil payloads.
- Letters are classified as ASCII. `unicode.IsUpper`, `IsLower` and `ToLower` on other scripts are not modelled.
- The `int32` conversion of a oneof index is taken as exact, since descriptor indices are small.
- The bitflags `Error()` texts are the constructors `InvalidFlag(flag)` and `InvalidType`. The `%T` rendering of the scanned type is not modelled.

## Findings

| source | as written | input that shows it | evidently intended | confidence | as-written member | corrected member |
|---|---|---|---|---|---|---|
| plugin/graphql/graphql.go:207-211 | the integer case of `graphQLType` lists int32, int64, uint64, sint32, sint64, fixed32, fixed64, sfixed32 and sfixed64 but not uint32, so a `uint32` field falls to the default and generation panics with "unknown proto field type" | any message with a field of type `uint32` | `uint32` maps to GraphQL Int like every other integer kind | not executed | GraphQLTypes.GraphQLTypeAsWritten (shown by GraphQLTypes.Uint32Rejected) | GraphQLTypes.GraphQLType (GraphQLTypes.Uint32Rejected, GraphQLTypes.AsWrittenAgrees) |
