/**
 * What the GraphQL plugin generates for one .proto file: which messages
 * become object types, how oneof groups are collected, the fields of each
 * object, how the generated field resolvers dispatch on the source value,
 * and how a union's ResolveType picks a member. The decisions are modelled;
 * the printed Go text is not.
 */
module GraphQLGenerate {
  import opened Wrappers
  import opened Naming
  import opened Descriptors
  import opened GraphQLTypes

  // ---------------------------------------------------------------------
  // Message selection

  /** Map entries and messages without fields get no object type. */
  predicate Kept(m: MessageDescriptor)
  {
    !m.mapEntry && |m.fields| > 0
  }

  /** The messages that get an object type, in file order. */
  function Selected(ms: seq<MessageDescriptor>): seq<MessageDescriptor>
  {
    if ms == [] then []
    else Selected(ms[..|ms| - 1]) + (if Kept(ms[|ms| - 1]) then [ms[|ms| - 1]] else [])
  }

  /** Selected keeps exactly the messages that are neither map entries nor empty. */
  lemma {:induction false} SelectedMembers(ms: seq<MessageDescriptor>)
    ensures forall m :: m in Selected(ms) <==> m in ms && Kept(m)
    ensures |Selected(ms)| <= |ms|
  {
    if ms != [] {
      SelectedMembers(ms[..|ms| - 1]);
      assert ms == ms[..|ms| - 1] + [ms[|ms| - 1]];
    }
  }

  /** Selected keeps file order: selecting from a concatenation concatenates the selections. */
  lemma {:induction false} SelectedAppend(a: seq<MessageDescriptor>, b: seq<MessageDescriptor>)
    ensures Selected(a + b) == Selected(a) + Selected(b)
  {
    if b == [] {
      assert a + b == a;
    } else {
      var c := b[..|b| - 1];
      SelectedAppend(a, c);
      assert (a + b)[..|a + b| - 1] == a + c;
    }
  }

  // ---------------------------------------------------------------------
  // Oneof groups

  /** Identifies a oneof group by its message's position in the file and its own position in the message. */
  datatype OneofKey = OneofKey(messageIndex: int, oneofIndex: int)

  /** A collected oneof group: its message, its member fields, and the two positions. */
  datatype Oneof = Oneof(message: MessageDescriptor, fields: seq<FieldDescriptor>, messageIndex: int, oneofIndex: int)

  /** Whether field f is a member of oneof group i. */
  predicate InGroup(f: FieldDescriptor, i: int)
  {
    f.oneofIndex.Some? && f.oneofIndex.value == i
  }

  /** The members of oneof group i, in field order. */
  function MembersOf(fields: seq<FieldDescriptor>, i: int): seq<FieldDescriptor>
  {
    if fields == [] then []
    else MembersOf(fields[..|fields| - 1], i) + (if InGroup(fields[|fields| - 1], i) then [fields[|fields| - 1]] else [])
  }

  /** MembersOf keeps exactly the fields of group i. */
  lemma {:induction false} MembersOfSpec(fields: seq<FieldDescriptor>, i: int)
    ensures forall f :: f in MembersOf(fields, i) <==> f in fields && InGroup(f, i)
  {
    if fields != [] {
      MembersOfSpec(fields[..|fields| - 1], i);
      assert fields == fields[..|fields| - 1] + [fields[|fields| - 1]];
    }
  }

  /** MembersOf keeps declaration order. */
  lemma {:induction false} MembersOfAppend(a: seq<FieldDescriptor>, b: seq<FieldDescriptor>, i: int)
    ensures MembersOf(a + b, i) == MembersOf(a, i) + MembersOf(b, i)
  {
    if b == [] {
      assert a + b == a;
    } else {
      var c := b[..|b| - 1];
      MembersOfAppend(a, c, i);
      assert (a + b)[..|a + b| - 1] == a + c;
    }
  }

  /** The oneofFields loop: the fields whose oneof index is the group's, in order. */
  method OneofFields(message: MessageDescriptor, messageIndex: int, oneofIndex: int) returns (o: Oneof)
    ensures o == Oneof(message, MembersOf(message.fields, oneofIndex), messageIndex, oneofIndex)
    ensures forall f :: f in o.fields <==> f in message.fields && InGroup(f, oneofIndex)
  {
    var fields: seq<FieldDescriptor> := [];
    var k := 0;
    while k < |message.fields|
      invariant 0 <= k <= |message.fields|
      invariant fields == MembersOf(message.fields[..k], oneofIndex)
    {
      assert message.fields[..k + 1][..k] == message.fields[..k];
      var field := message.fields[k];
      if field.oneofIndex.Some? && field.oneofIndex.value == oneofIndex {
        fields := fields + [field];
      }
      k := k + 1;
    }
    assert message.fields[..k] == message.fields;
    MembersOfSpec(message.fields, oneofIndex);
    o := Oneof(message, fields, messageIndex, oneofIndex);
  }

  /** The groups 0..j-1 of the message at position mi. */
  function DeclOneofs(m: MessageDescriptor, mi: int, j: nat): map<OneofKey, Oneof>
    requires j <= |m.oneofDecls|
  {
    if j == 0 then map[]
    else DeclOneofs(m, mi, j - 1)[OneofKey(mi, j - 1) := Oneof(m, MembersOf(m.fields, j - 1), mi, j - 1)]
  }

  /** Adding group j to the groups before it gives the groups up to j. */
  lemma DeclOneofsStep(base: map<OneofKey, Oneof>, m: MessageDescriptor, mi: int, j: nat)
    requires j < |m.oneofDecls|
    ensures (base + DeclOneofs(m, mi, j))[OneofKey(mi, j) := Oneof(m, MembersOf(m.fields, j), mi, j)]
      == base + DeclOneofs(m, mi, j + 1)
  {
  }

  /** The groups of the kept messages among the first n of the file. */
  function OneofsOf(ms: seq<MessageDescriptor>, n: nat): map<OneofKey, Oneof>
    requires n <= |ms|
  {
    if n == 0 then map[]
    else OneofsOf(ms, n - 1) + (if Kept(ms[n - 1]) then DeclOneofs(ms[n - 1], n - 1, |ms[n - 1].oneofDecls|) else map[])
  }

  lemma {:induction false} DeclOneofsSpec(m: MessageDescriptor, mi: int, j: nat)
    requires j <= |m.oneofDecls|
    ensures forall k :: k in DeclOneofs(m, mi, j) <==> k.messageIndex == mi && 0 <= k.oneofIndex < j
    ensures forall k :: k in DeclOneofs(m, mi, j) ==>
      DeclOneofs(m, mi, j)[k] == Oneof(m, MembersOf(m.fields, k.oneofIndex), mi, k.oneofIndex)
  {
    if j > 0 {
      DeclOneofsSpec(m, mi, j - 1);
    }
  }

  /**
   * One group per oneof declaration of every kept message, keyed by the
   * message's position in the file and the declaration's position, holding
   * that declaration's members.
   */
  lemma {:induction false} OneofsOfSpec(ms: seq<MessageDescriptor>, n: nat)
    requires n <= |ms|
    ensures forall k :: k in OneofsOf(ms, n) <==>
      0 <= k.messageIndex < n && Kept(ms[k.messageIndex]) && 0 <= k.oneofIndex < |ms[k.messageIndex].oneofDecls|
    ensures forall k :: k in OneofsOf(ms, n) ==>
      OneofsOf(ms, n)[k] == Oneof(ms[k.messageIndex], MembersOf(ms[k.messageIndex].fields, k.oneofIndex), k.messageIndex, k.oneofIndex)
  {
    if n > 0 {
      OneofsOfSpec(ms, n - 1);
      DeclOneofsSpec(ms[n - 1], n - 1, |ms[n - 1].oneofDecls|);
    }
  }

  /** Every collected group names one of its message's declarations. */
  predicate ValidOneofs(oneofs: map<OneofKey, Oneof>)
  {
    forall k :: k in oneofs ==> 0 <= oneofs[k].oneofIndex < |oneofs[k].message.oneofDecls|
  }

  // ---------------------------------------------------------------------
  // The generated schema

  /** Where a field resolver reads the value: the source's own field, or the field of the payload a oneof wrapper carries. */
  datatype Access = OwnField(goField: string) | PayloadField(payload: string, goField: string)

  /**
   * The resolver of an ordinary field: it accepts a source of the declaring
   * Go type, and a oneof wrapper whose payload has the declaring type.
   */
  datatype FieldResolver = FieldResolver(fieldName: string, goField: string, selfType: string, wrappers: set<string>)

  /** The resolver of a oneof field: it accepts only the declaring Go type and calls the group's getter. */
  datatype OneofResolver = OneofResolver(fieldName: string, selfType: string, getter: string)

  /** An object field: an ordinary field with its type, or a oneof group typed as its union. */
  datatype SchemaField =
    | PlainField(name: string, typ: OutType, resolver: FieldResolver)
    | UnionField(name: string, unionVar: string, oneofResolver: OneofResolver)

  datatype ObjectType = ObjectType(name: string, varName: string, fields: seq<SchemaField>)

  /** One arm of a union's type switch: a oneof wrapper type and the object it resolves to. */
  datatype UnionCase = UnionCase(wrapper: string, objectVar: string)

  datatype UnionType = UnionType(name: string, varName: string, members: seq<string>, cases: seq<UnionCase>)

  /** The objects in message order, and one union per collected oneof group. */
  datatype Schema = Schema(objects: seq<ObjectType>, unions: map<OneofKey, UnionType>)

  /** The error a resolver reports for a source it does not recognise. */
  function NotResolved(fieldName: string): (e: string)
    ensures |e| == |fieldName| + 19
    ensures e[..6] == "field " && e[|e| - 13..] == " not resolved" && e[6..|e| - 13] == fieldName
  {
    "field " + fieldName + " not resolved"
  }

  /** The generated field resolver, given the Go type of the source value. */
  function ResolveField(r: FieldResolver, src: string): (a: Result<Access, string>)
    ensures a.Success? <==> src == r.selfType || src in r.wrappers
    ensures a.Success? ==> a.value.goField == r.goField && (a.value.OwnField? <==> src == r.selfType)
    ensures a.Success? && a.value.PayloadField? ==> a.value.payload == r.selfType
    ensures a.Failure? ==> a.error == NotResolved(r.fieldName)
  {
    if src == r.selfType then Success(OwnField(r.goField))
    else if src in r.wrappers then Success(PayloadField(r.selfType, r.goField))
    else Failure(NotResolved(r.fieldName))
  }

  /** The generated oneof-field resolver: the getter to call, given the Go type of the source value. */
  function ResolveOneof(r: OneofResolver, src: string): (a: Result<string, string>)
    ensures a.Success? <==> src == r.selfType
    ensures a.Success? ==> a.value == r.getter
    ensures a.Failure? ==> a.error == NotResolved(r.fieldName)
  {
    if src == r.selfType then Success(r.getter) else Failure(NotResolved(r.fieldName))
  }

  /** The union's ResolveType: the object of the first case whose wrapper is the value's type, and nothing otherwise. */
  function ResolveType(cases: seq<UnionCase>, src: string): (r: Option<string>)
    ensures r.None? <==> forall i :: 0 <= i < |cases| ==> cases[i].wrapper != src
    ensures r.Some? ==> exists i :: 0 <= i < |cases| && cases[i].wrapper == src && cases[i].objectVar == r.value
  {
    if cases == [] then None
    else if cases[0].wrapper == src then Some(cases[0].objectVar)
    else
      var r := ResolveType(cases[1..], src);
      assert forall i :: 1 <= i < |cases| ==> cases[i] == cases[1..][i - 1];
      r
  }

  /** The union's name: the message's CamelCase name followed by the group's. */
  function UnionName(m: MessageDescriptor, d: OneofDecl): (n: string)
    ensures |n| == |m.goName| + |d.goName|
    ensures n[..|m.goName|] == m.goName && n[|m.goName|..] == d.goName
  {
    m.goName + d.goName
  }

  /** The Go variable holding the union. */
  function UnionVarName(m: MessageDescriptor, d: OneofDecl): (v: string)
    ensures |v| == |UnionName(m, d)| + 12
    ensures v[..7] == "GraphQL" && v[7..|v| - 5] == UnionName(m, d) && v[|v| - 5..] == "Union"
  {
    "GraphQL" + UnionName(m, d) + "Union"
  }

  /** The Go wrapper type for a oneof member of type tname in message outer. */
  function WrapperName(outer: string, tname: string): (w: string)
    ensures |w| == |outer| + 1 + |tname|
    ensures w[..|outer|] == outer && w[|outer|] == '_' && w[|outer| + 1..] == tname
  {
    outer + "_" + tname
  }

  /** The fields outside every oneof group, in order. */
  function PlainFields(fields: seq<FieldDescriptor>): seq<FieldDescriptor>
  {
    if fields == [] then []
    else PlainFields(fields[..|fields| - 1]) + (if fields[|fields| - 1].oneofIndex.None? then [fields[|fields| - 1]] else [])
  }

  lemma {:induction false} PlainFieldsSpec(fields: seq<FieldDescriptor>)
    ensures forall f :: f in PlainFields(fields) <==> f in fields && f.oneofIndex.None?
  {
    if fields != [] {
      PlainFieldsSpec(fields[..|fields| - 1]);
      assert fields == fields[..|fields| - 1] + [fields[|fields| - 1]];
    }
  }

  /**
   * The wrapper types the resolvers of a message's fields accept: for every
   * collected group member whose type resolves to the message's Go type,
   * the wrapper of that member in its own message.
   */
  function WrappersFor(selfType: string, oneofs: map<OneofKey, Oneof>, objects: map<string, GoObject>): set<string>
  {
    set k, f | k in oneofs && f in oneofs[k].fields && f.typeName in objects && objects[f.typeName].goName == selfType
      :: WrapperName(oneofs[k].message.goName, selfType)
  }

  /** Whether every field in fields has a GraphQL type. */
  predicate TypesOk(m: MessageDescriptor, fields: seq<FieldDescriptor>, objects: map<string, GoObject>)
  {
    forall i :: 0 <= i < |fields| ==> GraphQLType(m, fields[i], objects).Success?
  }

  /** The object field for an ordinary field. */
  function PlainEntry(m: MessageDescriptor, f: FieldDescriptor, oneofs: map<OneofKey, Oneof>, objects: map<string, GoObject>)
    : SchemaField
    requires GraphQLType(m, f, objects).Success?
  {
    PlainField(f.name, GraphQLType(m, f, objects).value,
      FieldResolver(f.name, f.goName, m.goName, WrappersFor(m.goName, oneofs, objects)))
  }

  /** The object field for a oneof declaration. */
  function UnionEntry(m: MessageDescriptor, d: OneofDecl): SchemaField
  {
    UnionField(d.name, UnionVarName(m, d), OneofResolver(d.name, m.goName, "Get" + d.goName))
  }

  /** The object type of a kept message: its ordinary fields in order, then one field per oneof declaration. */
  function ObjectFor(m: MessageDescriptor, oneofs: map<OneofKey, Oneof>, objects: map<string, GoObject>): (o: ObjectType)
    requires TypesOk(m, PlainFields(m.fields), objects)
    ensures o.name == Snake(Join(m.typeName, "_")) && o.varName == TypeVarName(m.goName)
    ensures |o.fields| == |PlainFields(m.fields)| + |m.oneofDecls|
    ensures forall i :: 0 <= i < |o.fields| ==> (o.fields[i].PlainField? <==> i < |PlainFields(m.fields)|)
  {
    var plain := PlainFields(m.fields);
    ObjectType(
      Snake(Join(m.typeName, "_")),
      TypeVarName(m.goName),
      seq(|plain|, i requires 0 <= i < |plain| => PlainEntry(m, plain[i], oneofs, objects))
      + seq(|m.oneofDecls|, j requires 0 <= j < |m.oneofDecls| => UnionEntry(m, m.oneofDecls[j])))
  }

  /** Whether every member of every collected group resolves to a Go type. */
  predicate MembersResolved(oneofs: map<OneofKey, Oneof>, objects: map<string, GoObject>)
  {
    forall k, f :: k in oneofs && f in oneofs[k].fields ==> f.typeName in objects
  }

  /** The member type names that resolve to nothing. */
  function Unresolved(oneofs: map<OneofKey, Oneof>, objects: map<string, GoObject>): set<string>
  {
    set k, f | k in oneofs && f in oneofs[k].fields && f.typeName !in objects :: f.typeName
  }

  /** The Go type names of a group's members, in member order. */
  function MemberTypes(o: Oneof, objects: map<string, GoObject>): (ts: seq<string>)
    requires forall f :: f in o.fields ==> f.typeName in objects
    ensures |ts| == |o.fields|
    ensures forall i :: 0 <= i < |ts| ==> ts[i] == objects[o.fields[i].typeName].goName
  {
    seq(|o.fields|, i requires 0 <= i < |o.fields| => objects[o.fields[i].typeName].goName)
  }

  /** The union of a group: its members' objects in member order, and one type-switch arm per member. */
  function UnionFor(o: Oneof, objects: map<string, GoObject>): (u: UnionType)
    requires forall f :: f in o.fields ==> f.typeName in objects
    requires 0 <= o.oneofIndex < |o.message.oneofDecls|
    ensures u.varName == "GraphQL" + u.name + "Union"
    ensures |u.members| == |u.cases| == |o.fields|
    ensures forall i :: 0 <= i < |u.cases| ==>
      u.cases[i].objectVar == u.members[i]
      && u.cases[i].wrapper == WrapperName(o.message.goName, objects[o.fields[i].typeName].goName)
  {
    var d := o.message.oneofDecls[o.oneofIndex];
    var ts := MemberTypes(o, objects);
    UnionType(
      UnionName(o.message, d),
      UnionVarName(o.message, d),
      seq(|ts|, i requires 0 <= i < |ts| => TypeVarName(ts[i])),
      seq(|ts|, i requires 0 <= i < |ts| => UnionCase(WrapperName(o.message.goName, ts[i]), TypeVarName(ts[i]))))
  }

  /** The error of the first field in fields without a GraphQL type. */
  function FieldsError(m: MessageDescriptor, fields: seq<FieldDescriptor>, objects: map<string, GoObject>): (e: Option<GenError>)
    ensures e.Some? ==> !e.value.UnresolvedMembers?
  {
    if fields == [] then None
    else if GraphQLType(m, fields[0], objects).Failure? then Some(GraphQLType(m, fields[0], objects).error)
    else FieldsError(m, fields[1..], objects)
  }

  /** The error of the first ordinary field, in message order, without a GraphQL type. */
  function TypeError(ms: seq<MessageDescriptor>, objects: map<string, GoObject>): (e: Option<GenError>)
    ensures e.Some? ==> !e.value.UnresolvedMembers?
  {
    if ms == [] then None
    else if FieldsError(ms[0], PlainFields(ms[0].fields), objects).Some? then FieldsError(ms[0], PlainFields(ms[0].fields), objects)
    else TypeError(ms[1..], objects)
  }

  /** The first ordinary field of all messages, with its message. */
  function FirstPlain(ms: seq<MessageDescriptor>): Option<(MessageDescriptor, FieldDescriptor)>
  {
    if ms == [] then None
    else if PlainFields(ms[0].fields) != [] then Some((ms[0], PlainFields(ms[0].fields)[0]))
    else FirstPlain(ms[1..])
  }

  lemma {:induction false} FieldsErrorNone(m: MessageDescriptor, fields: seq<FieldDescriptor>, objects: map<string, GoObject>)
    ensures FieldsError(m, fields, objects).None? <==> TypesOk(m, fields, objects)
  {
    if fields != [] {
      FieldsErrorNone(m, fields[1..], objects);
      if TypesOk(m, fields, objects) {
        assert TypesOk(m, fields[1..], objects) by {
          forall i | 0 <= i < |fields| - 1
            ensures GraphQLType(m, fields[1..][i], objects).Success?
          {
            assert fields[1..][i] == fields[i + 1];
          }
        }
      }
      if GraphQLType(m, fields[0], objects).Success? && TypesOk(m, fields[1..], objects) {
        forall i | 0 <= i < |fields|
          ensures GraphQLType(m, fields[i], objects).Success?
        {
          if i > 0 {
            assert fields[i] == fields[1..][i - 1];
          }
        }
      }
    }
  }

  lemma {:induction false} TypeErrorNone(ms: seq<MessageDescriptor>, objects: map<string, GoObject>)
    ensures TypeError(ms, objects).None? <==> forall i :: 0 <= i < |ms| ==> TypesOk(ms[i], PlainFields(ms[i].fields), objects)
  {
    if ms != [] {
      TypeErrorNone(ms[1..], objects);
      FieldsErrorNone(ms[0], PlainFields(ms[0].fields), objects);
      if TypeError(ms, objects).None? {
        forall i | 0 <= i < |ms|
          ensures TypesOk(ms[i], PlainFields(ms[i].fields), objects)
        {
          if i > 0 {
            assert ms[i] == ms[1..][i - 1];
          }
        }
      } else if FieldsError(ms[0], PlainFields(ms[0].fields), objects).None? {
        var i :| 0 <= i < |ms[1..]| && !TypesOk(ms[1..][i], PlainFields(ms[1..][i].fields), objects);
        assert ms[1..][i] == ms[i + 1];
      }
    }
  }

  /** The first ordinary field's error is the first error among all ordinary fields. */
  lemma {:induction false} FirstPlainError(ms: seq<MessageDescriptor>, objects: map<string, GoObject>)
    requires FirstPlain(ms).Some?
    requires var (m, f) := FirstPlain(ms).value; GraphQLType(m, f, objects).Failure?
    ensures var (m, f) := FirstPlain(ms).value; TypeError(ms, objects) == Some(GraphQLType(m, f, objects).error)
  {
    if PlainFields(ms[0].fields) == [] {
      assert FieldsError(ms[0], [], objects) == None;
      FirstPlainError(ms[1..], objects);
    }
  }

  /**
   * The schema of the collected messages and groups. Generation stops at the
   * first problem the Go code meets: the type of the first ordinary field is
   * computed before its resolver looks up every group member, so its error
   * comes first; then an unresolved member type; then the first ordinary
   * field without a type. Which unresolved member the Go code names depends
   * on map order, so the error carries all of them.
   */
  function BuildSchema(ms: seq<MessageDescriptor>, oneofs: map<OneofKey, Oneof>, objects: map<string, GoObject>)
    : (r: Result<Schema, GenError>)
    requires ValidOneofs(oneofs)
    ensures r.Success? ==> |r.value.objects| == |ms| && r.value.unions.Keys == oneofs.Keys
    ensures r.Success? ==> forall i :: 0 <= i < |ms| ==> r.value.objects[i].varName == TypeVarName(ms[i].goName)
    ensures r.Failure? && r.error.UnresolvedMembers? ==>
      r.error.typeNames != {} && forall t :: t in r.error.typeNames ==> t !in objects
  {
    var first := FirstPlain(ms);
    if first.Some? && GraphQLType(first.value.0, first.value.1, objects).Failure? then
      Failure(GraphQLType(first.value.0, first.value.1, objects).error)
    else if Unresolved(oneofs, objects) != {} then
      Failure(UnresolvedMembers(Unresolved(oneofs, objects)))
    else if TypeError(ms, objects).Some? then
      Failure(TypeError(ms, objects).value)
    else
      TypeErrorNone(ms, objects);
      assert MembersResolved(oneofs, objects) by {
        forall k, f | k in oneofs && f in oneofs[k].fields
          ensures f.typeName in objects
        {
          assert f.typeName !in Unresolved(oneofs, objects);
        }
      }
      Success(Schema(
        seq(|ms|, i requires 0 <= i < |ms| => ObjectFor(ms[i], oneofs, objects)),
        map k | k in oneofs :: UnionFor(oneofs[k], objects)))
  }

  /** The plugin's per-file state: the messages it emits objects for and the oneof groups it has collected. */
  class GraphQLGenerator {
    var messages: seq<MessageDescriptor>
    var oneofs: map<OneofKey, Oneof>

    constructor()
      ensures messages == [] && oneofs == map[]
    {
      messages := [];
      oneofs := map[];
    }

    /** The first loop of Generate: keep the selected messages and collect each one's oneof groups. */
    method Collect(file: FileDescriptor)
      modifies this
      ensures messages == Selected(file.messages)
      ensures oneofs == OneofsOf(file.messages, |file.messages|)
    {
      var ms := file.messages;
      messages := [];
      oneofs := map[];
      var mi := 0;
      while mi < |ms|
        invariant 0 <= mi <= |ms|
        invariant messages == Selected(ms[..mi])
        invariant oneofs == OneofsOf(ms, mi)
      {
        var upto := ms[..mi + 1];
        assert upto[..|upto| - 1] == ms[..mi] && upto[|upto| - 1] == ms[mi];
        var message := ms[mi];
        if !message.mapEntry && |message.fields| != 0 {
          messages := messages + [message];
          var i := 0;
          while i < |message.oneofDecls|
            invariant 0 <= i <= |message.oneofDecls|
            invariant oneofs == OneofsOf(ms, mi) + DeclOneofs(message, mi, i)
            invariant messages == Selected(ms[..mi + 1])
          {
            var o := OneofFields(message, mi, i);
            DeclOneofsStep(OneofsOf(ms, mi), message, mi, i);
            oneofs := oneofs[OneofKey(mi, i) := o];
            i := i + 1;
          }
        }
        mi := mi + 1;
      }
      assert ms[..mi] == ms;
    }

    /**
     * Generate for one file: nothing for a file that does not ask for
     * GraphQL, and otherwise the schema of its selected messages and their
     * oneof groups.
     */
    method Generate(file: FileDescriptor, objects: map<string, GoObject>) returns (r: Result<Schema, GenError>)
      modifies this
      ensures !file.graphqlFile ==> messages == [] && oneofs == map[] && r == Success(Schema([], map[]))
      ensures file.graphqlFile ==> messages == Selected(file.messages) && oneofs == OneofsOf(file.messages, |file.messages|)
      ensures file.graphqlFile ==> ValidOneofs(oneofs) && r == BuildSchema(messages, oneofs, objects)
    {
      messages := [];
      oneofs := map[];
      if !file.graphqlFile {
        return Success(Schema([], map[]));
      }
      Collect(file);
      OneofsOfSpec(file.messages, |file.messages|);
      r := BuildSchema(messages, oneofs, objects);
    }
  }

  // ---------------------------------------------------------------------
  // Properties of the generated schema

  /**
   * Generation succeeds exactly when every ordinary field of a selected
   * message has a GraphQL type and every oneof member's type resolves.
   */
  lemma {:induction false} BuildSchemaSucceeds(ms: seq<MessageDescriptor>, oneofs: map<OneofKey, Oneof>, objects: map<string, GoObject>)
    requires ValidOneofs(oneofs)
    ensures BuildSchema(ms, oneofs, objects).Success? <==>
      (forall i :: 0 <= i < |ms| ==> TypesOk(ms[i], PlainFields(ms[i].fields), objects)) && MembersResolved(oneofs, objects)
  {
    TypeErrorNone(ms, objects);
    var first := FirstPlain(ms);
    if first.Some? && GraphQLType(first.value.0, first.value.1, objects).Failure? {
      FirstPlainError(ms, objects);
    }
    if !MembersResolved(oneofs, objects) {
      var k, f :| k in oneofs && f in oneofs[k].fields && f.typeName !in objects;
      assert f.typeName in Unresolved(oneofs, objects);
    }
  }

  /** One object per selected message, in order, named by the snake case of its joined name path. */
  lemma SchemaObjects(ms: seq<MessageDescriptor>, oneofs: map<OneofKey, Oneof>, objects: map<string, GoObject>)
    requires ValidOneofs(oneofs) && BuildSchema(ms, oneofs, objects).Success?
    ensures var s := BuildSchema(ms, oneofs, objects).value;
      && |s.objects| == |ms|
      && (forall i :: 0 <= i < |ms| ==> s.objects[i].name == Snake(Join(ms[i].typeName, "_")))
      && (forall i :: 0 <= i < |ms| ==> s.objects[i].varName == TypeVarName(ms[i].goName))
      && s.unions.Keys == oneofs.Keys
  {
  }

  /**
   * An object's fields: its ordinary fields in declaration order, each with
   * its GraphQL type, followed by one field per oneof declaration typed as
   * that group's union.
   */
  lemma ObjectLayout(m: MessageDescriptor, oneofs: map<OneofKey, Oneof>, objects: map<string, GoObject>)
    requires TypesOk(m, PlainFields(m.fields), objects)
    ensures var o := ObjectFor(m, oneofs, objects);
      var plain := PlainFields(m.fields);
      && |o.fields| == |plain| + |m.oneofDecls|
      && (forall i :: 0 <= i < |plain| ==>
            o.fields[i].PlainField? && o.fields[i].name == plain[i].name
            && o.fields[i].typ == GraphQLType(m, plain[i], objects).value)
      && (forall j :: 0 <= j < |m.oneofDecls| ==>
            o.fields[|plain| + j] == UnionField(m.oneofDecls[j].name, UnionVarName(m, m.oneofDecls[j]),
              OneofResolver(m.oneofDecls[j].name, m.goName, "Get" + m.oneofDecls[j].goName)))
  {
  }

  /** Whether src is the wrapper of some collected group member whose type is selfType. */
  predicate Carries(oneofs: map<OneofKey, Oneof>, objects: map<string, GoObject>, selfType: string, src: string)
  {
    exists k, g :: k in oneofs && g in oneofs[k].fields && g.typeName in objects
      && objects[g.typeName].goName == selfType && src == WrapperName(oneofs[k].message.goName, selfType)
  }

  /**
   * An ordinary field's resolver returns the field of a source of the
   * declaring type, the payload's field for a wrapper `Outer_T` of a group
   * member whose type T is the declaring type, and the error "field <name>
   * not resolved" for anything else.
   */
  lemma {:induction false} FieldDispatch(m: MessageDescriptor, f: FieldDescriptor, oneofs: map<OneofKey, Oneof>,
                                         objects: map<string, GoObject>, src: string)
    requires GraphQLType(m, f, objects).Success?
    ensures var r := PlainEntry(m, f, oneofs, objects).resolver;
      && (src == m.goName ==> ResolveField(r, src) == Success(OwnField(f.goName)))
      && (src != m.goName && Carries(oneofs, objects, m.goName, src) ==>
            ResolveField(r, src) == Success(PayloadField(m.goName, f.goName)))
      && (src != m.goName && !Carries(oneofs, objects, m.goName, src) ==>
            ResolveField(r, src) == Failure(NotResolved(f.name)))
  {
    if Carries(oneofs, objects, m.goName, src) {
      var k, g :| k in oneofs && g in oneofs[k].fields && g.typeName in objects
        && objects[g.typeName].goName == m.goName && src == WrapperName(oneofs[k].message.goName, m.goName);
      assert src in WrappersFor(m.goName, oneofs, objects);
    }
  }

  /** A oneof field's resolver accepts only the declaring type, and calls the group's getter. */
  lemma OneofDispatch(m: MessageDescriptor, d: OneofDecl, src: string)
    ensures var r := UnionEntry(m, d).oneofResolver;
      && (src == m.goName ==> ResolveOneof(r, src) == Success("Get" + d.goName))
      && (src != m.goName ==> ResolveOneof(r, src) == Failure(NotResolved(d.name)))
  {
  }

  lemma {:induction false} ResolveTypeFirst(cases: seq<UnionCase>, src: string, i: int)
    requires 0 <= i < |cases| && cases[i].wrapper == src
    requires forall j :: 0 <= j < i ==> cases[j].wrapper != src
    ensures ResolveType(cases, src) == Some(cases[i].objectVar)
  {
    if i > 0 {
      ResolveTypeFirst(cases[1..], src, i - 1);
    }
  }

  lemma {:induction false} ResolveTypeNone(cases: seq<UnionCase>, src: string)
    requires forall j :: 0 <= j < |cases| ==> cases[j].wrapper != src
    ensures ResolveType(cases, src) == None
  {
    if cases != [] {
      ResolveTypeNone(cases[1..], src);
    }
  }

  /**
   * A union lists its members' objects in member order, and its ResolveType
   * maps the wrapper of each member to that member's own object and any
   * other value to nothing.
   */
  lemma {:induction false} UnionDispatch(o: Oneof, objects: map<string, GoObject>, src: string)
    requires forall f :: f in o.fields ==> f.typeName in objects
    requires 0 <= o.oneofIndex < |o.message.oneofDecls|
    ensures var u := UnionFor(o, objects);
      var ts := MemberTypes(o, objects);
      && u.name == o.message.goName + o.message.oneofDecls[o.oneofIndex].goName
      && u.varName == "GraphQL" + u.name + "Union"
      && |u.members| == |o.fields|
      && (forall i :: 0 <= i < |ts| ==> u.members[i] == TypeVarName(ts[i]))
      && (forall i :: 0 <= i < |ts| ==>
            ResolveType(u.cases, WrapperName(o.message.goName, ts[i])) == Some(TypeVarName(ts[i])))
      && ((forall i :: 0 <= i < |ts| ==> src != WrapperName(o.message.goName, ts[i])) ==> ResolveType(u.cases, src) == None)
  {
    var u := UnionFor(o, objects);
    var ts := MemberTypes(o, objects);
    var outer := o.message.goName;
    forall i | 0 <= i < |ts|
      ensures ResolveType(u.cases, WrapperName(outer, ts[i])) == Some(TypeVarName(ts[i]))
    {
      var w := WrapperName(outer, ts[i]);
      var first := FirstWith(u.cases, w, i);
      assert u.cases[first].wrapper == WrapperName(outer, ts[first]);
      WrapperInjective(outer, ts[first], ts[i]);
      ResolveTypeFirst(u.cases, w, first);
    }
    if forall i :: 0 <= i < |ts| ==> src != WrapperName(outer, ts[i]) {
      ResolveTypeNone(u.cases, src);
    }
  }

  /** The first case carrying wrapper w, given that case i carries it. */
  lemma {:induction false} FirstWith(cases: seq<UnionCase>, w: string, i: int) returns (first: int)
    requires 0 <= i < |cases| && cases[i].wrapper == w
    ensures 0 <= first <= i && cases[first].wrapper == w
    ensures forall j :: 0 <= j < first ==> cases[j].wrapper != w
  {
    first := 0;
    while cases[first].wrapper != w
      invariant 0 <= first <= i
      invariant forall j :: 0 <= j < first ==> cases[j].wrapper != w
      decreases i - first
    {
      first := first + 1;
    }
  }

  /** Wrappers of the same message are equal only for the same member type. */
  lemma WrapperInjective(outer: string, a: string, b: string)
    requires WrapperName(outer, a) == WrapperName(outer, b)
    ensures a == b
  {
    assert a == WrapperName(outer, a)[|outer| + 1..];
    assert b == WrapperName(outer, b)[|outer| + 1..];
  }
}
