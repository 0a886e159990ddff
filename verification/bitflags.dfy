/**
 * The bitflags plugin. For every message carrying the bitflags option it
 * emits methods on the message's Go struct, whose fields are booleans:
 * conversion to and from a `uint64` in which field i is bit i, the lists of
 * set and unset flags, and setting, clearing and testing a flag by the
 * snake-case form of its Go field name. A value of such a struct is a
 * `FlagSet`: the flag names of its type and the current field values.
 */
module Bitflags {
  import opened Wrappers
  import opened GoTypes
  import opened Bits
  import opened Naming
  import opened Descriptors

  /** The errors the emitted methods return: an unknown flag name, or a database value of a type Scan does not take. */
  datatype FlagError = InvalidFlag(flag: string) | InvalidType

  // Which messages receive the methods.

  /** The messages of a file that carry the bitflags option, in file order. */
  function BitflagMessages(ms: seq<MessageDescriptor>): (r: seq<MessageDescriptor>)
    ensures |r| <= |ms|
    ensures forall k :: 0 <= k < |r| ==> r[k].bitflags
  {
    if ms == [] then []
    else BitflagMessages(ms[..|ms| - 1]) + (if ms[|ms| - 1].bitflags then [ms[|ms| - 1]] else [])
  }

  /** Exactly the messages with the option are chosen, each as often as it occurs, none added. */
  lemma {:induction false} BitflagMessagesMembers(ms: seq<MessageDescriptor>)
    ensures forall m :: m in BitflagMessages(ms) <==> m in ms && m.bitflags
    ensures |BitflagMessages(ms)| <= |ms|
  {
    if ms != [] {
      BitflagMessagesMembers(ms[..|ms| - 1]);
      assert ms == ms[..|ms| - 1] + [ms[|ms| - 1]];
    }
  }

  /** The flag names of a message's struct: its Go field names in snake case, in field order. */
  function FlagNames(m: MessageDescriptor): (names: seq<string>)
    ensures |names| == |m.fields|
  {
    seq(|m.fields|, i requires 0 <= i < |m.fields| => Snake(m.fields[i].goName))
  }

  /** Flag names contain no upper-case letter, so a flag name is its own snake case. */
  lemma FlagNamesLower(m: MessageDescriptor, i: int)
    requires 0 <= i < |m.fields|
    ensures NoUpper(FlagNames(m)[i]) && Snake(FlagNames(m)[i]) == FlagNames(m)[i]
  {
    SnakeNoUpper(m.fields[i].goName, |m.fields[i].goName|);
    SnakeIdempotent(m.fields[i].goName);
  }

  /** The plugin's state while generating a file: the messages it has emitted methods for. */
  class BitflagsPlugin {
    var messages: seq<MessageDescriptor>

    constructor()
      ensures messages == []
    {
      messages := [];
    }

    /** Resets the list, then appends every message of the file that carries the option. */
    method Generate(file: FileDescriptor)
      modifies this
      ensures messages == BitflagMessages(file.messages)
    {
      messages := [];
      var i := 0;
      while i < |file.messages|
        invariant 0 <= i <= |file.messages|
        invariant messages == BitflagMessages(file.messages[..i])
      {
        var m := file.messages[i];
        assert file.messages[..i + 1][..i] == file.messages[..i];
        if m.bitflags {
          messages := messages + [m];
        }
        i := i + 1;
      }
      assert file.messages[..i] == file.messages;
    }
  }

  // The meaning of the emitted methods, on values.

  /** Index i is where a `switch` on flag names stops for `flag`: the first case with that name. */
  predicate FirstIndex(names: seq<string>, flag: string, i: int)
  {
    0 <= i < |names| && names[i] == flag && forall j :: 0 <= j < i ==> names[j] != flag
  }

  /** The case a `switch flag` over the flag names selects, if any. */
  function IndexOf(names: seq<string>, flag: string): (r: Option<nat>)
    ensures r.None? <==> flag !in names
    ensures r.Some? ==> FirstIndex(names, flag, r.value)
  {
    if |names| == 0 then None
    else if names[0] == flag then Some(0)
    else
      match IndexOf(names[1..], flag)
      case None =>
        assert names == [names[0]] + names[1..];
        None
      case Some(k) =>
        assert forall j :: 1 <= j < k + 1 ==> names[j] == names[1..][j - 1];
        Some(k + 1)
  }

  /** TestFlag's answer: the field of the first case named `flag`, and false for an unknown name. */
  function Flag(names: seq<string>, fields: seq<bool>, flag: string): (b: bool)
    requires |fields| == |names|
    ensures flag !in names ==> !b
    ensures forall i :: FirstIndex(names, flag, i) ==> (b <==> fields[i])
  {
    match IndexOf(names, flag)
    case None => false
    case Some(i) => fields[i]
  }

  /** The fields after SetFlag (v true) or ClearFlag (v false) of `flag`: only the selected case's field changes. */
  function Assign(names: seq<string>, fields: seq<bool>, flag: string, v: bool): (r: seq<bool>)
    requires |fields| == |names|
    ensures |r| == |fields|
    ensures flag !in names ==> r == fields
    ensures forall k :: 0 <= k < |r| ==> r[k] == (if FirstIndex(names, flag, k) then v else fields[k])
  {
    match IndexOf(names, flag)
    case None => fields
    case Some(i) => fields[i := v]
  }

  /** After setting or clearing a flag, testing it gives v, and testing any other name gives what it gave before. */
  lemma AssignFlag(names: seq<string>, fields: seq<bool>, flag: string, v: bool, g: string)
    requires |fields| == |names|
    ensures Flag(names, Assign(names, fields, flag, v), g)
      == if g == flag && flag in names then v else Flag(names, fields, g)
  {
    var r := Assign(names, fields, flag, v);
    if g in names {
      var j := IndexOf(names, g).value;
      assert FirstIndex(names, flag, j) <==> g == flag;
    }
  }

  /** The fields after SetFlags or ClearFlags: the flags applied one by one, in order. */
  function AssignAll(names: seq<string>, fields: seq<bool>, flags: seq<string>, v: bool): (r: seq<bool>)
    requires |fields| == |names|
    ensures |r| == |fields|
    ensures forall k :: 0 <= k < |r| ==> r[k] == fields[k] || r[k] == v
  {
    if flags == [] then fields
    else Assign(names, AssignAll(names, fields, flags[..|flags| - 1], v), flags[|flags| - 1], v)
  }

  /** After SetFlags (ClearFlags) every known flag named in the list tests v, and every other name tests as before. */
  lemma {:induction false} AssignAllFlag(names: seq<string>, fields: seq<bool>, flags: seq<string>, v: bool, g: string)
    requires |fields| == |names|
    ensures Flag(names, AssignAll(names, fields, flags, v), g)
      == if g in flags && g in names then v else Flag(names, fields, g)
  {
    if flags != [] {
      var init := flags[..|flags| - 1];
      AssignAllFlag(names, fields, init, v, g);
      AssignFlag(names, AssignAll(names, fields, init, v), flags[|flags| - 1], v, g);
      assert flags == init + [flags[|flags| - 1]];
    }
  }

  /** The errors SetFlags and ClearFlags return: one per unknown flag, in the order given. */
  function Unknown(names: seq<string>, flags: seq<string>): (r: seq<FlagError>)
    ensures |r| <= |flags|
    ensures forall k :: 0 <= k < |r| ==> r[k].InvalidFlag? && r[k].flag !in names
  {
    if flags == [] then []
    else
      Unknown(names, flags[..|flags| - 1])
      + (if flags[|flags| - 1] in names then [] else [InvalidFlag(flags[|flags| - 1])])
  }

  /** The reported errors name exactly the unknown flags, and there are none when every flag is known. */
  lemma {:induction false} UnknownMembers(names: seq<string>, flags: seq<string>)
    ensures forall e :: e in Unknown(names, flags) <==> e.InvalidFlag? && e.flag in flags && e.flag !in names
    ensures |Unknown(names, flags)| <= |flags|
    ensures Unknown(names, flags) == [] <==> forall i :: 0 <= i < |flags| ==> flags[i] in names
  {
    if flags != [] {
      var init := flags[..|flags| - 1];
      UnknownMembers(names, init);
      assert flags == init + [flags[|flags| - 1]];
      if Unknown(names, flags) == [] {
        assert Unknown(names, init) == [];
      }
    }
  }

  /** The flag names whose field equals `want`, in field order: HighFlags for true, LowFlags for false. */
  function Pick(names: seq<string>, fields: seq<bool>, want: bool): (r: seq<string>)
    requires |fields| == |names|
    ensures |r| <= |names|
    ensures forall k :: 0 <= k < |r| ==> r[k] in names
  {
    if names == [] then []
    else
      Pick(names[..|names| - 1], fields[..|fields| - 1], want)
      + (if fields[|fields| - 1] == want then [names[|names| - 1]] else [])
  }

  /** A name is picked exactly when some field of that name has the wanted value. */
  lemma {:induction false} PickMembers(names: seq<string>, fields: seq<bool>, want: bool)
    requires |fields| == |names|
    ensures forall x :: x in Pick(names, fields, want) <==> exists i :: 0 <= i < |names| && names[i] == x && fields[i] == want
  {
    if names != [] {
      var n := |names| - 1;
      PickMembers(names[..n], fields[..n], want);
      forall x | x in Pick(names, fields, want)
        ensures exists i :: 0 <= i < |names| && names[i] == x && fields[i] == want
      {
        if x in Pick(names[..n], fields[..n], want) {
          var i :| 0 <= i < n && names[..n][i] == x && fields[..n][i] == want;
          assert names[i] == x && fields[i] == want;
        }
      }
      forall x | exists i :: 0 <= i < |names| && names[i] == x && fields[i] == want
        ensures x in Pick(names, fields, want)
      {
        var i :| 0 <= i < |names| && names[i] == x && fields[i] == want;
        if i < n {
          assert names[..n][i] == x && fields[..n][i] == want;
        }
      }
    }
  }

  /** One more field adds its name to the picked names exactly when its value is the wanted one. */
  lemma PickLast(names: seq<string>, fields: seq<bool>, want: bool)
    requires |fields| == |names| > 0
    ensures var n := |names| - 1;
      multiset(Pick(names, fields, want))
      == multiset(Pick(names[..n], fields[..n], want)) + (if fields[n] == want then multiset{names[n]} else multiset{})
  {
  }

  /** HighFlags and LowFlags partition the flag names: together they hold each name once per field. */
  lemma {:induction false} PickPartition(names: seq<string>, fields: seq<bool>)
    requires |fields| == |names|
    ensures multiset(Pick(names, fields, true)) + multiset(Pick(names, fields, false)) == multiset(names)
  {
    if names != [] {
      var n := |names| - 1;
      PickPartition(names[..n], fields[..n]);
      PickLast(names, fields, true);
      PickLast(names, fields, false);
      MultisetLast(names);
    }
  }

  lemma MultisetLast(s: seq<string>)
    requires |s| > 0
    ensures multiset(s) == multiset(s[..|s| - 1]) + multiset{s[|s| - 1]}
  {
    assert s == s[..|s| - 1] + [s[|s| - 1]];
  }

  /** UInt64's result: bit i set for each true field i below 64 (`b |= uint64(1) << uint64(i)`). */
  function Pack(fields: seq<bool>): (b: Uint64)
    ensures (forall i :: 0 <= i < |fields| ==> !fields[i]) ==> b == 0
  {
    if fields == [] then 0
    else
      var b := Pack(fields[..|fields| - 1]);
      if fields[|fields| - 1] then SetBit(b, |fields| - 1) else b
  }

  /** Bit i of UInt64's result is set exactly when field i exists, is true and i is below 64. */
  lemma {:induction false} PackBits(fields: seq<bool>, i: int)
    ensures TestBit(Pack(fields), i) <==> 0 <= i < |fields| && i < 64 && fields[i]
  {
    if fields == [] {
      TestBitSpec(0, i);
      if 0 <= i < 64 {
        ZeroBits(i);
      }
    } else {
      var n := |fields| - 1;
      PackBits(fields[..n], i);
      if fields[n] {
        SetBitSpec(Pack(fields[..n]), n, i);
      }
      if 0 <= i < n {
        assert fields[..n][i] == fields[i];
      }
      if i == n && n >= 64 {
        TestBitSpec(Pack(fields), i);
      }
    }
  }

  /** FromUInt64's result: field i becomes whether bit i of b is set (`b & (uint64(1) << uint(i)) > 0`). */
  function Unpack(b: Uint64, n: nat): (r: seq<bool>)
    ensures |r| == n
    ensures forall i :: 0 <= i < n ==> r[i] == TestBit(b, i)
  {
    seq(n, i requires 0 <= i < n => TestBit(b, i))
  }

  /** Packing then unpacking keeps the first 64 fields and clears any beyond them. */
  lemma UnpackPack(fields: seq<bool>)
    ensures forall i :: 0 <= i < |fields| ==> Unpack(Pack(fields), |fields|)[i] == (i < 64 && fields[i])
    ensures |fields| <= 64 ==> Unpack(Pack(fields), |fields|) == fields
  {
    forall i | 0 <= i < |fields|
      ensures Unpack(Pack(fields), |fields|)[i] == (i < 64 && fields[i])
    {
      PackBits(fields, i);
    }
  }

  /** Unpacking a value of at most n bits into n <= 64 fields and packing them again gives the value back. */
  lemma PackUnpack(b: Uint64, n: nat)
    requires n <= 64 && b < Pow2(n)
    ensures Pack(Unpack(b, n)) == b
  {
    forall i | 0 <= i < 64
      ensures TestBit(Pack(Unpack(b, n)), i) <==> TestBit(b, i)
    {
      PackBits(Unpack(b, n), i);
      if i >= n {
        TestBitSpec(b, i);
        HighBitsClear(b, n, i);
      }
    }
    TestExtensional(Pack(Unpack(b, n)), b);
  }

  /** Scan of the int64 that Value stores restores every field of a struct with at most 64 flags. */
  lemma ValueScanRoundTrip(fields: seq<bool>)
    requires |fields| <= 64
    ensures Unpack(ToUint64(ToInt64(Pack(fields))), |fields|) == fields
  {
    UintIntRoundTrip(Pack(fields));
    UnpackPack(fields);
  }

  /** A value of a generated bitflags struct: the flag names of its type and its field values. */
  class FlagSet {
    const names: seq<string>
    var fields: seq<bool>

    predicate Valid()
      reads this
    {
      |fields| == |names|
    }

    /** The zero value of the struct generated for m: every flag false. */
    constructor(m: MessageDescriptor)
      ensures Valid()
      ensures names == FlagNames(m)
      ensures fields == seq(|m.fields|, _ => false)
    {
      names := FlagNames(m);
      fields := seq(|m.fields|, _ => false);
    }

    /** UInt64: the struct as a bitmap. */
    method UInt64() returns (b: Uint64)
      requires Valid()
      ensures b == Pack(fields)
    {
      b := 0;
      var i := 0;
      while i < |fields|
        invariant 0 <= i <= |fields|
        invariant b == Pack(fields[..i])
      {
        assert fields[..i + 1][..i] == fields[..i];
        if fields[i] {
          b := SetBit(b, i);
        }
        i := i + 1;
      }
      assert fields[..i] == fields;
    }

    /** HighFlags: the names of the true fields, in field order. */
    method HighFlags() returns (hs: seq<string>)
      requires Valid()
      ensures hs == Pick(names, fields, true)
    {
      hs := [];
      var i := 0;
      while i < |fields|
        invariant 0 <= i <= |fields|
        invariant hs == Pick(names[..i], fields[..i], true)
      {
        assert names[..i + 1][..i] == names[..i];
        assert fields[..i + 1][..i] == fields[..i];
        if fields[i] {
          hs := hs + [names[i]];
        }
        i := i + 1;
      }
      assert names[..i] == names && fields[..i] == fields;
    }

    /** LowFlags: the names of the false fields, in field order. */
    method LowFlags() returns (ls: seq<string>)
      requires Valid()
      ensures ls == Pick(names, fields, false)
    {
      ls := [];
      var i := 0;
      while i < |fields|
        invariant 0 <= i <= |fields|
        invariant ls == Pick(names[..i], fields[..i], false)
      {
        assert names[..i + 1][..i] == names[..i];
        assert fields[..i + 1][..i] == fields[..i];
        if !fields[i] {
          ls := ls + [names[i]];
        }
        i := i + 1;
      }
      assert names[..i] == names && fields[..i] == fields;
    }

    /** SetFlag: the named field becomes true; an unknown name is an error and changes nothing. */
    method SetFlag(flag: string) returns (err: Option<FlagError>)
      requires Valid()
      modifies this
      ensures Valid()
      ensures fields == Assign(names, old(fields), flag, true)
      ensures err == if flag in names then None else Some(InvalidFlag(flag))
    {
      match IndexOf(names, flag)
      case None =>
        err := Some(InvalidFlag(flag));
      case Some(i) =>
        fields := fields[i := true];
        err := None;
    }

    /** ClearFlag: the named field becomes false; an unknown name is an error and changes nothing. */
    method ClearFlag(flag: string) returns (err: Option<FlagError>)
      requires Valid()
      modifies this
      ensures Valid()
      ensures fields == Assign(names, old(fields), flag, false)
      ensures err == if flag in names then None else Some(InvalidFlag(flag))
    {
      match IndexOf(names, flag)
      case None =>
        err := Some(InvalidFlag(flag));
      case Some(i) =>
        fields := fields[i := false];
        err := None;
    }

    /** SetFlags: SetFlag on each flag in turn, collecting the errors. */
    method SetFlags(flags: seq<string>) returns (errs: seq<FlagError>)
      requires Valid()
      modifies this
      ensures Valid()
      ensures fields == AssignAll(names, old(fields), flags, true)
      ensures errs == Unknown(names, flags)
    {
      errs := [];
      var i := 0;
      while i < |flags|
        invariant 0 <= i <= |flags|
        invariant Valid()
        invariant fields == AssignAll(names, old(fields), flags[..i], true)
        invariant errs == Unknown(names, flags[..i])
      {
        assert flags[..i + 1][..i] == flags[..i];
        var err := SetFlag(flags[i]);
        if err.Some? {
          errs := errs + [err.value];
        }
        i := i + 1;
      }
      assert flags[..i] == flags;
    }

    /** ClearFlags: ClearFlag on each flag in turn, collecting the errors. */
    method ClearFlags(flags: seq<string>) returns (errs: seq<FlagError>)
      requires Valid()
      modifies this
      ensures Valid()
      ensures fields == AssignAll(names, old(fields), flags, false)
      ensures errs == Unknown(names, flags)
    {
      errs := [];
      var i := 0;
      while i < |flags|
        invariant 0 <= i <= |flags|
        invariant Valid()
        invariant fields == AssignAll(names, old(fields), flags[..i], false)
        invariant errs == Unknown(names, flags[..i])
      {
        assert flags[..i + 1][..i] == flags[..i];
        var err := ClearFlag(flags[i]);
        if err.Some? {
          errs := errs + [err.value];
        }
        i := i + 1;
      }
      assert flags[..i] == flags;
    }

    /** TestFlag: the named field, or false for an unknown name. */
    function TestFlag(flag: string): (b: bool)
      reads this
      requires Valid()
      ensures flag !in names ==> !b
      ensures forall i :: FirstIndex(names, flag, i) ==> (b <==> fields[i])
    {
      Flag(names, fields, flag)
    }

    /** TestFlags: whether every named flag tests true, stopping at the first that does not; true for no flags. */
    method TestFlags(flags: seq<string>) returns (ok: bool)
      requires Valid()
      ensures ok <==> forall i :: 0 <= i < |flags| ==> TestFlag(flags[i])
    {
      var i := 0;
      while i < |flags|
        invariant 0 <= i <= |flags|
        invariant forall j :: 0 <= j < i ==> TestFlag(flags[j])
      {
        if !TestFlag(flags[i]) {
          return false;
        }
        i := i + 1;
      }
      return true;
    }

    /** FromUInt64: field i becomes bit i of b; it never fails. */
    method FromUInt64(b: Uint64) returns (err: Option<FlagError>)
      requires Valid()
      modifies this
      ensures Valid()
      ensures fields == Unpack(b, |names|)
      ensures err == None
    {
      var i := 0;
      while i < |fields|
        invariant 0 <= i <= |fields| == |names|
        invariant fields[..i] == Unpack(b, i)
      {
        fields := fields[i := TestBit(b, i)];
        i := i + 1;
      }
      err := None;
    }

    /** Scan: an int, int32 or int64 from the database is reinterpreted as a uint64 and unpacked; any other type is an error. */
    method Scan(src: DriverValue) returns (err: Option<FlagError>)
      requires Valid()
      modifies this
      ensures Valid()
      ensures src.DOther? ==> err == Some(InvalidType) && fields == old(fields)
      ensures !src.DOther? ==> err == None && fields == Unpack(ToUint64(DriverInt(src)), |names|)
    {
      if src.DOther? {
        err := Some(InvalidType);
      } else {
        err := FromUInt64(ToUint64(DriverInt(src)));
      }
    }

    /** Value: the bitmap as the int64 the database stores; it is negative exactly when flag 63 is set. */
    method Value() returns (v: Int64)
      requires Valid()
      ensures ToUint64(v) == Pack(fields)
      ensures v < 0 <==> |fields| > 63 && fields[63]
    {
      var b := UInt64();
      v := ToInt64(b);
      UintIntRoundTrip(b);
      TopBit(b);
      PackBits(fields, 63);
    }
  }
}
