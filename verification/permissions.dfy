/**
 * The capability bitmap attached to a user: a 64-bit `Permission` whose
 * bits are named through a registry of per-type bitmaps.
 */
module Permissions {
  import opened Wrappers
  import opened GoTypes
  import opened Bits

  /** The error value built by NewPermissionsError: a type tag and a message. */
  datatype Error = Error(kind: string, message: string)

  /** The error reported for a permission that is not held. */
  function PermissionsError(name: string): (e: Error)
    ensures e.kind == "PermissionsError"
    ensures e.message == "Not authorized: " + name
    ensures |e.message| == 16 + |name| && e.message[16..] == name
  {
    Error("PermissionsError", "Not authorized: " + name)
  }

  /** What Scan reports for a value of a type it does not accept. */
  datatype ScanError = InvalidType

  /** The names of the bits of one permission type, keyed by bit index. */
  class PermissionsBitmap {
    var bitmap: map<int, string>

    constructor()
      ensures bitmap == map[]
    {
      bitmap := map[];
    }

    /** The name registered for bit i, with Go's zero value "" when there is none. */
    function Get(i: int): (r: (string, bool))
      reads this
      ensures r.1 <==> i in bitmap
      ensures r.1 ==> r.0 == bitmap[i]
      ensures !r.1 ==> r.0 == ""
    {
      if i in bitmap then (bitmap[i], true) else ("", false)
    }

    /** The number of registered indices. */
    function Length(): (n: nat)
      reads this
      ensures n == |bitmap.Keys|
    {
      |bitmap|
    }

    /** Registers (or renames) bit i; no other bit changes. */
    method Register(i: int, name: string)
      modifies this
      ensures bitmap == old(bitmap)[i := name]
      ensures Get(i) == (name, true)
      ensures forall j :: j != i ==> Get(j) == old(Get(j))
      ensures Length() == old(Length()) + (if i in old(bitmap) then 0 else 1)
    {
      bitmap := bitmap[i := name];
    }
  }

  /** The indices below n whose bit is set, ascending. */
  function BitsBelow(p: Uint64, n: nat): (r: seq<int>)
    requires n <= 64
    ensures |r| <= n
    ensures forall k :: 0 <= k < |r| ==> 0 <= r[k] < n && TestBit(p, r[k])
  {
    if n == 0 then [] else BitsBelow(p, n - 1) + (if TestBit(p, n - 1) then [n - 1] else [])
  }

  /** The registered names of the indices in bits, in the same order; unregistered indices are skipped. */
  function Lookup(bits: seq<int>, names: map<int, string>): (r: seq<string>)
    ensures |r| <= |bits|
    ensures forall k :: 0 <= k < |r| ==> r[k] in names.Values
  {
    if bits == [] then []
    else
      var last := bits[|bits| - 1];
      Lookup(bits[..|bits| - 1], names) + (if last in names then [names[last]] else [])
  }

  predicate Ascending(s: seq<int>)
  {
    forall a, b :: 0 <= a < b < |s| ==> s[a] < s[b]
  }

  /** BitsBelow lists exactly the set bits below n, in strictly ascending order. */
  lemma {:induction false} BitsBelowSpec(p: Uint64, n: nat)
    requires n <= 64
    ensures forall i :: i in BitsBelow(p, n) <==> 0 <= i < n && TestBit(p, i)
    ensures Ascending(BitsBelow(p, n))
  {
    if n > 0 {
      BitsBelowSpec(p, n - 1);
      var prev := BitsBelow(p, n - 1);
      forall k | 0 <= k < |prev|
        ensures prev[k] < n - 1
      {
        assert prev[k] in prev;
      }
    }
  }

  /** A name is looked up exactly when some listed index is registered under it. */
  lemma {:induction false} LookupSpec(bits: seq<int>, names: map<int, string>)
    ensures forall i :: i in bits && i in names ==> names[i] in Lookup(bits, names)
    ensures forall x :: x in Lookup(bits, names) ==> exists i :: i in bits && i in names && names[i] == x
  {
    if bits != [] {
      var init := bits[..|bits| - 1];
      LookupSpec(init, names);
      assert bits == init + [bits[|bits| - 1]];
    }
  }

  /** A user's permissions of one type: its registry name and the bitmap. */
  class Permission {
    var name: string
    var perm: Uint64

    constructor(name: string, perm: Uint64)
      ensures this.name == name && this.perm == perm
    {
      this.name := name;
      this.perm := perm;
    }

    /** Sets bit i; Bits.SetBitSpec says what that does to every test. */
    method Set(i: int)
      modifies this
      ensures perm == SetBit(old(perm), i) && name == old(name)
    {
      perm := SetBit(perm, i);
    }

    /** Clears bit i; Bits.ClearBitSpec says what that does to every test. */
    method Clear(i: int)
      modifies this
      ensures perm == ClearBit(old(perm), i) && name == old(name)
    {
      perm := ClearBit(perm, i);
    }

    /** Whether bit i is set; false for every index outside [0, 64). */
    function Test(i: int): (b: bool)
      reads this
      ensures b <==> 0 <= i < 64 && BitOf(perm, i)
    {
      TestBitSpec(perm, i);
      TestBit(perm, i)
    }

    /** The set bits, ascending. */
    method HighBits() returns (hb: seq<int>)
      ensures hb == BitsBelow(perm, 64)
      ensures forall i :: i in hb <==> 0 <= i < 64 && Test(i)
      ensures Ascending(hb)
    {
      hb := [];
      var i := 0;
      while i < 64
        invariant 0 <= i <= 64
        invariant hb == BitsBelow(perm, i)
      {
        if Test(i) {
          hb := hb + [i];
        }
        i := i + 1;
      }
      BitsBelowSpec(perm, 64);
    }

    /** The names this permission grants, under the registry's bitmaps. */
    function Granted(registry: map<string, map<int, string>>): (g: seq<string>)
      reads this
      ensures name !in registry ==> g == []
      ensures |g| <= 64
      ensures name in registry ==> forall k :: 0 <= k < |g| ==> g[k] in registry[name].Values
    {
      if name in registry then Lookup(BitsBelow(perm, 64), registry[name]) else []
    }

    /**
     * The registered names of the set bits in ascending bit order, skipping
     * unregistered bits; nothing at all when the registry has no bitmap for
     * this permission's type.
     */
    method Permissions(registry: map<string, map<int, string>>) returns (perms: seq<string>)
      ensures perms == Granted(registry)
      ensures name !in registry ==> perms == []
      ensures name in registry ==>
        forall i :: 0 <= i < 64 && Test(i) && i in registry[name] ==> registry[name][i] in perms
      ensures name in registry ==>
        forall x :: x in perms ==> exists i :: 0 <= i < 64 && Test(i) && i in registry[name] && registry[name][i] == x
    {
      if name !in registry {
        return [];
      }
      var r := registry[name];
      var bits := HighBits();
      perms := [];
      var k := 0;
      while k < |bits|
        invariant 0 <= k <= |bits|
        invariant perms == Lookup(bits[..k], r)
      {
        assert bits[..k + 1][..k] == bits[..k];
        if bits[k] in r {
          perms := perms + [r[bits[k]]];
        }
        k := k + 1;
      }
      assert bits[..|bits|] == bits;
      LookupSpec(bits, r);
    }

    /** For each requested name, whether this permission grants it. */
    method HasPermissions(registry: map<string, map<int, string>>, pnames: seq<string>)
      returns (ret: map<string, bool>)
      ensures ret.Keys == set n | n in pnames
      ensures forall n :: n in ret ==> (ret[n] <==> n in Granted(registry))
    {
      var perms := Permissions(registry);
      var hasPerms: map<string, bool> := map[];
      var k := 0;
      while k < |perms|
        invariant 0 <= k <= |perms|
        invariant hasPerms.Keys == set x | x in perms[..k]
      {
        assert perms[..k + 1] == perms[..k] + [perms[k]];
        hasPerms := hasPerms[perms[k] := true];
        k := k + 1;
      }
      assert perms[..|perms|] == perms;
      ret := map[];
      k := 0;
      while k < |pnames|
        invariant 0 <= k <= |pnames|
        invariant ret.Keys == set n | n in pnames[..k]
        invariant forall n :: n in ret ==> (ret[n] <==> n in perms)
      {
        assert pnames[..k + 1] == pnames[..k] + [pnames[k]];
        if pnames[k] in hasPerms {
          ret := ret[pnames[k] := true];
        } else {
          ret := ret[pnames[k] := false];
        }
        k := k + 1;
      }
      assert pnames[..|pnames|] == pnames;
    }

    /** For each requested name, no error when it is granted, and "Not authorized: <name>" otherwise. */
    method CheckPermissions(registry: map<string, map<int, string>>, pnames: seq<string>)
      returns (errs: map<string, Option<Error>>)
      ensures errs.Keys == set n | n in pnames
      ensures forall n :: n in errs ==> (errs[n].None? <==> n in Granted(registry))
      ensures forall n :: n in errs && errs[n].Some? ==> errs[n].value == PermissionsError(n)
    {
      var has := HasPermissions(registry, pnames);
      errs := map[];
      var todo := has.Keys;
      while todo != {}
        invariant todo <= has.Keys
        invariant errs.Keys == has.Keys - todo
        invariant forall n :: n in errs ==> (errs[n].None? <==> has[n])
        invariant forall n :: n in errs && errs[n].Some? ==> errs[n].value == PermissionsError(n)
        decreases |todo|
      {
        var n :| n in todo;
        if !has[n] {
          errs := errs[n := Some(PermissionsError(n))];
        } else {
          errs := errs[n := None];
        }
        todo := todo - {n};
      }
    }

    /**
     * An integer from the database becomes the bitmap, reinterpreted as
     * unsigned; any other value is rejected and the bitmap is kept.
     */
    method Scan(src: DriverValue) returns (err: Option<ScanError>)
      modifies this
      ensures src.DOther? ==> err == Some(InvalidType) && perm == old(perm)
      ensures !src.DOther? ==> err == None && perm == ToUint64(DriverInt(src))
      ensures name == old(name)
    {
      match src {
        case DOther =>
          return Some(InvalidType);
        case _ =>
          perm := ToUint64(DriverInt(src));
          return None;
      }
    }

    /** The database value: the bitmap reinterpreted as a signed 64-bit integer, which Scan turns back into the same bitmap. */
    function Value(): (v: Int64)
      reads this
      ensures ToUint64(v) == perm
      ensures v < 0 <==> TestBit(perm, 63)
    {
      Pow2Facts(64);
      TopBit(perm);
      ToInt64(perm)
    }
  }

  /** Set and Clear on the indices the tests exercise. */
  lemma SetClearExamples()
    ensures SetBit(0, 0) == 1
    ensures SetBit(0, 63) == TWO_63
    ensures ClearBit(TWO_63, 63) == 0
    ensures ClearBit(8, 3) == 0
  {
    Pow2Facts(64);
    assert Shl1(63) == TWO_63;
    OrZero(Shl1(63));
    assert SetBit(0, 63) == Or(0, Shl1(63));
    ClearOwnBit(63);
    assert Shl1(3) == 8;
    ClearOwnBit(3);
  }

  /** Test on the bitmaps and indices the tests exercise. */
  lemma TestExamples()
    ensures TestBit(0xf, 3)
    ensures !TestBit(0x0, 4)
    ensures !TestBit(0xfe, 0)
  {
    TestBitSpec(0xf, 3);
    TestBitSpec(0x0, 4);
    TestBitSpec(0xfe, 0);
    assert BitOf(0xf, 3);
    ZeroBits(4);
  }

  /** Indices past the highest set bit add nothing to BitsBelow. */
  lemma {:induction false} BitsBelowHigh(p: Uint64, m: nat, n: nat)
    requires m <= n <= 64 && p < Pow2(m)
    ensures BitsBelow(p, n) == BitsBelow(p, m)
  {
    if m < n {
      BitsBelowHigh(p, m, n - 1);
      TestBitSpec(p, n - 1);
      HighBitsClear(p, m, n - 1);
    }
  }

  /** HighBits of 0x3 is [0, 1]. */
  lemma HighBitsExample()
    ensures BitsBelow(3, 64) == [0, 1]
  {
    BitsBelowHigh(3, 2, 64);
    TestBitSpec(3, 0);
    TestBitSpec(3, 1);
  }

  /** Clearing the only set bit leaves nothing set. */
  lemma {:induction false} ClearOwnBit(i: int)
    requires 0 <= i < 64
    ensures ClearBit(Shl1(i), i) == 0
  {
    forall j | 0 <= j < 64
      ensures TestBit(ClearBit(Shl1(i), i), j) <==> TestBit(0, j)
    {
      ClearBitSpec(Shl1(i), i, j);
      Shl1Test(i, j);
      TestBitSpec(0, j);
      ZeroBits(j);
    }
    TestExtensional(ClearBit(Shl1(i), i), 0);
  }
}
