/**
 * Bit operations on a Go `uint64`, as the permission bitmap and the
 * generated bitflags methods write them: `uint64(1) << uint(i)`, `|`,
 * `& ^`, and the `& mask > 0` test. A `uint64` is its unsigned value, and
 * the bitwise operators are defined digit by digit in base 2.
 */
module Bits {
  import opened GoTypes

  /** 2 to the power n. */
  function Pow2(n: nat): (r: nat)
    ensures r > 0
  {
    if n == 0 then 1 else 2 * Pow2(n - 1)
  }

  /** Bit k of a natural number: its k-th binary digit. */
  predicate BitOf(p: nat, k: nat)
  {
    if k == 0 then p % 2 == 1 else BitOf(p / 2, k - 1)
  }

  /** Bitwise or, Go's `|` on unsigned values. */
  function Or(a: nat, b: nat): nat
    decreases a + b
  {
    if a == 0 && b == 0 then 0
    else 2 * Or(a / 2, b / 2) + (if a % 2 == 1 || b % 2 == 1 then 1 else 0)
  }

  /** Bitwise and, Go's `&` on unsigned values. */
  function And(a: nat, b: nat): nat
    decreases a + b
  {
    if a == 0 || b == 0 then 0
    else 2 * And(a / 2, b / 2) + (if a % 2 == 1 && b % 2 == 1 then 1 else 0)
  }

  /** Go's unary `^` on a `uint64`: every one of the 64 bits flipped. */
  function Complement(m: Uint64): Uint64
  {
    TWO_64 - 1 - m
  }

  lemma {:induction false} Pow2Add(m: nat, n: nat)
    ensures Pow2(m + n) == Pow2(m) * Pow2(n)
  {
    if n > 0 {
      Pow2Add(m, n - 1);
      assert Pow2(m + n) == 2 * Pow2(m + n - 1);
    }
  }

  lemma {:induction false} Pow2Mono(m: nat, n: nat)
    requires m <= n
    ensures Pow2(m) <= Pow2(n)
  {
    if m < n {
      Pow2Mono(m, n - 1);
    }
  }

  lemma Pow2Word()
    ensures Pow2(63) * 2 == Pow2(64) == TWO_64
  {
    assert Pow2(8) == 0x100;
    Pow2Add(8, 8);
    assert Pow2(16) == 0x1_0000;
    Pow2Add(16, 16);
    assert Pow2(32) == 0x1_0000_0000;
    Pow2Add(32, 32);
  }

  lemma Pow2Facts(n: nat)
    ensures n > 0 ==> Pow2(n) % 2 == 0 && Pow2(n) / 2 == Pow2(n - 1)
    ensures n < 64 ==> Pow2(n) < TWO_64
    ensures Pow2(64) == TWO_64
  {
    Pow2Word();
    if n < 64 {
      Pow2Mono(n, 63);
    }
  }

  /**
   * `uint64(1) << uint(i)`. A negative `i` becomes a huge `uint`, and Go
   * defines a shift by 64 or more to give 0, so only indices in [0, 64)
   * select a bit.
   */
  function Shl1(i: int): (m: Uint64)
    ensures 0 <= i < 64 ==> m == Pow2(i)
    ensures !(0 <= i < 64) ==> m == 0
  {
    if 0 <= i < 64 then Pow2Facts(i); Pow2(i) else 0
  }

  /** `p & (uint64(1) << uint(i)) > 0`. */
  predicate TestBit(p: Uint64, i: int)
  {
    And(p, Shl1(i)) > 0
  }

  /** `p | (uint64(1) << uint(i))`. */
  function SetBit(p: Uint64, i: int): Uint64
  {
    Pow2Facts(64);
    OrBound(p, Shl1(i), 64);
    Or(p, Shl1(i))
  }

  /** `p & ^(uint64(1) << uint(i))`. */
  function ClearBit(p: Uint64, i: int): Uint64
  {
    AndBound(p, Complement(Shl1(i)));
    And(p, Complement(Shl1(i)))
  }

  // Digit-by-digit facts about the operators.

  lemma {:induction false} OrBound(a: nat, b: nat, n: nat)
    requires a < Pow2(n) && b < Pow2(n)
    ensures Or(a, b) < Pow2(n)
    decreases a + b
  {
    if n > 0 && !(a == 0 && b == 0) {
      Pow2Facts(n);
      OrBound(a / 2, b / 2, n - 1);
    }
  }

  lemma {:induction false} OrZero(b: nat)
    ensures Or(0, b) == b
    decreases b
  {
    if b != 0 {
      OrZero(b / 2);
    }
  }

  lemma {:induction false} AndBound(a: nat, b: nat)
    ensures And(a, b) <= a
    decreases a + b
  {
    if !(a == 0 || b == 0) {
      AndBound(a / 2, b / 2);
    }
  }

  lemma {:induction false} OrBit(a: nat, b: nat, k: nat)
    ensures BitOf(Or(a, b), k) <==> BitOf(a, k) || BitOf(b, k)
    decreases k
  {
    if a == 0 && b == 0 {
      ZeroBits(k);
    } else if k > 0 {
      OrBit(a / 2, b / 2, k - 1);
    }
  }

  lemma {:induction false} AndBit(a: nat, b: nat, k: nat)
    ensures BitOf(And(a, b), k) <==> BitOf(a, k) && BitOf(b, k)
    decreases k
  {
    if a == 0 || b == 0 {
      ZeroBits(k);
    } else if k > 0 {
      AndBit(a / 2, b / 2, k - 1);
    }
  }

  lemma {:induction false} ZeroBits(k: nat)
    ensures !BitOf(0, k)
  {
    if k > 0 {
      ZeroBits(k - 1);
    }
  }

  /** Bit k of 2^i is set exactly when k is i. */
  lemma {:induction false} PowBit(i: nat, k: nat)
    ensures BitOf(Pow2(i), k) <==> k == i
  {
    if i == 0 {
      if k > 0 {
        ZeroBits(k - 1);
      }
    } else {
      Pow2Facts(i);
      if k > 0 {
        PowBit(i - 1, k - 1);
      }
    }
  }

  /** Flipping the low n bits of m flips each of its bits below n. */
  lemma {:induction false} FlipBit(m: nat, n: nat, k: nat)
    requires m < Pow2(n) && k < n
    ensures BitOf(Pow2(n) - 1 - m, k) <==> !BitOf(m, k)
  {
    Pow2Facts(n);
    if k > 0 {
      assert (Pow2(n) - 1 - m) / 2 == Pow2(n - 1) - 1 - m / 2;
      FlipBit(m / 2, n - 1, k - 1);
    }
  }

  /** A value below 2^n has no bit at n or above. */
  lemma {:induction false} HighBitsClear(p: nat, n: nat, k: nat)
    requires p < Pow2(n) && k >= n
    ensures !BitOf(p, k)
  {
    if n == 0 {
      ZeroBits(k);
    } else {
      Pow2Facts(n);
      HighBitsClear(p / 2, n - 1, k - 1);
    }
  }

  /** `a & (1 << i)` is nonzero exactly when bit i of a is set. */
  lemma {:induction false} AndPow(a: nat, i: nat)
    ensures And(a, Pow2(i)) > 0 <==> BitOf(a, i)
  {
    if a == 0 {
      ZeroBits(i);
    } else if i == 0 {
      assert And(a / 2, 0) == 0;
    } else {
      Pow2Facts(i);
      AndPow(a / 2, i - 1);
    }
  }

  /** Two values below 2^n that agree on every bit below n are equal. */
  lemma {:induction false} Extensional(a: nat, b: nat, n: nat)
    requires a < Pow2(n) && b < Pow2(n)
    requires forall k: nat :: k < n ==> (BitOf(a, k) <==> BitOf(b, k))
    ensures a == b
  {
    if n > 0 {
      Pow2Facts(n);
      assert BitOf(a, 0) <==> BitOf(b, 0);
      forall k: nat | k < n - 1
        ensures BitOf(a / 2, k) <==> BitOf(b / 2, k)
      {
        assert BitOf(a, k + 1) <==> BitOf(b, k + 1);
      }
      Extensional(a / 2, b / 2, n - 1);
    }
  }

  // The Go-level operations, stated bit by bit.

  /** The test `p & (1 << i) > 0` reads bit i, and is false for any index outside [0, 64). */
  lemma {:induction false} TestBitSpec(p: Uint64, i: int)
    ensures TestBit(p, i) <==> 0 <= i < 64 && BitOf(p, i)
  {
    if 0 <= i < 64 {
      AndPow(p, i);
    } else {
      assert And(p, 0) == 0;
    }
  }

  /** `uint64(1) << uint(k)` tests true exactly at index k, when k is a bit index. */
  lemma {:induction false} Shl1Test(k: int, i: int)
    ensures TestBit(Shl1(k), i) <==> 0 <= k < 64 && i == k
  {
    TestBitSpec(Shl1(k), i);
    if 0 <= i < 64 {
      if 0 <= k < 64 {
        PowBit(k, i);
      } else {
        ZeroBits(i);
      }
    }
  }

  /** Setting bit i makes it true (when i is a bit index) and leaves every other bit as it was. */
  lemma {:induction false} SetBitSpec(p: Uint64, i: int, j: int)
    ensures TestBit(SetBit(p, i), j) <==> (0 <= i < 64 && j == i) || TestBit(p, j)
  {
    TestBitSpec(SetBit(p, i), j);
    TestBitSpec(p, j);
    if 0 <= j < 64 {
      OrBit(p, Shl1(i), j);
      if 0 <= i < 64 {
        PowBit(i, j);
      } else {
        ZeroBits(j);
      }
    }
  }

  /** Clearing bit i makes it false and leaves every other bit as it was. */
  lemma {:induction false} ClearBitSpec(p: Uint64, i: int, j: int)
    ensures TestBit(ClearBit(p, i), j) <==> !(0 <= i < 64 && j == i) && TestBit(p, j)
  {
    TestBitSpec(ClearBit(p, i), j);
    TestBitSpec(p, j);
    if 0 <= j < 64 {
      AndBit(p, Complement(Shl1(i)), j);
      Pow2Facts(64);
      FlipBit(Shl1(i), 64, j);
      if 0 <= i < 64 {
        PowBit(i, j);
      } else {
        ZeroBits(j);
      }
    }
  }

  /** Two bitmaps on which every test agrees are equal. */
  lemma {:induction false} TestExtensional(p: Uint64, q: Uint64)
    requires forall i :: 0 <= i < 64 ==> (TestBit(p, i) <==> TestBit(q, i))
    ensures p == q
  {
    forall k: nat | k < 64
      ensures BitOf(p, k) <==> BitOf(q, k)
    {
      TestBitSpec(p, k);
      TestBitSpec(q, k);
    }
    Pow2Facts(64);
    Extensional(p, q, 64);
  }

  /** A bitmap reads as negative through int64 exactly when its top bit is set. */
  lemma {:induction false} TopBit(p: Uint64)
    ensures TestBit(p, 63) <==> p >= TWO_63
  {
    TestBitSpec(p, 63);
    Pow2Facts(64);
    Pow2Facts(63);
    TopDigit(p, 63);
  }

  /** Bit n of a value below 2^(n+1) is set exactly when the value is at least 2^n. */
  lemma {:induction false} TopDigit(p: nat, n: nat)
    requires p < Pow2(n + 1)
    ensures BitOf(p, n) <==> p >= Pow2(n)
  {
    Pow2Facts(n + 1);
    if n > 0 {
      Pow2Facts(n);
      TopDigit(p / 2, n - 1);
    }
  }
}
