/**
 The 32-bit operators of JavaScript on the non-negative numbers client/src/lib/account.ts uses them on
 (ECMA-262 sections 6.1.6.1.9 and 6.1.6.1.10), and what each does to a single bit.

 A shift count is taken modulo 32, a left shift keeps the low 32 bits.  Operands of >> are below 2^31 here,
 where the arithmetic shift is division.
 */
module JsBits {
  import opened Numbers

  /** Bit t of x, counted from the least significant. */
  predicate Bit(x: nat, t: nat) {
    if t == 0 then x % 2 == 1 else Bit(x / 2, t - 1)
  }

  function Halve(x: nat, n: nat): nat {
    if n == 0 then x else Halve(x / 2, n - 1)
  }

  function Double(x: nat, n: nat): nat {
    if n == 0 then x else 2 * Double(x, n - 1)
  }

  /** The n lowest bits of x. */
  function Low(x: nat, n: nat): nat {
    if n == 0 then 0 else x % 2 + 2 * Low(x / 2, n - 1)
  }

  /** x has no more than n bits. */
  predicate Fits(x: nat, n: nat) {
    if n == 0 then x == 0 else Fits(x / 2, n - 1)
  }

  function Or(x: nat, y: nat): nat
    decreases x + y
  {
    if x == 0 && y == 0 then 0
    else (if x % 2 == 1 || y % 2 == 1 then 1 else 0) + 2 * Or(x / 2, y / 2)
  }

  /** `x & (2^n - 1)`; the masks of the code are 0xff and 0x7ff. */
  function Mask(x: nat, n: nat): nat { Low(x, n) }

  function Shr(x: nat, count: int): nat { Halve(x, count % 32) }

  function Shl(x: nat, count: int): nat { Low(Double(x, count % 32), 32) }

  lemma {:induction false} ZeroBit(t: nat)
    ensures !Bit(0, t)
  {
    if t > 0 { ZeroBit(t - 1); }
  }

  lemma {:induction false} HalveBit(x: nat, n: nat, t: nat)
    ensures Bit(Halve(x, n), t) == Bit(x, t + n)
    decreases n
  {
    if n > 0 { HalveBit(x / 2, n - 1, t); }
  }

  lemma {:induction false} DoubleBit(x: nat, n: nat, t: nat)
    ensures Bit(Double(x, n), t) == (n <= t && Bit(x, t - n))
    decreases n
  {
    if n > 0 {
      assert Double(x, n) / 2 == Double(x, n - 1);
      if t > 0 { DoubleBit(x, n - 1, t - 1); }
    }
  }

  lemma {:induction false} LowBit(x: nat, n: nat, t: nat)
    ensures Bit(Low(x, n), t) == (t < n && Bit(x, t))
    decreases n
  {
    if n == 0 {
      ZeroBit(t);
    } else {
      assert Low(x, n) / 2 == Low(x / 2, n - 1) && Low(x, n) % 2 == x % 2;
      if t > 0 { LowBit(x / 2, n - 1, t - 1); }
    }
  }

  lemma {:induction false} OrBit(x: nat, y: nat, t: nat)
    ensures Bit(Or(x, y), t) == (Bit(x, t) || Bit(y, t))
    decreases t
  {
    if x == 0 && y == 0 {
      ZeroBit(t);
    } else if t > 0 {
      OrBit(x / 2, y / 2, t - 1);
    }
  }

  lemma {:induction false} OrZero(x: nat)
    ensures Or(x, 0) == x
  {
    if x > 0 { OrZero(x / 2); }
  }

  lemma {:induction false} OrFits(x: nat, y: nat, n: nat)
    requires Fits(x, n) && Fits(y, n)
    ensures Fits(Or(x, y), n)
    decreases n
  {
    if n > 0 && (x != 0 || y != 0) { OrFits(x / 2, y / 2, n - 1); }
    if x == 0 && y == 0 { ZeroFits(n); }
  }

  lemma {:induction false} ZeroFits(n: nat)
    ensures Fits(0, n)
  {
    if n > 0 { ZeroFits(n - 1); }
  }

  lemma {:induction false} LowFits(x: nat, n: nat)
    ensures Fits(Low(x, n), n)
    decreases n
  {
    if n > 0 { LowFits(x / 2, n - 1); }
  }

  lemma {:induction false} FitsBit(x: nat, n: nat, t: nat)
    requires Fits(x, n) && n <= t
    ensures !Bit(x, t)
    decreases n
  {
    if n == 0 { ZeroBit(t); } else { FitsBit(x / 2, n - 1, t - 1); }
  }

  lemma {:induction false} FitsIffBelow(x: nat, n: nat)
    ensures Fits(x, n) <==> x < Pow2(n)
    decreases n
  {
    if n > 0 { FitsIffBelow(x / 2, n - 1); }
  }

  lemma Widths()
    ensures Pow2(8) == 256 && Pow2(11) == 2048
  {
    assert Pow2(4) == 16;
    assert Pow2(8) == 256;
  }

  /** Two numbers of n bits with the same bits are equal. */
  lemma {:induction false} SameBits(x: nat, y: nat, n: nat)
    requires Fits(x, n) && Fits(y, n)
    requires forall t :: 0 <= t < n ==> Bit(x, t) == Bit(y, t)
    ensures x == y
    decreases n
  {
    if n > 0 {
      assert Bit(x, 0) == Bit(y, 0);
      forall t | 0 <= t < n - 1
        ensures Bit(x / 2, t) == Bit(y / 2, t)
      {
        assert Bit(x, t + 1) == Bit(y, t + 1);
      }
      SameBits(x / 2, y / 2, n - 1);
    }
  }
}
