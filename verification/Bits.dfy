/** Unsigned machine integers as naturals, bit by bit, and the rounding up to a power of two. */
module Bits {
  import opened Common
  import Arith

  function Pow2(k: nat): (p: nat)
    ensures p >= 1
  {
    if k == 0 then 1 else 2 * Pow2(k - 1)
  }

  predicate Bit(x: nat, i: nat) {
    if i == 0 then x % 2 == 1 else Bit(x / 2, i - 1)
  }

  /** x >> s */
  function Shr(x: nat, s: nat): nat {
    if s == 0 then x else Shr(x / 2, s - 1)
  }

  /** a | b */
  function Or(a: nat, b: nat): nat
    decreases a + b
  {
    if a == 0 && b == 0 then 0
    else 2 * Or(a / 2, b / 2) + if a % 2 == 1 || b % 2 == 1 then 1 else 0
  }

  /** a & b */
  function And(a: nat, b: nat): nat
    decreases a + b
  {
    if a == 0 && b == 0 then 0
    else 2 * And(a / 2, b / 2) + if a % 2 == 1 && b % 2 == 1 then 1 else 0
  }

  lemma OrHalf(a: nat, b: nat)
    ensures Or(a, b) / 2 == Or(a / 2, b / 2)
    ensures Or(a, b) % 2 == 1 <==> a % 2 == 1 || b % 2 == 1
  {
    var low := if a % 2 == 1 || b % 2 == 1 then 1 else 0;
    assert Or(a, b) == 2 * Or(a / 2, b / 2) + low;
  }

  lemma {:induction false} BitOr(a: nat, b: nat, i: nat)
    ensures Bit(Or(a, b), i) <==> Bit(a, i) || Bit(b, i)
    decreases i
  {
    OrHalf(a, b);
    if i > 0 {
      BitOr(a / 2, b / 2, i - 1);
    }
  }

  lemma {:induction false} BitShr(x: nat, s: nat, i: nat)
    ensures Bit(Shr(x, s), i) <==> Bit(x, s + i)
  {
    if s > 0 {
      BitShr(x / 2, s - 1, i);
    }
  }

  lemma {:induction false} ShrNext(x: nat, s: nat)
    ensures Shr(x, s + 1) == Shr(x, s) / 2
  {
    if s > 0 {
      ShrNext(x / 2, s - 1);
    }
  }

  lemma {:induction false} BitZero(i: nat)
    ensures !Bit(0, i)
  {
    if i > 0 {
      BitZero(i - 1);
    }
  }

  lemma {:induction false} BitOnes(n: nat, i: nat)
    ensures Bit(Pow2(n) - 1, i) <==> i < n
  {
    if n == 0 {
      BitZero(i);
    } else if i > 0 {
      assert (Pow2(n) - 1) / 2 == Pow2(n - 1) - 1;
      BitOnes(n - 1, i - 1);
    }
  }

  lemma {:induction false} SameBits(x: nat, y: nat)
    requires forall i: nat :: Bit(x, i) <==> Bit(y, i)
    ensures x == y
    decreases x + y
  {
    if x + y > 0 {
      forall i: nat
        ensures Bit(x / 2, i) <==> Bit(y / 2, i)
      {
        assert Bit(x, i + 1) <==> Bit(y, i + 1);
      }
      SameBits(x / 2, y / 2);
      assert Bit(x, 0) <==> Bit(y, 0);
    }
  }

  /** The position of the highest bit. */
  lemma {:induction false} TopBit(x: nat) returns (h: nat)
    requires x > 0
    ensures Pow2(h) <= x < Pow2(h + 1)
    ensures forall i: nat :: Bit(x, i) ==> i <= h
    ensures Bit(x, h)
  {
    if x == 1 {
      h := 0;
      forall i: nat
        ensures Bit(1, i) ==> i <= 0
      {
        if i > 0 { BitZero(i - 1); }
      }
    } else {
      var g := TopBit(x / 2);
      h := g + 1;
      forall i: nat
        ensures Bit(x, i) ==> i <= h
      {
        if i > 0 { assert Bit(x, i) == Bit(x / 2, i - 1); }
      }
    }
  }

  lemma {:induction false} Pow2Monotone(a: nat, b: nat)
    requires a <= b
    ensures Pow2(a) <= Pow2(b)
  {
    if a < b {
      Pow2Monotone(a, b - 1);
    }
  }

  lemma {:induction false} Pow2Add(a: nat, b: nat)
    ensures Pow2(a + b) == Pow2(a) * Pow2(b)
  {
    if b > 0 {
      Pow2Add(a, b - 1);
    }
  }

  /** Masking with a power of two less one takes off a multiple of that power. */
  lemma {:induction false} MaskSplits(a: nat, k: nat) returns (q: nat)
    ensures a == q * Pow2(k) + And(a, Pow2(k) - 1) && And(a, Pow2(k) - 1) < Pow2(k)
  {
    if k == 0 {
      MaskNone(a);
      q := a;
    } else {
      q := MaskSplits(a / 2, k - 1);
      AndOdd(a, Pow2(k - 1) - 1);
      MaskOneMore(a, q, Pow2(k - 1), And(a / 2, Pow2(k - 1) - 1), And(a, Pow2(k) - 1));
    }
  }

  /** One more place: `x` and `y` stand for the masked half and the masked whole. */
  lemma MaskOneMore(a: nat, q: nat, p: nat, x: nat, y: nat)
    requires a / 2 == q * p + x && x < p && y == 2 * x + a % 2
    ensures a == q * (2 * p) + y && y < 2 * p
  {
    Arith.Doubled(q, p);
  }

  lemma MaskIsRemainder(a: nat, k: nat)
    ensures And(a, Pow2(k) - 1) == a % Pow2(k)
  {
    var q := MaskSplits(a, k);
    Arith.ModUnique(a, Pow2(k), q, And(a, Pow2(k) - 1));
  }

  lemma AndOdd(a: nat, m: nat)
    ensures And(a, 2 * m + 1) == 2 * And(a / 2, m) + a % 2
  {
    assert (2 * m + 1) / 2 == m && (2 * m + 1) % 2 == 1;
  }

  lemma {:induction false} MaskNone(a: nat)
    ensures And(a, 0) == 0
  {
    if a > 0 {
      MaskNone(a / 2);
    }
  }

  // ---------------------------------------------------------------- smearing

  /** Bit i of x is set exactly if x0 has a bit in the d places from i upwards. */
  ghost predicate Smeared(x0: nat, x: nat, d: nat) {
    forall i: nat :: Bit(x, i) <==> exists j: nat :: i <= j < i + d && Bit(x0, j)
  }

  lemma Smear(x0: nat, x: nat, d: nat)
    requires Smeared(x0, x, d)
    ensures Smeared(x0, Or(x, Shr(x, d)), 2 * d)
  {
    var y := Or(x, Shr(x, d));
    forall i: nat
      ensures Bit(y, i) <==> exists j: nat :: i <= j < i + 2 * d && Bit(x0, j)
    {
      BitOr(x, Shr(x, d), i);
      BitShr(x, d, i);
      assert Bit(x, i) <==> exists j: nat :: i <= j < i + d && Bit(x0, j);
      assert Bit(x, d + i) <==> exists j: nat :: d + i <= j < d + i + d && Bit(x0, j);
    }
  }

  /** Among bits whose highest is h, a window of more than h places from i on holds one exactly if i is at most h. */
  lemma WindowBelowTop(bits: nat -> bool, h: nat, i: nat)
    requires h < 32 && bits(h) && forall j: nat :: bits(j) ==> j <= h
    ensures (exists j: nat :: i <= j < i + 32 && bits(j)) <==> i <= h
  {
  }

  /** Smearing a positive number over 32 places fills it up to its highest bit. */
  lemma SmearedIsFull(x0: nat, x: nat, h: nat)
    requires Smeared(x0, x, 32) && h < 32
    requires Bit(x0, h) && forall i: nat :: Bit(x0, i) ==> i <= h
    ensures x == Pow2(h + 1) - 1
  {
    forall i: nat
      ensures Bit(x, i) <==> Bit(Pow2(h + 1) - 1, i)
    {
      SmearedBit(x0, x, h, i);
    }
    SameBits(x, Pow2(h + 1) - 1);
  }

  lemma SmearedBit(x0: nat, x: nat, h: nat, i: nat)
    requires Smeared(x0, x, 32) && h < 32
    requires Bit(x0, h) && forall j: nat :: Bit(x0, j) ==> j <= h
    ensures Bit(x, i) <==> Bit(Pow2(h + 1) - 1, i)
  {
    var bits := (j: nat) => Bit(x0, j);
    BitOnes(h + 1, i);
    WindowBelowTop(bits, h, i);
    if Bit(x, i) {
      var j: nat :| i <= j < i + 32 && Bit(x0, j);
      assert bits(j);
    }
    if exists j: nat :: i <= j < i + 32 && bits(j) {
      var j: nat :| i <= j < i + 32 && bits(j);
      assert Bit(x0, j);
      assert Bit(x, i);
    }
  }

  lemma PowersOf32()
    ensures Pow2(31) == 0x8000_0000 && Pow2(32) == UINT32
  {
    assert Pow2(8) == 0x100;
    assert Pow2(16) == 0x1_0000;
    assert Pow2(24) == 0x100_0000;
    assert Pow2(31) == 0x8000_0000;
  }

  ghost predicate IsPow2(n: nat) {
    exists k: nat :: n == Pow2(k)
  }

  /**
   Round up to a power of two in 32 bits: the least power of two that is at least x when there is one
   below 2^32, and 0 by wrap-around when there is none.
   */
  method Pow2RoundUp(x0: nat) returns (r: nat)
    requires x0 < UINT32
    ensures x0 <= 0x8000_0000 ==> IsPow2(r) && x0 <= r && forall k: nat :: x0 <= Pow2(k) ==> r <= Pow2(k)
    ensures x0 > 0x8000_0000 ==> r == 0
  {
    PowersOf32();
    if x0 == 0 {
      assert Pow2(0) == 1;
      return 1;
    }
    var x := x0 - 1;
    ghost var y := x;
    assert Smeared(y, x, 1);
    x := Or(x, Shr(x, 1));
    Smear(y, y, 1);
    Smear(y, x, 2);
    x := Or(x, Shr(x, 2));
    Smear(y, x, 4);
    x := Or(x, Shr(x, 4));
    Smear(y, x, 8);
    x := Or(x, Shr(x, 8));
    Smear(y, x, 16);
    x := Or(x, Shr(x, 16));
    r := FinishRounding(x0, x);
  }

  /** The final increment, with what the smeared value makes of it. */
  method FinishRounding(x0: nat, x: nat) returns (r: nat)
    requires 0 < x0 < UINT32 && Smeared(x0 - 1, x, 32)
    ensures x0 <= 0x8000_0000 ==> IsPow2(r) && x0 <= r && forall k: nat :: x0 <= Pow2(k) ==> r <= Pow2(k)
    ensures x0 > 0x8000_0000 ==> r == 0
  {
    PowersOf32();
    r := (x + 1) % UINT32;
    if x0 == 1 {
      SmearedNothing(x);
      assert Pow2(0) == 1;
    } else {
      var h := TopBit(x0 - 1);
      PowerAbove(x0 - 1, h);
      SmearedIsFull(x0 - 1, x, h);
      LeastPower(x0, h);
    }
  }

  lemma PowerAbove(y: nat, h: nat)
    requires Pow2(h) <= y < Pow2(h + 1) && y < UINT32
    ensures h < 32
    ensures if y < 0x8000_0000 then Pow2(h + 1) <= 0x8000_0000 else Pow2(h + 1) == UINT32
  {
    PowersOf32();
    if h >= 32 { Pow2Monotone(32, h); }
    if h <= 30 { Pow2Monotone(h + 1, 31); }
  }

  lemma SmearedNothing(x: nat)
    requires Smeared(0, x, 32)
    ensures x == 0
  {
    forall j: nat
      ensures !Bit(0, j)
    {
      BitZero(j);
    }
    SameBits(x, 0);
  }

  lemma LeastPower(x: nat, h: nat)
    requires Pow2(h) < x
    ensures forall k: nat :: x <= Pow2(k) ==> Pow2(h + 1) <= Pow2(k)
  {
    forall k: nat | x <= Pow2(k)
      ensures Pow2(h + 1) <= Pow2(k)
    {
      if k <= h {
        Pow2Monotone(k, h);
      } else {
        Pow2Monotone(h + 1, k);
      }
    }
  }
}
