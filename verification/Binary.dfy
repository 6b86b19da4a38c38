/** Exclusive or, shifts and masks on unbounded non-negative integers, as Python computes them. */
module Binary {

  function Pow2(k: nat): (p: nat)
    ensures p > 0
  {
    if k == 0 then 1 else 2 * Pow2(k - 1)
  }

  function Xor(a: nat, b: nat): nat
    decreases a + b
  {
    if a == 0 && b == 0 then 0
    else 2 * Xor(a / 2, b / 2) + (if a % 2 != b % 2 then 1 else 0)
  }

  // a >> k
  function ShiftRight(a: nat, k: nat): nat {
    assert a / Pow2(k) >= 0 by { QuotientNonNegative(a, Pow2(k)); }
    a / Pow2(k)
  }

  // a & ((1 << k) - 1)
  function LowBits(a: nat, k: nat): nat {
    a % Pow2(k)
  }

  lemma QuotientNonNegative(a: nat, d: nat)
    requires d > 0
    ensures a / d >= 0
  {
    SignOfQuotient(a / d, a % d, d);
  }

  lemma SignOfQuotient(q: int, r: int, d: int)
    requires 0 <= r < d && q * d + r >= 0
    ensures q >= 0
  {
    if q < 0 {
      MulAtLeast(-q, d);
    }
  }

  lemma MulAssociates(a: int, b: int, c: int)
    ensures (a * b) * c == a * (b * c)
  {
  }

  lemma {:induction false} Pow2Add(j: nat, k: nat)
    ensures Pow2(j + k) == Pow2(j) * Pow2(k)
    decreases j
  {
    if j == 0 {
      assert Pow2(0) == 1;
    } else {
      Pow2Add(j - 1, k);
      MulAssociates(2, Pow2(j - 1), Pow2(k));
    }
  }

  lemma Pow2Values()
    ensures Pow2(1) == 2 && Pow2(2) == 4 && Pow2(3) == 8 && Pow2(4) == 16 && Pow2(5) == 32
    ensures Pow2(8) == 0x100 && Pow2(20) == 0x10_0000 && Pow2(25) == 0x200_0000 && Pow2(30) == 0x4000_0000
  {
    assert Pow2(10) == 1024;
    assert Pow2(20) == 1024 * Pow2(10);
    assert Pow2(25) == 32 * Pow2(20);
    assert Pow2(30) == 32 * Pow2(25);
  }

  // Turns that halving a range of some width can take: the bits of the width.
  function Bits(width: nat): nat {
    if width == 0 then 0 else 1 + Bits(width / 2)
  }

  lemma {:induction false} BitsBound(width: nat)
    ensures width < Pow2(Bits(width)) && (width > 0 ==> Pow2(Bits(width) - 1) <= width)
    decreases width
  {
    if width > 0 {
      BitsBound(width / 2);
    }
  }

  lemma {:induction false} BitsMonotone(v: nat, w: nat)
    requires v <= w
    ensures Bits(v) <= Bits(w)
    decreases w
  {
    if v > 0 {
      BitsMonotone(v / 2, w / 2);
    }
  }

  lemma QuotientUnique(d: int, q: int, r: int, q': int, r': int)
    requires 0 <= r < d && 0 <= r' < d
    requires q * d + r == q' * d + r'
    ensures q == q' && r == r'
  {
    if q < q' {
      Distribute(q', q, d);
      MulAtLeast(q' - q, d);
    } else if q' < q {
      Distribute(q, q', d);
      MulAtLeast(q - q', d);
    }
  }

  lemma MulAtLeast(k: int, d: int)
    requires k >= 1 && d >= 0
    ensures k * d >= d
  {
  }

  lemma Distribute(a: int, b: int, d: int)
    ensures (a - b) * d == a * d - b * d
  {
  }

  // Quotient and remainder are determined by the division equation.
  lemma DivUnique(a: int, d: int, q: int, r: int)
    requires 0 <= r < d && a == q * d + r
    ensures a / d == q && a % d == r
  {
    QuotientUnique(d, q, r, a / d, a % d);
  }

  lemma DivDiv(a: nat, x: nat, y: nat)
    requires x > 0 && y > 0
    ensures x * y > 0 && a / (x * y) == (a / x) / y
  {
    var q, r := a / x, a % x;
    var s, t := q / y, q % y;
    assert a == q * x + r;
    assert q == s * y + t;
    NestedQuotient(x, y, s, t, r);
    DivUnique(a, x * y, s, t * x + r);
  }

  lemma NestedQuotient(x: nat, y: nat, s: nat, t: nat, r: nat)
    requires x > 0 && y > 0 && t < y && r < x
    ensures (s * y + t) * x + r == s * (x * y) + (t * x + r)
    ensures 0 <= t * x + r < x * y
  {
    assert (s * y + t) * x == (s * y) * x + t * x;
    assert (s * y) * x == s * (y * x);
    assert (y - t) * x == y * x - t * x;
    MulAtLeast(y - t, x);
  }

  lemma HalveShift(a: nat, k: nat)
    requires k > 0
    ensures ShiftRight(a, k) == ShiftRight(a / 2, k - 1)
    ensures LowBits(a, k) == 2 * LowBits(a / 2, k - 1) + a % 2
  {
    var p := Pow2(k - 1);
    var q, r := (a / 2) / p, (a / 2) % p;
    calc {
      a;
      2 * (a / 2) + a % 2;
      2 * (q * p + r) + a % 2;
      q * (2 * p) + (2 * r + a % 2);
    }
    DivUnique(a, 2 * p, q, 2 * r + a % 2);
  }

  // ---- algebra of Xor --------------------------------------------------

  lemma XorParts(a: nat, b: nat, i: nat, j: nat)
    requires i < 2 && j < 2
    ensures Xor(2 * a + i, 2 * b + j) == 2 * Xor(a, b) + (if i != j then 1 else 0)
  {
    assert (2 * a + i) / 2 == a && (2 * b + j) / 2 == b;
  }

  lemma XorHalf(a: nat, b: nat)
    ensures Xor(a, b) / 2 == Xor(a / 2, b / 2)
    ensures Xor(a, b) % 2 == (if a % 2 != b % 2 then 1 else 0)
  {
  }

  lemma {:induction false} XorZero(a: nat)
    ensures Xor(a, 0) == a
  {
    if a > 0 {
      XorZero(a / 2);
    }
  }

  lemma {:induction false} XorSymmetric(a: nat, b: nat)
    ensures Xor(a, b) == Xor(b, a)
    decreases a + b
  {
    if a + b > 0 {
      XorSymmetric(a / 2, b / 2);
    }
  }

  lemma {:induction false} XorAssociative(a: nat, b: nat, c: nat)
    ensures Xor(Xor(a, b), c) == Xor(a, Xor(b, c))
    decreases a + b + c
  {
    if a + b + c > 0 {
      XorAssociative(a / 2, b / 2, c / 2);
      XorHalf(a, b);
      XorHalf(b, c);
      XorHalf(Xor(a, b), c);
      XorHalf(a, Xor(b, c));
    }
  }

  // The only way to cancel to zero is to be equal.
  lemma {:induction false} XorCancels(a: nat, b: nat)
    ensures Xor(a, b) == 0 <==> a == b
    decreases a + b
  {
    if a + b > 0 {
      XorCancels(a / 2, b / 2);
    }
  }

  lemma XorInterchange(a: nat, b: nat, c: nat, d: nat)
    ensures Xor(Xor(a, b), Xor(c, d)) == Xor(Xor(a, c), Xor(b, d))
  {
    calc {
      Xor(Xor(a, b), Xor(c, d));
      { XorAssociative(a, b, Xor(c, d)); }
      Xor(a, Xor(b, Xor(c, d)));
      { XorAssociative(b, c, d); XorSymmetric(b, c); XorAssociative(c, b, d); }
      Xor(a, Xor(c, Xor(b, d)));
      { XorAssociative(a, c, Xor(b, d)); }
      Xor(Xor(a, c), Xor(b, d));
    }
  }

  lemma XorUndo(a: nat, b: nat)
    ensures Xor(a, Xor(a, b)) == b
  {
    XorAssociative(a, a, b);
    XorCancels(a, a);
    XorSymmetric(0, b);
    XorZero(b);
  }

  lemma ShiftByNothing(a: nat)
    ensures ShiftRight(a, 0) == a
  {
  }

  // Shifting right and masking are linear over exclusive or.
  lemma {:induction false} XorShiftRight(a: nat, b: nat, k: nat)
    ensures ShiftRight(Xor(a, b), k) == Xor(ShiftRight(a, k), ShiftRight(b, k))
    decreases k
  {
    if k == 0 {
      ShiftByNothing(a);
      ShiftByNothing(b);
      ShiftByNothing(Xor(a, b));
    } else {
      XorHalf(a, b);
      HalveShift(a, k);
      HalveShift(b, k);
      HalveShift(Xor(a, b), k);
      XorShiftRight(a / 2, b / 2, k - 1);
    }
  }

  lemma {:induction false} XorMask(a: nat, b: nat, k: nat)
    ensures LowBits(Xor(a, b), k) == Xor(LowBits(a, k), LowBits(b, k))
    decreases k
  {
    if k > 0 {
      HalveShift(a, k);
      HalveShift(b, k);
      HalveShift(Xor(a, b), k);
      XorMask(a / 2, b / 2, k - 1);
      XorHalf(a, b);
      XorParts(LowBits(a / 2, k - 1), LowBits(b / 2, k - 1), a % 2, b % 2);
    }
  }

  lemma {:induction false} XorBound(a: nat, b: nat, k: nat)
    requires a < Pow2(k) && b < Pow2(k)
    ensures Xor(a, b) < Pow2(k)
  {
    if k > 0 {
      XorBound(a / 2, b / 2, k - 1);
    }
  }

  // Five new low bits: shifting left is linear, and filling the freed bits is addition.
  lemma XorShiftLeft(a: nat, b: nat, v: nat, w: nat)
    requires v < 32 && w < 32
    ensures Xor(32 * a + v, 32 * b + w) == 32 * Xor(a, b) + Xor(v, w)
  {
    var x, y := 32 * a + v, 32 * b + w;
    calc {
      Xor(x, y);
      { FiveBits(Xor(x, y)); }
      32 * ShiftRight(Xor(x, y), 5) + LowBits(Xor(x, y), 5);
      { XorShiftRight(x, y, 5); XorMask(x, y, 5); }
      32 * Xor(ShiftRight(x, 5), ShiftRight(y, 5)) + Xor(LowBits(x, 5), LowBits(y, 5));
      { FiveBitsJoined(a, v); FiveBitsJoined(b, w); }
      32 * Xor(a, b) + Xor(v, w);
    }
  }

  lemma FiveBits(x: nat)
    ensures ShiftRight(x, 5) == x / 32 && LowBits(x, 5) == x % 32
    ensures x == 32 * ShiftRight(x, 5) + LowBits(x, 5)
  {
    Pow2Values();
  }

  lemma FiveBitsJoined(a: nat, v: nat)
    requires v < 32
    ensures ShiftRight(32 * a + v, 5) == a && LowBits(32 * a + v, 5) == v
  {
    FiveBits(32 * a + v);
  }
}
