/** The BIP-173 checksum register: one step, whole runs, linearity, and what it detects. */
module Checksum {
  import opened Binary

  const GENERATORS: seq<nat> := [0x3B6A57B2, 0x26508E6D, 0x1EA119FA, 0x3D4233DD, 0x2A1462B3]

  // A symbol doubled in the field of 32 elements that BIP-173 works in.
  function Doubled(symbol: nat): nat {
    var d := 2 * symbol % 32;
    if symbol < 16 then d else if d / 8 % 2 == 0 then d + 9 else d - 7
  }

  // Six symbols, coefficients of a polynomial of degree five, as a 30-bit word.
  datatype Sextet = Sextet(a: nat, b: nat, c: nat, d: nat, e: nat, f: nat)

  function Packed(s: Sextet): nat {
    s.a * 0x200_0000 + s.b * 0x10_0000 + s.c * 0x8000 + s.d * 0x400 + s.e * 0x20 + s.f
  }

  function DoubledAll(s: Sextet): Sextet {
    Sextet(Doubled(s.a), Doubled(s.b), Doubled(s.c), Doubled(s.d), Doubled(s.e), Doubled(s.f))
  }

  // The five constants are the lower coefficients of the generator polynomial that BIP-173 gives,
  // x^6 + 29 x^5 + 22 x^4 + 20 x^3 + 21 x^2 + 29 x + 18, doubled once more for each.
  lemma GeneratorPolynomial()
    returns (g: Sextet)
    ensures g == Sextet(29, 22, 20, 21, 29, 18)
    ensures GENERATORS[0] == Packed(g) && GENERATORS[1] == Packed(DoubledAll(g))
    ensures GENERATORS[2] == Packed(DoubledAll(DoubledAll(g)))
    ensures GENERATORS[3] == Packed(DoubledAll(DoubledAll(DoubledAll(g))))
    ensures GENERATORS[4] == Packed(DoubledAll(DoubledAll(DoubledAll(DoubledAll(g)))))
  {
    g := Sextet(29, 22, 20, 21, 29, 18);
    assert DoubledAll(g) == Sextet(19, 5, 1, 3, 19, 13);
    assert DoubledAll(Sextet(19, 5, 1, 3, 19, 13)) == Sextet(15, 10, 2, 6, 15, 26);
    assert DoubledAll(Sextet(15, 10, 2, 6, 15, 26)) == Sextet(30, 20, 4, 12, 30, 29);
    assert DoubledAll(Sextet(30, 20, 4, 12, 30, 29)) == Sextet(21, 1, 8, 24, 21, 19);
  }

  predicate Selected(top: nat, index: nat) {
    ShiftRight(top, index) % 2 == 1
  }

  // The register after the first `count` generators have been considered.
  function Mix(top: nat, count: nat, register: nat): nat
    requires count <= 5
  {
    if count == 0 then register
    else
      var mixed := Mix(top, count - 1, register);
      if Selected(top, count - 1) then Xor(mixed, GENERATORS[count - 1]) else mixed
  }

  function Shifted(register: nat, value: nat): nat {
    Xor(32 * LowBits(register, 25), value)
  }

  function Step(register: nat, value: nat): nat {
    Mix(ShiftRight(register, 25), 5, Shifted(register, value))
  }

  function Run(register: nat, values: seq<nat>): nat
    decreases |values|
  {
    if values == [] then register else Run(Step(register, values[0]), values[1..])
  }

  method Polymod(values: seq<nat>) returns (checksum: nat)
    ensures checksum == Run(1, values)
  {
    checksum := 1;
    for i := 0 to |values|
      invariant Run(checksum, values[i..]) == Run(1, values)
    {
      var value := values[i];
      assert values[i..][1..] == values[i + 1..];
      ghost var before := checksum;
      var top := ShiftRight(checksum, 25);
      checksum := Shifted(checksum, value);
      for index := 0 to |GENERATORS|
        invariant checksum == Mix(top, index, Shifted(before, value))
      {
        if Selected(top, index) {
          checksum := Xor(checksum, GENERATORS[index]);
        }
      }
    }
  }

  lemma {:induction false} RunAppend(register: nat, u: seq<nat>, v: seq<nat>)
    ensures Run(register, u + v) == Run(Run(register, u), v)
    decreases |u|
  {
    if u == [] {
      assert u + v == v;
    } else {
      assert (u + v)[1..] == u[1..] + v;
      RunAppend(Step(register, u[0]), u[1..], v);
    }
  }

  // ---- linearity -------------------------------------------------------

  lemma SelectedXor(t: nat, u: nat, index: nat)
    ensures Selected(Xor(t, u), index) <==> Selected(t, index) != Selected(u, index)
  {
    XorShiftRight(t, u, index);
    XorHalf(ShiftRight(t, index), ShiftRight(u, index));
  }

  lemma XorBoth(p: nat, q: nat, g: nat)
    ensures Xor(Xor(p, g), q) == Xor(Xor(p, q), g)
    ensures Xor(p, Xor(q, g)) == Xor(Xor(p, q), g)
    ensures Xor(Xor(p, g), Xor(q, g)) == Xor(p, q)
  {
    XorAssociative(p, g, q);
    XorAssociative(p, q, g);
    XorSymmetric(g, q);
    XorInterchange(p, g, q, g);
    XorCancels(g, g);
    XorZero(Xor(p, q));
  }

  lemma XorChoice(p: nat, q: nat, g: nat, x: bool, y: bool)
    ensures Xor(if x then Xor(p, g) else p, if y then Xor(q, g) else q)
         == if x != y then Xor(Xor(p, q), g) else Xor(p, q)
  {
    XorBoth(p, q, g);
  }

  lemma {:induction false} MixLinear(t: nat, u: nat, count: nat, c: nat, d: nat)
    requires count <= 5
    ensures Mix(Xor(t, u), count, Xor(c, d)) == Xor(Mix(t, count, c), Mix(u, count, d))
  {
    if count > 0 {
      MixLinear(t, u, count - 1, c, d);
      SelectedXor(t, u, count - 1);
      XorChoice(Mix(t, count - 1, c), Mix(u, count - 1, d), GENERATORS[count - 1],
                Selected(t, count - 1), Selected(u, count - 1));
    }
  }

  lemma XorTimes32(p: nat, q: nat)
    ensures Xor(32 * p, 32 * q) == 32 * Xor(p, q)
  {
    XorShiftLeft(p, q, 0, 0);
    XorZero(0);
  }

  lemma ShiftedLinear(c: nat, d: nat, v: nat, w: nat)
    ensures Shifted(Xor(c, d), Xor(v, w)) == Xor(Shifted(c, v), Shifted(d, w))
  {
    XorMask(c, d, 25);
    XorTimes32(LowBits(c, 25), LowBits(d, 25));
    XorInterchange(32 * LowBits(c, 25), v, 32 * LowBits(d, 25), w);
  }

  lemma StepLinear(c: nat, d: nat, v: nat, w: nat)
    ensures Step(Xor(c, d), Xor(v, w)) == Xor(Step(c, v), Step(d, w))
  {
    ShiftedLinear(c, d, v, w);
    XorShiftRight(c, d, 25);
    MixLinear(ShiftRight(c, 25), ShiftRight(d, 25), 5, Shifted(c, v), Shifted(d, w));
  }

  function XorAll(u: seq<nat>, v: seq<nat>): (w: seq<nat>)
    requires |u| == |v|
    ensures |w| == |u|
  {
    seq(|u|, i requires 0 <= i < |u| => Xor(u[i], v[i]))
  }

  // The checksum of a combined message is the combination of the checksums.
  lemma {:induction false} RunLinear(c: nat, d: nat, u: seq<nat>, v: seq<nat>)
    requires |u| == |v|
    ensures Run(Xor(c, d), XorAll(u, v)) == Xor(Run(c, u), Run(d, v))
    decreases |u|
  {
    if u != [] {
      StepLinear(c, d, u[0], v[0]);
      assert XorAll(u, v)[1..] == XorAll(u[1..], v[1..]);
      RunLinear(Step(c, u[0]), Step(d, v[0]), u[1..], v[1..]);
    }
  }

  // ---- the register is thirty bits wide --------------------------------

  lemma {:induction false} MixBound(top: nat, count: nat, register: nat)
    requires count <= 5 && register < Pow2(30)
    ensures Mix(top, count, register) < Pow2(30)
  {
    if count > 0 {
      MixBound(top, count - 1, register);
      Pow2Values();
      XorBound(Mix(top, count - 1, register), GENERATORS[count - 1], 30);
    }
  }

  lemma StepBound(register: nat, value: nat)
    requires value < Pow2(30)
    ensures Step(register, value) < Pow2(30)
  {
    Pow2Values();
    XorBound(32 * LowBits(register, 25), value, 30);
    MixBound(ShiftRight(register, 25), 5, Shifted(register, value));
  }

  lemma {:induction false} MixZero(count: nat, register: nat)
    requires count <= 5
    ensures Mix(0, count, register) == register
  {
    if count > 0 {
      MixZero(count - 1, register);
      assert ShiftRight(0, count - 1) == 0 by { DivUnique(0, Pow2(count - 1), 0, 0); }
    }
  }

  lemma XorAppends(register: nat, value: nat)
    requires value < 32
    ensures Xor(32 * register, value) == 32 * register + value
  {
    XorShiftLeft(register, 0, 0, value);
    XorZero(register);
    XorSymmetric(0, value);
    XorZero(value);
  }

  // Without a carry out of the top five bits a step only appends a symbol.
  lemma StepAppends(register: nat, value: nat)
    requires register < Pow2(25) && value < 32
    ensures Step(register, value) == 32 * register + value
  {
    DivUnique(register, Pow2(25), 0, register);
    MixZero(5, Shifted(register, value));
    XorAppends(register, value);
  }

  lemma {:induction false} MixOffset(top: nat, count: nat, register: nat)
    requires count <= 5
    ensures Mix(top, count, register) == Xor(register, Mix(top, count, 0))
  {
    MixLinear(0, top, count, register, 0);
    MixZero(count, register);
    XorSymmetric(0, top);
    XorZero(top);
    XorZero(register);
  }

  // ---- what the checksum detects ---------------------------------------

  lemma MixBit(top: nat, count: nat, bit: nat)
    requires 0 < count <= 5
    ensures Selected(Mix(top, count, 0), bit) <==>
            Selected(Mix(top, count - 1, 0), bit) != (Selected(top, count - 1) && Selected(GENERATORS[count - 1], bit))
  {
    SelectedXor(Mix(top, count - 1, 0), GENERATORS[count - 1], bit);
  }

  // Bit `bit` of the combined generators is a parity of the carry bits.
  ghost predicate Parity(top: nat, bit: nat) {
    ((((Selected(top, 0) && Selected(0x3B6A57B2, bit))
    != (Selected(top, 1) && Selected(0x26508E6D, bit)))
    != (Selected(top, 2) && Selected(0x1EA119FA, bit)))
    != (Selected(top, 3) && Selected(0x3D4233DD, bit)))
    != (Selected(top, 4) && Selected(0x2A1462B3, bit))
  }

  lemma MixParity(top: nat, bit: nat)
    ensures Selected(Mix(top, 5, 0), bit) <==> Parity(top, bit)
  {
    MixBit(top, 1, bit);
    MixBit(top, 2, bit);
    MixBit(top, 3, bit);
    MixBit(top, 4, bit);
    MixBit(top, 5, bit);
    ZeroBit(bit);
  }

  lemma ZeroBit(bit: nat)
    ensures !Selected(0, bit)
  {
    DivUnique(0, Pow2(bit), 0, 0);
  }

  lemma LowFive(value: nat)
    ensures Selected(value, 0) <==> value % 2 == 1
    ensures Selected(value, 1) <==> (value / 2) % 2 == 1
    ensures Selected(value, 2) <==> (value / 4) % 2 == 1
    ensures Selected(value, 3) <==> (value / 8) % 2 == 1
    ensures Selected(value, 4) <==> (value / 16) % 2 == 1
  {
    Pow2Values();
  }

  // The low five bits of the generators are 18, 13, 26, 29 and 19.
  lemma GeneratorBits(bit: nat)
    requires bit < 5
    ensures Selected(0x3B6A57B2, bit) <==> bit == 1 || bit == 4
    ensures Selected(0x26508E6D, bit) <==> bit == 0 || bit == 2 || bit == 3
    ensures Selected(0x1EA119FA, bit) <==> bit == 1 || bit == 3 || bit == 4
    ensures Selected(0x3D4233DD, bit) <==> bit != 1
    ensures Selected(0x2A1462B3, bit) <==> bit == 0 || bit == 1 || bit == 4
  {
    LowFive(0x3B6A57B2);
    LowFive(0x26508E6D);
    LowFive(0x1EA119FA);
    LowFive(0x3D4233DD);
    LowFive(0x2A1462B3);
  }

  ghost predicate LowParity(top: nat, bit: nat) {
    ((((Selected(top, 0) && (bit == 1 || bit == 4))
    != (Selected(top, 1) && (bit == 0 || bit == 2 || bit == 3)))
    != (Selected(top, 2) && (bit == 1 || bit == 3 || bit == 4)))
    != (Selected(top, 3) && bit != 1))
    != (Selected(top, 4) && (bit == 0 || bit == 1 || bit == 4))
  }

  lemma CarryCancelled(top: nat, low: nat, bit: nat)
    requires Mix(top, 5, 0) == 32 * low && bit < 5
    ensures !LowParity(top, bit)
  {
    FiveBits(32 * low);
    NoLowBit(32 * low, 5, bit);
    MixParity(top, bit);
    LowParityIsParity(top, bit);
  }

  lemma LowParityIsParity(top: nat, bit: nat)
    requires bit < 5
    ensures Parity(top, bit) <==> LowParity(top, bit)
  {
    GeneratorBits(bit);
  }

  lemma {:induction false} NoLowBit(value: nat, k: nat, bit: nat)
    requires LowBits(value, k) == 0 && bit < k
    ensures !Selected(value, bit)
    decreases k
  {
    HalveShift(value, k);
    if bit > 0 {
      HalveShift(value, bit);
      NoLowBit(value / 2, k - 1, bit - 1);
    }
  }

  // Five carries whose generators cancel in the low five bits are all zero.
  lemma CarriesIndependent(top: nat)
    requires top < 32
    requires !LowParity(top, 0) && !LowParity(top, 1) && !LowParity(top, 2) && !LowParity(top, 3) && !LowParity(top, 4)
    ensures top == 0
  {
    LowFive(top);
  }

  // A step over a zero symbol never loses information.
  lemma ZeroStepKernel(register: nat)
    requires register < Pow2(30) && Step(register, 0) == 0
    ensures register == 0
  {
    var low, top := LowBits(register, 25), ShiftRight(register, 25);
    XorZero(32 * low);
    MixOffset(top, 5, 32 * low);
    XorCancels(32 * low, Mix(top, 5, 0));
    CarryCancelled(top, low, 0);
    CarryCancelled(top, low, 1);
    CarryCancelled(top, low, 2);
    CarryCancelled(top, low, 3);
    CarryCancelled(top, low, 4);
    TopCarries(register);
    CarriesIndependent(top);
    MixZero(5, 0);
  }

  // A step with symbol 0 takes different 30-bit registers to different ones.
  lemma ZeroStepInjective(a: nat, b: nat)
    requires a < Pow2(30) && b < Pow2(30)
    ensures Step(a, 0) == Step(b, 0) <==> a == b
  {
    if Step(a, 0) == Step(b, 0) {
      StepLinear(a, b, 0, 0);
      XorZero(0);
      XorCancels(Step(a, 0), Step(b, 0));
      XorBound(a, b, 30);
      ZeroStepKernel(Xor(a, b));
      XorCancels(a, b);
    }
  }

  lemma TopCarries(register: nat)
    requires register < Pow2(30)
    ensures ShiftRight(register, 25) < 32
    ensures register == 0x200_0000 * ShiftRight(register, 25) + LowBits(register, 25)
  {
    Pow2Values();
  }

  // ---- bursts ----------------------------------------------------------

  ghost predicate Symbols(values: seq<nat>) {
    forall i :: 0 <= i < |values| ==> values[i] < 32
  }

  lemma ZeroStepAlive(register: nat)
    requires 0 < register < Pow2(30)
    ensures 0 < Step(register, 0) < Pow2(30)
  {
    if Step(register, 0) == 0 {
      ZeroStepKernel(register);
    }
    StepBound(register, 0);
  }

  lemma StepWidens(register: nat, width: nat, value: nat)
    requires 0 < register < Pow2(5 * width) && width <= 5 && value < 32
    ensures 0 < Step(register, value) < Pow2(5 * (width + 1))
  {
    Pow2Grows(width, 5);
    StepAppends(register, value);
    SymbolWider(width);
  }

  lemma SymbolWider(width: nat)
    ensures Pow2(5 * (width + 1)) == 32 * Pow2(5 * width)
  {
    Pow2Add(5, 5 * width);
    Pow2Values();
  }

  // A non-zero register of `width` symbols keeps a trace of itself while at most
  // 6 - width further non-zero symbols arrive.
  lemma {:induction false} TraceRemains(register: nat, width: nat, values: seq<nat>)
    requires 0 < register < Pow2(5 * width) && width <= 6
    requires Symbols(values)
    requires forall i :: 6 - width <= i < |values| ==> values[i] == 0
    ensures Run(register, values) != 0
    decreases |values|
  {
    if values != [] {
      if width == 6 {
        ZeroStepAlive(register);
        TraceRemains(Step(register, 0), 6, values[1..]);
      } else {
        StepWidens(register, width, values[0]);
        TraceRemains(Step(register, values[0]), width + 1, values[1..]);
      }
    }
  }

  lemma Pow2Grows(j: nat, k: nat)
    requires j <= k
    ensures Pow2(5 * j) <= Pow2(5 * k)
  {
    if j < k {
      Pow2Grows(j, k - 1);
      Pow2Add(5, 5 * (k - 1));
      Pow2Values();
    }
  }

  // An error pattern that starts with zeros and lives in six consecutive positions.
  lemma {:induction false} PatternSeen(pattern: seq<nat>, start: nat)
    requires Symbols(pattern)
    requires forall i :: 0 <= i < |pattern| && !(start <= i < start + 6) ==> pattern[i] == 0
    requires exists i :: 0 <= i < |pattern| && pattern[i] != 0
    ensures Run(0, pattern) != 0
    decreases |pattern|
  {
    assert 0 < Pow2(25);
    StepAppends(0, pattern[0]);
    if pattern[0] == 0 {
      PatternSeen(pattern[1..], if start == 0 then 0 else start - 1);
    } else {
      Pow2Values();
      TraceRemains(pattern[0], 1, pattern[1..]);
    }
  }

  // Two symbol strings of any length that differ only inside a window of six
  // positions never leave the same register behind.
  lemma BurstDetected(register: nat, u: seq<nat>, v: seq<nat>, start: nat)
    requires |u| == |v| && Symbols(u) && Symbols(v)
    requires u != v
    requires forall i :: 0 <= i < |u| && !(start <= i < start + 6) ==> u[i] == v[i]
    ensures Run(register, u) != Run(register, v)
  {
    var pattern := XorAll(u, v);
    RunLinear(register, register, u, v);
    XorCancels(register, register);
    forall i | 0 <= i < |u|
      ensures pattern[i] < 32 && (pattern[i] == 0 <==> u[i] == v[i])
    {
      Pow2Values();
      XorBound(u[i], v[i], 5);
      XorCancels(u[i], v[i]);
    }
    PatternSeen(pattern, start);
    XorCancels(Run(register, u), Run(register, v));
  }
}
