/** Regrouping a stream of fixed-width values into values of another width. */
module Regroup {
  import opened Binary

  // Big-endian value of a digit string.
  function Value(digits: seq<nat>, width: nat): nat {
    if digits == [] then 0
    else Value(digits[..|digits| - 1], width) * Pow2(width) + digits[|digits| - 1]
  }

  // The last `count` big-endian digits of a number.
  function Digits(number: nat, width: nat, count: nat): (d: seq<nat>)
    ensures |d| == count
    ensures forall i :: 0 <= i < count ==> d[i] < Pow2(width)
    decreases count, number
  {
    if count == 0 then []
    else Digits(ShiftRight(number, width), width, count - 1) + [LowBits(number, width)]
  }

  ghost predicate Fits(digits: seq<nat>, width: nat) {
    forall i :: 0 <= i < |digits| ==> digits[i] < Pow2(width)
  }

  // accumulator << k
  function ShiftLeft(accumulator: nat, k: nat): nat {
    accumulator * Pow2(k)
  }

  lemma ShiftAppend(a: nat, v: nat, width: nat)
    requires v < Pow2(width)
    ensures ShiftRight(a * Pow2(width) + v, width) == a
    ensures LowBits(a * Pow2(width) + v, width) == v
  {
    DivUnique(a * Pow2(width) + v, Pow2(width), a, v);
  }

  lemma ShiftTwice(a: nat, j: nat, k: nat)
    ensures ShiftRight(a, j + k) == ShiftRight(ShiftRight(a, j), k)
  {
    Pow2Add(j, k);
    DivDiv(a, Pow2(j), Pow2(k));
  }

  lemma ShiftRejoin(a: nat, k: nat)
    ensures a == ShiftRight(a, k) * Pow2(k) + LowBits(a, k)
    ensures LowBits(a, k) < Pow2(k)
  {
  }

  // Digit strings of one length are determined by their value.
  lemma {:induction false} DigitsOfValue(digits: seq<nat>, width: nat)
    requires Fits(digits, width)
    ensures Digits(Value(digits, width), width, |digits|) == digits
    decreases |digits|
  {
    if digits != [] {
      var front, last := digits[..|digits| - 1], digits[|digits| - 1];
      ShiftAppend(Value(front, width), last, width);
      DigitsOfValue(front, width);
    }
  }

  lemma {:induction false} ValueOfDigits(number: nat, width: nat, count: nat)
    requires number < Pow2(width * count)
    ensures Value(Digits(number, width, count), width) == number
    decreases count
  {
    if count > 0 {
      RestFits(number, width, count);
      ValueOfDigits(ShiftRight(number, width), width, count - 1);
      LastDigit(number, width, count);
    }
  }

  lemma RestFits(number: nat, width: nat, count: nat)
    requires count > 0 && number < Pow2(width * count)
    ensures ShiftRight(number, width) < Pow2(width * (count - 1))
  {
    MulNonNegative(width, count - 1);
    OneMore(count - 1, width);
    RestBelow(number, width, width * (count - 1), width * count);
  }

  lemma MulNonNegative(a: nat, b: nat)
    ensures a * b >= 0
  {
  }

  lemma RestBelow(number: nat, width: nat, bits: nat, total: nat)
    requires total == bits + width && number < Pow2(total)
    ensures ShiftRight(number, width) < Pow2(bits)
  {
    Pow2Add(bits, width);
    DivideBelow(number, Pow2(width), Pow2(bits));
  }

  lemma DivideBelow(a: nat, d: nat, bound: nat)
    requires d > 0 && a < bound * d
    ensures a / d < bound
  {
    QuotientBelow(a / d, a % d, d, bound);
  }

  lemma QuotientBelow(q: int, r: nat, d: nat, bound: nat)
    requires q * d + r < bound * d
    ensures q < bound
  {
    if q >= bound {
      MulMonotone(bound, q, d);
    }
  }

  lemma LastDigit(number: nat, width: nat, count: nat)
    requires count > 0
    requires Value(Digits(ShiftRight(number, width), width, count - 1), width) == ShiftRight(number, width)
    ensures Value(Digits(number, width, count), width) == number
  {
    var d := Digits(number, width, count);
    assert d[..|d| - 1] == Digits(ShiftRight(number, width), width, count - 1);
    ShiftRejoin(number, width);
  }

  lemma MulMonotone(a: nat, b: nat, m: nat)
    requires a <= b
    ensures a * m <= b * m
  {
  }

  lemma NextBelow(a: nat, b: nat, m: nat, v: nat)
    requires a < b && v < m
    ensures a * m + v < b * m
  {
    MulMonotone(a + 1, b, m);
    assert (a + 1) * m == a * m + m;
  }

  lemma {:induction false} ValueBound(digits: seq<nat>, width: nat)
    requires Fits(digits, width)
    ensures Value(digits, width) < Pow2(width * |digits|)
    decreases |digits|
  {
    if digits != [] {
      var front, last := digits[..|digits| - 1], digits[|digits| - 1];
      ValueBound(front, width);
      assert width * |digits| == width * |front| + width;
      Pow2Add(width * |front|, width);
      NextBelow(Value(front, width), Pow2(width * |front|), Pow2(width), last);
    }
  }

  // The values emitted so far, every bit read so far, and how many of the last
  // bits read have not been emitted.
  datatype Regrouped = Regrouped(whole: seq<nat>, accumulator: nat, bits: nat)

  // What the loop leaves behind, told from the number that the input spells out.
  function Regrouping(values: seq<nat>, fromBits: nat, toBits: nat): (r: Regrouped)
    requires toBits > 0
    ensures r.bits < toBits && Fits(r.whole, toBits)
  {
    var total := fromBits * |values|;
    var number := Value(values, fromBits);
    Regrouped(Digits(ShiftRight(number, total % toBits), toBits, total / toBits), number, total % toBits)
  }

  // Reading one more value.
  lemma Absorb(values: seq<nat>, i: nat, fromBits: nat, accumulator: nat, bits: nat, toBits: nat, output: seq<nat>)
    requires i < |values| && Fits(values, fromBits)
    requires accumulator == Value(values[..i], fromBits)
    requires output == Digits(ShiftRight(accumulator, bits), toBits, |output|)
    ensures accumulator * Pow2(fromBits) + values[i] == Value(values[..i + 1], fromBits)
    ensures output == Digits(ShiftRight(accumulator * Pow2(fromBits) + values[i], bits + fromBits), toBits, |output|)
  {
    assert values[..i + 1][..i] == values[..i];
    ShiftPast(accumulator, values[i], fromBits, bits);
  }

  lemma ShiftPast(a: nat, v: nat, width: nat, k: nat)
    requires v < Pow2(width)
    ensures ShiftRight(a * Pow2(width) + v, k + width) == ShiftRight(a, k)
  {
    MulNonNegative(a, Pow2(width));
    ShiftAppend(a, v, width);
    ShiftOn(a * Pow2(width) + v, a, width, k);
  }

  lemma ShiftOn(x: nat, y: nat, j: nat, k: nat)
    requires ShiftRight(x, j) == y
    ensures ShiftRight(x, k + j) == ShiftRight(y, k)
  {
    ShiftTwice(x, j, k);
  }

  lemma Emit(accumulator: nat, bits: nat, toBits: nat, output: seq<nat>)
    requires output == Digits(ShiftRight(accumulator, bits + toBits), toBits, |output|)
    ensures output + [LowBits(ShiftRight(accumulator, bits), toBits)]
         == Digits(ShiftRight(accumulator, bits), toBits, |output| + 1)
    ensures (|output| + 1) * toBits == |output| * toBits + toBits
  {
    ShiftTwice(accumulator, bits, toBits);
    NextDigit(ShiftRight(accumulator, bits), toBits, output);
    OneMore(|output|, toBits);
  }

  lemma NextDigit(number: nat, width: nat, output: seq<nat>)
    requires output == Digits(ShiftRight(number, width), width, |output|)
    ensures output + [LowBits(number, width)] == Digits(number, width, |output| + 1)
  {
  }

  lemma OneMore(n: nat, m: nat)
    ensures (n + 1) * m == n * m + m && m * (n + 1) == m * n + m
  {
  }

  // The regrouping loop that the encoder and both decoders share: consume
  // from-bit values, emit to-bit values as soon as enough bits are there.
  method RegroupBits(values: seq<nat>, fromBits: nat, toBits: nat) returns (r: Regrouped)
    requires 0 < fromBits && 0 < toBits && Fits(values, fromBits)
    ensures r == Regrouping(values, fromBits, toBits)
  {
    var accumulator: nat := 0;
    var bits: nat := 0;
    var output: seq<nat> := [];
    assert output == Digits(ShiftRight(0, 0), toBits, 0);
    for i := 0 to |values|
      invariant accumulator == Value(values[..i], fromBits)
      invariant |output| * toBits + bits == fromBits * i && bits < toBits
      invariant output == Digits(ShiftRight(accumulator, bits), toBits, |output|)
    {
      ghost var before := accumulator;
      accumulator := accumulator * Pow2(fromBits) + values[i];
      bits := bits + fromBits;
      OneMore(i, fromBits);
      Absorb(values, i, fromBits, before, bits - fromBits, toBits, output);
      while bits >= toBits
        invariant |output| * toBits + bits == fromBits * (i + 1)
        invariant output == Digits(ShiftRight(accumulator, bits), toBits, |output|)
      {
        bits := bits - toBits;
        Emit(accumulator, bits, toBits, output);
        output := output + [LowBits(ShiftRight(accumulator, bits), toBits)];
      }
    }
    assert values[..|values|] == values;
    DivUnique(fromBits * |values|, toBits, |output|, bits);
    r := Regrouped(output, accumulator, bits);
  }

  // Five bits at a time for bytes, the last symbol filled up with zero bits.
  function Padded(values: seq<nat>, fromBits: nat, toBits: nat): (d: seq<nat>)
    requires toBits > 0
    ensures Fits(d, toBits)
  {
    var r := Regrouping(values, fromBits, toBits);
    if r.bits == 0 then r.whole
    else r.whole + [LowBits(ShiftLeft(r.accumulator, toBits - r.bits), toBits)]
  }

  lemma ShiftLeftRight(a: nat, k: nat)
    ensures ShiftRight(ShiftLeft(a, k), k) == a && LowBits(ShiftLeft(a, k), k) == 0
  {
    DivUnique(a * Pow2(k), Pow2(k), a, 0);
  }

  // Filling up the last symbol spells out the same number, moved left by the fill.
  lemma PaddedValue(raw: seq<nat>) returns (fill: nat)
    requires Fits(raw, 8)
    ensures fill < 5 && 5 * |Padded(raw, 8, 5)| == 8 * |raw| + fill
    ensures Value(Padded(raw, 8, 5), 5) == ShiftLeft(Value(raw, 8), fill)
  {
    var r := Regrouping(raw, 8, 5);
    var number, d := r.accumulator, Padded(raw, 8, 5);
    fill := if r.bits == 0 then 0 else 5 - r.bits;
    if r.bits > 0 {
      ShiftTwice(ShiftLeft(number, fill), fill, r.bits);
      ShiftLeftRight(number, fill);
      NextDigit(ShiftLeft(number, fill), 5, r.whole);
    } else {
      assert ShiftRight(number, 0) == number == ShiftLeft(number, 0);
    }
    assert d == Digits(ShiftLeft(number, fill), 5, |d|);
    ValueBound(raw, 8);
    Pow2Add(8 * |raw|, fill);
    ShiftBelow(number, Pow2(8 * |raw|), Pow2(fill));
    ValueOfDigits(ShiftLeft(number, fill), 5, |d|);
  }

  lemma ShiftBelow(a: nat, b: nat, m: nat)
    requires a < b && m > 0
    ensures a * m < b * m
  {
    NextBelow(a, b, m, 0);
  }

  // Byte strings of any length survive the way to five-bit symbols and back.
  lemma RegroupRoundTrip(raw: seq<nat>)
    requires Fits(raw, 8)
    ensures Regrouping(Padded(raw, 8, 5), 5, 8).whole == raw
    ensures LowBits(Regrouping(Padded(raw, 8, 5), 5, 8).accumulator, Regrouping(Padded(raw, 8, 5), 5, 8).bits) == 0
  {
    var fill := PaddedValue(raw);
    var d := Padded(raw, 8, 5);
    DivUnique(5 * |d|, 8, |raw|, fill);
    ShiftLeftRight(Value(raw, 8), fill);
    DigitsOfValue(raw, 8);
  }

  // Thirty-two symbols survive the way to twenty bytes and back.
  lemma SymbolsRoundTrip(symbols: seq<nat>)
    requires Fits(symbols, 5) && |symbols| == 32
    ensures Padded(Regrouping(symbols, 5, 8).whole, 8, 5) == symbols
  {
    var number := Value(symbols, 5);
    ValueBound(symbols, 5);
    var raw := Regrouping(symbols, 5, 8).whole;
    assert ShiftRight(number, 0) == number;
    ValueOfDigits(number, 8, 20);
    assert Value(raw, 8) == number;
    DigitsOfValue(symbols, 5);
  }
}
