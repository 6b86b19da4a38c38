/** Shared vocabulary: optional and failing results, counting, and 64-bit unsigned arithmetic. */
module Base {
  import opened Binary

  datatype Option<+T> = None | Some(value: T)

  datatype Result<+T, +E> = Ok(value: T) | Err(error: E)

  function Bit(b: bool): nat {
    if b then 1 else 0
  }

  // How many elements of a sequence are chosen.
  function CountWhere<T>(s: seq<T>, chosen: T -> bool): nat
    decreases |s|
  {
    if s == [] then 0 else CountWhere(s[..|s| - 1], chosen) + Bit(chosen(s[|s| - 1]))
  }

  // What the elements of a sequence add up to.
  function SumBy<T>(s: seq<T>, amount: T -> int): int
    decreases |s|
  {
    if s == [] then 0 else SumBy(s[..|s| - 1], amount) + amount(s[|s| - 1])
  }

  // No element twice.
  ghost predicate Different<T>(s: seq<T>) {
    forall i, j :: 0 <= i < j < |s| ==> s[i] != s[j]
  }

  lemma DifferentMore<T>(s: seq<T>, x: T)
    ensures Different(s + [x]) <==> Different(s) && x !in s
  {
    var more := s + [x];
    assert more[|s|] == x;
    if Different(more) {
      assert forall i :: 0 <= i < |s| ==> s[i] == more[i];
    }
  }

  const U64: nat := 0x1_0000_0000_0000_0000

  // An unsigned 64-bit number of the programs.
  type Uint64 = n: nat | n < 0x1_0000_0000_0000_0000

  // Addition and subtraction that wrap around at 64 bits.
  function Wrap(n: int): Uint64 {
    n % 0x1_0000_0000_0000_0000
  }

  lemma WrapShift(x: int, k: int)
    ensures Wrap(x + k * U64) == Wrap(x)
  {
    var q, r := x / U64, x % U64;
    assert x + k * U64 == (q + k) * U64 + r;
    DivUnique(x + k * U64, U64, q + k, r);
  }

  lemma WrapAdd(a: int, b: int)
    ensures Wrap(Wrap(a) + b) == Wrap(a + b)
    ensures Wrap(a + Wrap(b)) == Wrap(a + b)
  {
    WrapShift(a + b, -(a / U64));
    WrapShift(a + b, -(b / U64));
  }

  lemma WrapIdentity(n: nat)
    requires n < U64
    ensures Wrap(n) == n
  {
  }
}
