/** Database keys of receipts, receipt lookups, spent markers and canonical block hashes. */
module CxKeys {
  import opened Base
  import opened Binary
  import opened Regroup

  type Bytes = seq<nat>

  // The bytes of "cxReceipt", "cx", "cxReceiptSpent", "h" and "n".
  const RECEIPT_PREFIX: Bytes := [99, 120, 82, 101, 99, 101, 105, 112, 116]
  const LOOKUP_PREFIX: Bytes := [99, 120]
  const SPENT_PREFIX: Bytes := [99, 120, 82, 101, 99, 101, 105, 112, 116, 83, 112, 101, 110, 116]

  function Zeros(count: nat): (b: Bytes)
    ensures |b| == count
  {
    if count == 0 then [] else Zeros(count - 1) + [0]
  }

  type Hash = b: Bytes | |b| == 32 ghost witness Zeros(32)

  lemma Pow2At64()
    ensures Pow2(8 * 8) == U64
  {
    Pow2Values();
    Pow2Add(30, 30);
    Pow2Add(60, 4);
  }

  // Numbers of 32 and 64 bits, most significant byte first.
  function Big32(number: nat): (b: Bytes)
    ensures |b| == 4
  {
    Digits(number, 8, 4)
  }

  function Big64(number: nat): (b: Bytes)
    ensures |b| == 8
  {
    Digits(number, 8, 8)
  }

  function ReceiptKey(destination: nat, number: nat, hash: Hash): Bytes {
    RECEIPT_PREFIX + Big32(destination) + Big64(number) + hash
  }

  function LookupKey(hash: Hash): Bytes {
    LOOKUP_PREFIX + hash
  }

  function SpentKey(source: nat, number: nat): Bytes {
    SPENT_PREFIX + Big32(source) + Big64(number)
  }

  function CanonicalKey(number: nat): Bytes {
    [104] + Big64(number) + [110]
  }

  datatype KeyParts = KeyParts(destination: nat, number: nat, hash: Hash)

  function ReceiptKeyParts(key: Bytes): Option<KeyParts> {
    if |key| != 53 || !(RECEIPT_PREFIX <= key) then None
    else Some(KeyParts(Value(key[9..13], 8), Value(key[13..21], 8), key[21..]))
  }

  lemma ReceiptKeySlices(destination: nat, number: nat, hash: Hash)
    ensures var key := ReceiptKey(destination, number, hash);
            |key| == 53 && RECEIPT_PREFIX <= key && key[9..13] == Big32(destination)
            && key[13..21] == Big64(number) && key[21..] == hash
  {
  }

  // Writing a receipt key and reading it again gives the parts back.
  lemma KeyRoundTrip(destination: nat, number: nat, hash: Hash)
    requires destination < Pow2(8 * 4) && number < Pow2(8 * 8)
    ensures ReceiptKeyParts(ReceiptKey(destination, number, hash)) == Some(KeyParts(destination, number, hash))
  {
    ReceiptKeySlices(destination, number, hash);
    ValueOfDigits(destination, 8, 4);
    ValueOfDigits(number, 8, 8);
  }

  // A key that is read is the key of its parts, so no two keys have the same parts.
  lemma PartsRoundTrip(key: Bytes)
    requires Fits(key, 8) && ReceiptKeyParts(key).Some?
    ensures var parts := ReceiptKeyParts(key).value;
            key == ReceiptKey(parts.destination, parts.number, parts.hash)
  {
    var first, second := key[9..13], key[13..21];
    DigitsOfValue(first, 8);
    DigitsOfValue(second, 8);
    assert key == key[..9] + first + second + key[21..];
  }

  // The prefixes are the texts that the databases use.
  lemma PrefixTexts()
    ensures forall i :: 0 <= i < |RECEIPT_PREFIX| ==> RECEIPT_PREFIX[i] == "cxReceipt"[i] as nat
    ensures forall i :: 0 <= i < |LOOKUP_PREFIX| ==> LOOKUP_PREFIX[i] == "cx"[i] as nat
    ensures forall i :: 0 <= i < |SPENT_PREFIX| ==> SPENT_PREFIX[i] == "cxReceiptSpent"[i] as nat
    ensures |RECEIPT_PREFIX| == |"cxReceipt"| && |LOOKUP_PREFIX| == |"cx"| && |SPENT_PREFIX| == |"cxReceiptSpent"|
  {
  }

  // A spent marker's key holds the source shard and then the block, big-endian; a canonical hash's
  // key holds its block between `h` and `n`.
  lemma SpentKeyHolds(source: nat, number: nat)
    requires source < Pow2(8 * 4) && number < Pow2(8 * 8)
    ensures var key := SpentKey(source, number);
            |key| == 26 && SPENT_PREFIX <= key && Value(key[14..18], 8) == source && Value(key[18..], 8) == number
  {
    ValueOfDigits(source, 8, 4);
    ValueOfDigits(number, 8, 8);
    var key := SpentKey(source, number);
    assert key[14..18] == Big32(source) && key[18..] == Big64(number);
  }

  lemma CanonicalKeyHolds(number: nat)
    requires number < Pow2(8 * 8)
    ensures var key := CanonicalKey(number);
            |key| == 10 && key[0] == 'h' as nat && key[9] == 'n' as nat && Value(key[1..9], 8) == number
  {
    ValueOfDigits(number, 8, 8);
    assert CanonicalKey(number)[1..9] == Big64(number);
  }

  lemma BigInjective(m: nat, n: nat)
    requires m < Pow2(8 * 8) && n < Pow2(8 * 8) && Big64(m) == Big64(n)
    ensures m == n
  {
    ValueOfDigits(m, 8, 8);
    ValueOfDigits(n, 8, 8);
  }

  lemma CanonicalKeyInjective(m: nat, n: nat)
    requires m < Pow2(8 * 8) && n < Pow2(8 * 8) && CanonicalKey(m) == CanonicalKey(n)
    ensures m == n
  {
    assert CanonicalKey(m)[1..9] == Big64(m) && CanonicalKey(n)[1..9] == Big64(n);
    BigInjective(m, n);
  }

  lemma LookupKeyInjective(h: Hash, i: Hash)
    requires LookupKey(h) == LookupKey(i)
    ensures h == i
  {
    assert LookupKey(h)[2..] == h && LookupKey(i)[2..] == i;
  }

  // The four kinds of key never meet: their lengths differ.
  lemma KeysDisjoint(destination: nat, number: nat, hash: Hash, lookup: Hash, source: nat, spent: nat, block: nat)
    ensures |ReceiptKey(destination, number, hash)| == 53 && |LookupKey(lookup)| == 34
    ensures |SpentKey(source, spent)| == 26 && |CanonicalKey(block)| == 10
  {
  }

  // The keys the snapshot takes from an iteration over the prefix are the lookup keys.
  lemma LookupKeysByLength(key: Bytes)
    ensures |key| == 34 && LOOKUP_PREFIX <= key <==> exists hash: Hash :: key == LookupKey(hash)
  {
    if |key| == 34 && LOOKUP_PREFIX <= key {
      assert key == LookupKey(key[2..]);
    }
  }
}
