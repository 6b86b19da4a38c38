/** The `one1` address codec: the encoder and the two decoders that were written independently of it. */
module Bech32 {
  import opened Base
  import opened Binary
  import opened Checksum
  import opened Regroup

  // ---- characters ------------------------------------------------------

  // charset.index(c), with None for the ValueError
  function IndexOf(charset: string, c: char): (r: Option<nat>)
    ensures r.Some? ==> r.value < |charset| && charset[r.value] == c
    ensures r.None? ==> c !in charset
  {
    if charset == "" then None
    else if charset[0] == c then Some(0)
    else
      match IndexOf(charset[1..], c)
      case None => None
      case Some(i) => Some(i + 1)
  }

  // Thirty-two different characters, none of them upper case or the separator.
  ghost predicate IsAlphabet(text: string) {
    && |text| == 32
    && (forall i :: 0 <= i < |text| ==> IndexOf(text, text[i]) == Some(i))
    && (forall c :: c in text ==> c != '1' && !('A' <= c <= 'Z'))
  }

  lemma IndexOfDistinct(text: string)
    requires forall i, j :: 0 <= i < j < |text| ==> text[i] != text[j]
    ensures forall i :: 0 <= i < |text| ==> IndexOf(text, text[i]) == Some(i)
  {
    forall i | 0 <= i < |text|
      ensures IndexOf(text, text[i]) == Some(i)
    {
      var k := IndexOf(text, text[i]).value;
      assert text[k] == text[i];
    }
  }

  lemma CharsetDistinct(i: nat, j: nat)
    requires i < j < 32
    ensures "qpzry9x8gf2tvdw0s3jn54khce6mua7l"[i] != "qpzry9x8gf2tvdw0s3jn54khce6mua7l"[j]
  {
  }

  lemma CharsetPlain(text: string, i: nat)
    requires text == "qpzry9x8gf2tvdw0s3jn54khce6mua7l" && i < |text|
    ensures text[i] != '1' && !('A' <= text[i] <= 'Z')
  {
  }

  lemma CharsetIsAlphabet(text: string)
    requires text == "qpzry9x8gf2tvdw0s3jn54khce6mua7l"
    ensures IsAlphabet(text)
  {
    forall i, j | 0 <= i < j < |text|
      ensures text[i] != text[j]
    {
      CharsetDistinct(i, j);
    }
    forall i | 0 <= i < |text|
      ensures text[i] != '1' && !('A' <= text[i] <= 'Z')
    {
      CharsetPlain(text, i);
    }
    PlainDistinct(text);
  }

  lemma PlainDistinct(text: string)
    requires |text| == 32
    requires forall i, j :: 0 <= i < j < |text| ==> text[i] != text[j]
    requires forall i :: 0 <= i < |text| ==> text[i] != '1' && !('A' <= text[i] <= 'Z')
    ensures IsAlphabet(text)
  {
    IndexOfDistinct(text);
  }

  // CHARSET of the programs is the witness; nothing below depends on another property of it.
  type Alphabet = text: string | IsAlphabet(text)
    witness (CharsetIsAlphabet("qpzry9x8gf2tvdw0s3jn54khce6mua7l"); "qpzry9x8gf2tvdw0s3jn54khce6mua7l")

  function SymbolsOf(charset: string, text: string): (r: Option<seq<nat>>)
    ensures r.Some? <==> forall i :: 0 <= i < |text| ==> text[i] in charset
    ensures r.Some? ==> |r.value| == |text|
    ensures r.Some? ==> forall i :: 0 <= i < |text| ==> IndexOf(charset, text[i]) == Some(r.value[i])
  {
    if text == "" then Some([])
    else
      var front := SymbolsOf(charset, text[..|text| - 1]);
      var last := IndexOf(charset, text[|text| - 1]);
      if front.None? || last.None? then None else Some(front.value + [last.value])
  }

  lemma SymbolsFit(values: seq<nat>)
    ensures Symbols(values) <==> Fits(values, 5)
  {
    Pow2Values();
  }

  function TextOf(charset: Alphabet, symbols: seq<nat>): (text: string)
    requires Symbols(symbols)
    ensures |text| == |symbols| && forall i :: 0 <= i < |text| ==> text[i] == charset[symbols[i]]
  {
    seq(|symbols|, i requires 0 <= i < |symbols| => charset[symbols[i]])
  }

  lemma SymbolsOfText(charset: Alphabet, symbols: seq<nat>)
    requires Symbols(symbols)
    ensures SymbolsOf(charset, TextOf(charset, symbols)) == Some(symbols)
  {
    var text := TextOf(charset, symbols);
    assert SymbolsOf(charset, text).value == symbols;
  }

  lemma TextOfSymbols(charset: Alphabet, text: string)
    requires SymbolsOf(charset, text).Some?
    ensures Symbols(SymbolsOf(charset, text).value)
    ensures TextOf(charset, SymbolsOf(charset, text).value) == text
  {
    var symbols := SymbolsOf(charset, text).value;
    assert forall i :: 0 <= i < |text| ==> charset[symbols[i]] == text[i];
  }

  // value == value.lower(), for the letters that have another case in ASCII
  predicate LowerCase(text: string) {
    forall i :: 0 <= i < |text| ==> !('A' <= text[i] <= 'Z')
  }

  predicate Harmony(text: string) {
    LowerCase(text) && "one1" <= text
  }

  // text.rfind("1") of a text that contains it
  function LastSeparator(text: string): (r: nat)
    requires '1' in text
    ensures r < |text| && text[r] == '1' && '1' !in text[r + 1..]
  {
    var last := |text| - 1;
    if text[last] == '1' then last
    else
      assert text == text[..last] + [text[last]];
      var r := LastSeparator(text[..last]);
      assert text[r + 1..] == text[..last][r + 1..] + [text[last]];
      r
  }

  function HrpExpand(hrp: string): (values: seq<nat>)
  {
    seq(|hrp|, i requires 0 <= i < |hrp| => hrp[i] as nat / 32) + [0] +
    seq(|hrp|, i requires 0 <= i < |hrp| => hrp[i] as nat % 32)
  }

  // The high bits of every character, a zero, and the low bits, in that order.
  lemma HrpExpandExact(hrp: string, i: nat)
    requires i < |hrp|
    ensures |HrpExpand(hrp)| == 2 * |hrp| + 1 && HrpExpand(hrp)[|hrp|] == 0
    ensures HrpExpand(hrp)[i] * 32 + HrpExpand(hrp)[|hrp| + 1 + i] == hrp[i] as nat
    ensures HrpExpand(hrp)[|hrp| + 1 + i] < 32
  {
  }

  lemma HrpExpandOne()
    ensures HrpExpand("one") == [3, 3, 3, 0, 15, 14, 5]
  {
    assert 'o' as nat == 111 && 'n' as nat == 110 && 'e' as nat == 101;
  }

  // data[:-6] and data[-6:] of a Python list
  function Payload(data: seq<nat>): seq<nat> {
    if |data| < 6 then [] else data[..|data| - 6]
  }

  // ---- decoders --------------------------------------------------------

  datatype Parts = Parts(hrp: string, data: seq<nat>)

  // What both decoders read off an address before they look at the checksum.
  function Split(charset: Alphabet, address: string): Option<Parts>
    requires '1' in address
  {
    var separator := LastSeparator(address);
    match SymbolsOf(charset, address[separator + 1..])
    case None => None
    case Some(data) => Some(Parts(address[..separator], data))
  }

  // Text without a separator after text that ends with one.
  lemma SplitJoined(charset: Alphabet, prefix: string, body: string)
    requires |prefix| > 0 && prefix[|prefix| - 1] == '1'
    requires SymbolsOf(charset, body).Some?
    ensures '1' in prefix + body && LastSeparator(prefix + body) == |prefix| - 1
    ensures Split(charset, prefix + body) == Some(Parts(prefix[..|prefix| - 1], SymbolsOf(charset, body).value))
  {
    var text, at := prefix + body, |prefix| - 1;
    assert text[at] == '1';
    assert '1' !in body by {
      assert forall i :: 0 <= i < |body| ==> body[i] in charset;
    }
    SeparatorUnique(text, at, body);
    assert text[..at] == prefix[..at];
  }

  lemma SeparatorUnique(text: string, at: nat, rest: string)
    requires at < |text| && text[at] == '1' && text[at + 1..] == rest && '1' !in rest
    ensures LastSeparator(text) == at
  {
  }

  function Register(parts: Parts): nat {
    Run(1, HrpExpand(parts.hrp) + parts.data)
  }

  function TwentyBytes(r: Regrouped): Option<seq<nat>> {
    if |r.whole| == 20 then Some(r.whole) else None
  }

  // `decode_bech32`: checks the sum of any data and masks the left-over bits of the accumulator.
  function AcceptListed(parts: Parts): Option<seq<nat>> {
    if Register(parts) != 1 then None
    else
      var r := Regrouping(Payload(parts.data), 5, 8);
      if r.bits != 0 && LowBits(r.accumulator, r.bits) != 0 then None else TwentyBytes(r)
  }

  // `decode_address`: refuses short data and pads the left-over bits out to a byte.
  function AcceptTraced(parts: Parts): Option<seq<nat>> {
    if |parts.data| < 6 || Register(parts) != 1 then None
    else
      var r := Regrouping(parts.data[..|parts.data| - 6], 5, 8);
      if r.bits != 0 && LowBits(ShiftLeft(r.accumulator, 8 - r.bits), 8) != 0 then None else TwentyBytes(r)
  }

  function DecodeListed(charset: Alphabet, address: string): Option<seq<nat>> {
    if !Harmony(address) then None
    else
      assert address[3] == '1';
      var parts := Split(charset, address);
      if parts.None? then None else AcceptListed(parts.value)
  }

  function DecodeTraced(charset: Alphabet, address: string): Option<seq<nat>> {
    if !Harmony(address) then None
    else
      assert address[3] == '1';
      var parts := Split(charset, address);
      if parts.None? then None else AcceptTraced(parts.value)
  }

  lemma ScaledRemainder(q: nat, m: nat, low: nat, up: nat)
    requires low < m && up > 0
    ensures ((q * m + low) * up) % (m * up) == low * up
  {
    assert (q * m + low) * up == (q * m) * up + low * up;
    assert (q * m) * up == q * (m * up);
    assert (m - low) * up == m * up - low * up;
    MulAtLeast(m - low, up);
    DivUnique((q * m + low) * up, m * up, q, low * up);
  }

  lemma PaddingChecksAgree(accumulator: nat, bits: nat)
    requires bits < 8
    ensures LowBits(ShiftLeft(accumulator, 8 - bits), 8) == 0 <==> LowBits(accumulator, bits) == 0
  {
    var low := LowBits(accumulator, bits);
    Pow2Add(bits, 8 - bits);
    ShiftRejoin(accumulator, bits);
    ScaledRemainder(ShiftRight(accumulator, bits), Pow2(bits), low, Pow2(8 - bits));
    if low > 0 {
      MulAtLeast(low, Pow2(8 - bits));
    }
  }

  lemma AcceptancesAgree(parts: Parts)
    ensures AcceptListed(parts) == AcceptTraced(parts)
  {
    var r := Regrouping(Payload(parts.data), 5, 8);
    PaddingChecksAgree(r.accumulator, r.bits);
  }

  // The two decoders accept the same addresses and return the same twenty bytes.
  lemma DecodersAgree(charset: Alphabet, address: string)
    ensures DecodeListed(charset, address) == DecodeTraced(charset, address)
  {
    if Harmony(address) {
      assert address[3] == '1';
      var parts := Split(charset, address);
      if parts.Some? {
        AcceptancesAgree(parts.value);
      }
    }
  }

  // ---- encoder ---------------------------------------------------------

  // The six appended symbols: (polymod >> 5 * (5 - index)) & 31 for index 0 to 5.
  function ChecksumSymbols(register: nat): seq<nat> {
    Digits(Xor(Run(register, [0, 0, 0, 0, 0, 0]), 1), 5, 6)
  }

  lemma ChecksumSymbolAt(number: nat, index: nat)
    requires index < 6
    ensures Digits(number, 5, 6)[index] == LowBits(ShiftRight(number, 5 * (5 - index)), 5)
  {
    DigitAt(number, 6, index);
  }

  lemma {:induction false} DigitAt(number: nat, count: nat, index: nat)
    requires index < count
    ensures Digits(number, 5, count)[index] == LowBits(ShiftRight(number, 5 * (count - 1 - index)), 5)
    decreases count
  {
    if index < count - 1 {
      DigitAt(ShiftRight(number, 5), count - 1, index);
      ShiftTwice(number, 5, 5 * (count - 2 - index));
    } else {
      assert ShiftRight(number, 0) == number;
    }
  }

  lemma {:induction false} RunFromZero(values: seq<nat>)
    requires Symbols(values) && |values| <= 6
    ensures Run(0, values) == Value(values, 5)
    decreases |values|
  {
    Pow2Values();
    if values != [] {
      var front, last := values[..|values| - 1], values[|values| - 1];
      assert values == front + [last];
      RunAppend(0, front, [last]);
      RunFromZero(front);
      ValueBound(front, 5);
      Pow2Grows(|front|, 5);
      StepAppends(Value(front, 5), last);
    }
  }

  // Whatever came before, the appended symbols bring the register to 1.
  lemma ChecksumCloses(register: nat)
    ensures Symbols(ChecksumSymbols(register)) && |ChecksumSymbols(register)| == 6
    ensures Run(register, ChecksumSymbols(register)) == 1
  {
    var zeros := [0, 0, 0, 0, 0, 0];
    var open, symbols := Run(register, zeros), ChecksumSymbols(register);
    Pow2Values();
    RunAppend(register, [0, 0, 0, 0, 0], [0]);
    assert [0, 0, 0, 0, 0] + [0] == zeros;
    StepBound(Run(register, [0, 0, 0, 0, 0]), 0);
    XorBound(open, 1, 30);
    ValueOfDigits(Xor(open, 1), 5, 6);
    RunFromZero(symbols);
    forall i | 0 <= i < 6
      ensures XorAll(zeros, symbols)[i] == symbols[i]
    {
      XorSymmetric(0, symbols[i]);
      XorZero(symbols[i]);
    }
    assert XorAll(zeros, symbols) == symbols;
    RunLinear(register, 0, zeros, symbols);
    XorZero(register);
    XorUndo(open, 1);
  }

  // "one1", the payload and its checksum
  function Sealed(charset: Alphabet, payload: seq<nat>): (text: string)
    requires Symbols(payload)
    ensures |text| == 10 + |payload|
  {
    var register := Run(1, HrpExpand("one") + payload);
    ChecksumCloses(register);
    "one1" + TextOf(charset, payload + ChecksumSymbols(register))
  }

  // `to_bech32` of an address given as its bytes
  function Encode(charset: Alphabet, raw: seq<nat>): Option<string>
    requires Fits(raw, 8)
  {
    SymbolsFit(Padded(raw, 8, 5));
    if |raw| != 20 then None else Some(Sealed(charset, Padded(raw, 8, 5)))
  }

  lemma SplitAfterOne(charset: Alphabet, body: string)
    requires SymbolsOf(charset, body).Some?
    ensures '1' in "one1" + body && Split(charset, "one1" + body) == Some(Parts("one", SymbolsOf(charset, body).value))
  {
    var prefix := "one1";
    assert prefix[..3] == "one" && prefix[3] == '1';
    SplitJoined(charset, prefix, body);
  }

  lemma SealedParts(charset: Alphabet, payload: seq<nat>)
    requires Symbols(payload)
    ensures Harmony(Sealed(charset, payload)) && '1' in Sealed(charset, payload)
    ensures Split(charset, Sealed(charset, payload))
         == Some(Parts("one", payload + ChecksumSymbols(Run(1, HrpExpand("one") + payload))))
  {
    var register := Run(1, HrpExpand("one") + payload);
    ChecksumCloses(register);
    var data := payload + ChecksumSymbols(register);
    SymbolsOfText(charset, data);
    HarmonyText(charset, TextOf(charset, data));
    SplitAfterOne(charset, TextOf(charset, data));
  }

  lemma HarmonyText(charset: Alphabet, body: string)
    requires forall i :: 0 <= i < |body| ==> body[i] in charset
    ensures Harmony("one1" + body)
  {
  }

  lemma SealedCloses(message: seq<nat>)
    ensures |ChecksumSymbols(Run(1, message))| == 6
    ensures Run(1, message + ChecksumSymbols(Run(1, message))) == 1
  {
    ChecksumCloses(Run(1, message));
    RunAppend(1, message, ChecksumSymbols(Run(1, message)));
  }

  lemma SealedAccepted(hrp: string, payload: seq<nat>)
    ensures var parts := Parts(hrp, payload + ChecksumSymbols(Run(1, HrpExpand(hrp) + payload)));
            Register(parts) == 1 && |parts.data| >= 6 && Payload(parts.data) == payload
  {
    var tail := ChecksumSymbols(Run(1, HrpExpand(hrp) + payload));
    SealedCloses(HrpExpand(hrp) + payload);
    SealedPayload(payload, tail);
    JoinedInTurn(HrpExpand(hrp), payload, tail);
  }

  lemma JoinedInTurn(head: seq<nat>, payload: seq<nat>, tail: seq<nat>)
    ensures head + (payload + tail) == (head + payload) + tail
  {
  }

  lemma SealedPayload(payload: seq<nat>, tail: seq<nat>)
    requires |tail| == 6
    ensures Payload(payload + tail) == payload && |payload + tail| >= 6
  {
  }

  // A sealed payload decodes to whatever its bits regroup to.
  lemma SealedDecodes(charset: Alphabet, payload: seq<nat>)
    requires Symbols(payload)
    requires var r := Regrouping(payload, 5, 8); LowBits(r.accumulator, r.bits) == 0 && |r.whole| == 20
    ensures DecodeListed(charset, Sealed(charset, payload)) == Some(Regrouping(payload, 5, 8).whole)
  {
    SealedParts(charset, payload);
    SealedAccepted("one", payload);
    var parts := Split(charset, Sealed(charset, payload)).value;
    assert AcceptListed(parts) == Some(Regrouping(payload, 5, 8).whole);
  }

  // The checksum that BIP-173 asks for: the expansion of `one` and the symbols of an encoded text
  // leave register 1, and so do those of every decoded text with that prefix.
  lemma EncodedRegister(charset: Alphabet, raw: seq<nat>)
    requires Fits(raw, 8) && |raw| == 20
    ensures var address := Encode(charset, raw).value;
            address[..4] == "one1" && SymbolsOf(charset, address[4..]).Some?
            && Run(1, [3, 3, 3, 0, 15, 14, 5] + SymbolsOf(charset, address[4..]).value) == 1
  {
    var payload := Padded(raw, 8, 5);
    SymbolsFit(payload);
    HrpExpandOne();
    SealedAccepted("one", payload);
    ChecksumCloses(Run(1, HrpExpand("one") + payload));
    var data := payload + ChecksumSymbols(Run(1, HrpExpand("one") + payload));
    SymbolsOfText(charset, data);
    assert Encode(charset, raw).value[4..] == TextOf(charset, data);
  }

  lemma DecodedRegister(charset: Alphabet, body: string)
    requires SymbolsOf(charset, body).Some?
    requires DecodeListed(charset, "one1" + body).Some? || DecodeTraced(charset, "one1" + body).Some?
    ensures Run(1, [3, 3, 3, 0, 15, 14, 5] + SymbolsOf(charset, body).value) == 1
  {
    HrpExpandOne();
    SplitAfterOne(charset, body);
  }

  // An accepted text has no capitals, begins with `one1`, and has only symbols after its last `1`.
  lemma AcceptedShape(charset: Alphabet, address: string)
    requires DecodeListed(charset, address).Some? || DecodeTraced(charset, address).Some?
    ensures |address| >= 4 && address[0] == 'o' && address[1] == 'n' && address[2] == 'e' && address[3] == '1'
    ensures forall i :: 0 <= i < |address| ==> !('A' <= address[i] <= 'Z')
    ensures '1' in address && forall i :: LastSeparator(address) < i < |address| ==> address[i] in charset
  {
    OnePrefix(address);
    SymbolsBehind(charset, address, LastSeparator(address));
  }

  lemma OnePrefix(address: string)
    requires Harmony(address)
    ensures |address| >= 4 && address[0] == 'o' && address[1] == 'n' && address[2] == 'e' && address[3] == '1'
  {
  }

  lemma SymbolsBehind(charset: Alphabet, address: string, separator: nat)
    requires separator < |address| && SymbolsOf(charset, address[separator + 1..]).Some?
    ensures forall i :: separator < i < |address| ==> address[i] in charset
  {
    forall i | separator < i < |address| ensures address[i] in charset {
      assert address[separator + 1..][i - separator - 1] == address[i];
    }
  }

  // Decoding undoes encoding, for every twenty-byte address.
  lemma DecodeEncoded(charset: Alphabet, raw: seq<nat>)
    requires Fits(raw, 8) && |raw| == 20
    ensures DecodeListed(charset, Encode(charset, raw).value) == Some(raw)
    ensures DecodeTraced(charset, Encode(charset, raw).value) == Some(raw)
  {
    SymbolsFit(Padded(raw, 8, 5));
    RegroupRoundTrip(raw);
    SealedDecodes(charset, Padded(raw, 8, 5));
    DecodersAgree(charset, Encode(charset, raw).value);
  }

  // The six checksum symbols are forced by what precedes them.
  lemma ChecksumUnique(register: nat, u: seq<nat>, v: seq<nat>)
    requires |u| == |v| == 6 && Symbols(u) && Symbols(v)
    requires Run(register, u) == Run(register, v)
    ensures u == v
  {
    if u != v {
      BurstDetected(register, u, v, 0);
    }
  }

  // Twenty bytes need at least 32 symbols, so 42 characters leave only the prefix `one`.
  lemma ShortestParts(charset: Alphabet, address: string)
    requires DecodeListed(charset, address).Some? && |address| == 42
    ensures '1' in address && LastSeparator(address) == 3
    ensures Split(charset, address).Some? && Split(charset, address).value.hrp == "one"
    ensures |Split(charset, address).value.data| == 38
  {
    assert address[3] == '1';
    var data := Split(charset, address).value.data;
    assert 5 * |Payload(data)| / 8 == 20;
    assert |data| == 42 - LastSeparator(address) - 1;
    assert address[..3] == "one1"[..3];
  }

  // Only one checksum closes a given message.
  lemma OnlySeal(message: seq<nat>, tail: seq<nat>)
    requires Symbols(tail) && |tail| == 6
    requires Run(1, message + tail) == 1
    ensures tail == ChecksumSymbols(Run(1, message))
  {
    var register := Run(1, message);
    RunAppend(1, message, tail);
    ChecksumCloses(register);
    ChecksumUnique(register, tail, ChecksumSymbols(register));
  }

  // A checksum that closes can only be the one the encoder appends.
  lemma Canonical(data: seq<nat>)
    requires Symbols(data) && |data| == 38 && Register(Parts("one", data)) == 1
    ensures var payload := Padded(Regrouping(Payload(data), 5, 8).whole, 8, 5);
            Fits(payload, 5) && payload == Payload(data)
            && data == payload + ChecksumSymbols(Run(1, HrpExpand("one") + payload))
  {
    var payload, tail := data[..32], data[32..];
    SymbolsFit(payload);
    SymbolsRoundTrip(payload);
    var head := HrpExpand("one");
    assert data == payload + tail;
    assert head + data == (head + payload) + tail;
    OnlySeal(head + payload, tail);
  }

  // An accepted address is what the encoder writes for it exactly when it has 42
  // characters: a longer one with a zero symbol before its checksum, or one with a
  // longer prefix, decodes as well but is not written that way.
  lemma EncodeDecoded(charset: Alphabet, address: string)
    requires DecodeListed(charset, address).Some?
    ensures Fits(DecodeListed(charset, address).value, 8) && |DecodeListed(charset, address).value| == 20
    ensures Encode(charset, DecodeListed(charset, address).value) == Some(address) <==> |address| == 42
  {
    var raw := DecodeListed(charset, address).value;
    if |address| == 42 {
      ShortestParts(charset, address);
      Rewritten(charset, address);
    }
    EncodedLength(charset, raw);
  }

  lemma EncodedLength(charset: Alphabet, raw: seq<nat>)
    requires Fits(raw, 8) && |raw| == 20
    ensures |Encode(charset, raw).value| == 42
  {
    var fill := PaddedValue(raw);
    SymbolsFit(Padded(raw, 8, 5));
    SealedParts(charset, Padded(raw, 8, 5));
  }

  lemma Rewritten(charset: Alphabet, address: string)
    requires DecodeListed(charset, address).Some? && |address| == 42
    requires '1' in address && LastSeparator(address) == 3
    requires Split(charset, address).Some? && Split(charset, address).value.hrp == "one"
    requires |Split(charset, address).value.data| == 38
    ensures Encode(charset, DecodeListed(charset, address).value) == Some(address)
  {
    var data := Split(charset, address).value.data;
    TextOfSymbols(charset, address[4..]);
    Canonical(data);
    assert address == address[..4] + address[4..];
    assert address[..4] == "one1";
  }

  // One zero symbol more before the checksum: another accepted text for the same bytes.
  lemma LongFormAccepted(charset: Alphabet, raw: seq<nat>) returns (address: string)
    requires Fits(raw, 8) && |raw| == 20
    ensures |address| == 43
    ensures DecodeListed(charset, address) == Some(raw)
    ensures Encode(charset, raw) != Some(address)
  {
    var payload := Padded(raw, 8, 5) + [0];
    ExtraZero(raw);
    SymbolsFit(payload);
    SealedDecodes(charset, payload);
    address := Sealed(charset, payload);
    EncodedLength(charset, raw);
  }

  lemma ExtraZero(raw: seq<nat>)
    requires Fits(raw, 8) && |raw| == 20
    ensures var payload := Padded(raw, 8, 5) + [0];
            var r := Regrouping(payload, 5, 8);
            Fits(payload, 5) && |payload| == 33 && r.whole == raw && LowBits(r.accumulator, r.bits) == 0
  {
    var fill := PaddedValue(raw);
    var payload := Padded(raw, 8, 5) + [0];
    assert payload[..32] == Padded(raw, 8, 5);
    assert Value(payload, 5) == ShiftLeft(Value(raw, 8), 5);
    ShiftLeftRight(Value(raw, 8), 5);
    DigitsOfValue(raw, 8);
  }

  // Texts that differ inside a window spell symbols that differ inside it.
  lemma BurstOfSymbols(charset: Alphabet, body: string, damaged: string, start: nat)
    requires SymbolsOf(charset, body).Some? && SymbolsOf(charset, damaged).Some?
    requires |damaged| == |body| && damaged != body
    requires forall i :: 0 <= i < |body| && !(start <= i < start + 6) ==> damaged[i] == body[i]
    ensures var before, after := SymbolsOf(charset, body).value, SymbolsOf(charset, damaged).value;
            Symbols(before) && Symbols(after) && before != after && |before| == |after|
            && forall i :: 0 <= i < |before| && !(start <= i < start + 6) ==> before[i] == after[i]
  {
    TextOfSymbols(charset, body);
    TextOfSymbols(charset, damaged);
  }

  lemma BurstAfter(head: seq<nat>, before: seq<nat>, after: seq<nat>, start: nat)
    requires |before| == |after| && Symbols(before) && Symbols(after) && before != after
    requires forall i :: 0 <= i < |before| && !(start <= i < start + 6) ==> before[i] == after[i]
    ensures Run(1, head + before) != Run(1, head + after)
  {
    RunAppend(1, head, before);
    RunAppend(1, head, after);
    BurstDetected(Run(1, head), before, after, start);
  }

  // Changing symbols after the separator of an accepted address inside six consecutive
  // positions, whatever its length, makes both decoders refuse it.
  lemma BurstRefused(charset: Alphabet, prefix: string, body: string, damaged: string, start: nat)
    requires |prefix| > 0 && prefix[|prefix| - 1] == '1'
    requires SymbolsOf(charset, body).Some? && SymbolsOf(charset, damaged).Some?
    requires DecodeListed(charset, prefix + body).Some?
    requires |damaged| == |body| && damaged != body
    requires forall i :: 0 <= i < |body| && !(start <= i < start + 6) ==> damaged[i] == body[i]
    ensures DecodeListed(charset, prefix + damaged) == None && DecodeTraced(charset, prefix + damaged) == None
  {
    SplitJoined(charset, prefix, body);
    SplitJoined(charset, prefix, damaged);
    BurstOfSymbols(charset, body, damaged, start);
    BurstAfter(HrpExpand(prefix[..|prefix| - 1]), SymbolsOf(charset, body).value, SymbolsOf(charset, damaged).value,
               start);
    DecodersAgree(charset, prefix + damaged);
  }
}
