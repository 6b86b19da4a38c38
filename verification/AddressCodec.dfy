/** The address codec as the programs run it: loops over symbols, bits and checksum steps. */
module AddressCodec {
  import opened Base
  import opened Binary
  import opened Checksum
  import opened Regroup
  import opened Bech32

  method FindSeparator(address: string) returns (separator: nat)
    requires '1' in address
    ensures separator == LastSeparator(address)
  {
    separator := |address| - 1;
    while address[separator] != '1'
      invariant separator < |address| && '1' !in address[separator + 1..] && '1' in address[..separator + 1]
      decreases separator
    {
      assert address[..separator + 1] == address[..separator] + [address[separator]];
      assert address[separator..] == [address[separator]] + address[separator + 1..];
      separator := separator - 1;
    }
    SeparatorUnique(address, separator, address[separator + 1..]);
  }

  method ReadSymbols(charset: Alphabet, text: string) returns (data: Option<seq<nat>>)
    ensures data == SymbolsOf(charset, text)
    ensures data.Some? ==> Symbols(data.value)
  {
    var symbols: seq<nat> := [];
    for i := 0 to |text|
      invariant SymbolsOf(charset, text[..i]) == Some(symbols)
    {
      assert text[..i + 1][..i] == text[..i];
      var symbol := IndexOf(charset, text[i]);
      if symbol.None? {
        assert text[i] !in charset;
        return None;
      }
      symbols := symbols + [symbol.value];
    }
    assert text[..|text|] == text;
    TextOfSymbols(charset, text);
    data := Some(symbols);
  }

  // `decode_bech32`.
  method DecodeBech32(charset: Alphabet, address: string) returns (r: Option<seq<nat>>)
    ensures r == DecodeListed(charset, address)
  {
    if !Harmony(address) { return None; }
    assert address[3] == '1';
    var separator := FindSeparator(address);
    var hrp := address[..separator];
    var data := ReadSymbols(charset, address[separator + 1..]);
    if data.None? { return None; }
    var checksum := Polymod(HrpExpand(hrp) + data.value);
    if checksum != 1 { return None; }
    SymbolsFit(Payload(data.value));
    var decoded := RegroupBits(Payload(data.value), 5, 8);
    if decoded.bits != 0 && LowBits(decoded.accumulator, decoded.bits) != 0 { return None; }
    if |decoded.whole| != 20 { return None; }
    r := Some(decoded.whole);
  }

  // `convert_bits` of the decoder: left-over bits, filled up to a whole value, must be zero.
  method ConvertExact(values: seq<nat>, fromBits: nat, toBits: nat) returns (r: Option<seq<nat>>)
    requires 0 < fromBits && 0 < toBits && Fits(values, fromBits)
    ensures var g := Regrouping(values, fromBits, toBits);
            r == if g.bits != 0 && LowBits(ShiftLeft(g.accumulator, toBits - g.bits), toBits) != 0 then None
                 else Some(g.whole)
  {
    var g := RegroupBits(values, fromBits, toBits);
    if g.bits != 0 && LowBits(ShiftLeft(g.accumulator, toBits - g.bits), toBits) != 0 {
      return None;
    }
    r := Some(g.whole);
  }

  method DecodePayload(payload: seq<nat>) returns (r: Option<seq<nat>>)
    requires Symbols(payload)
    ensures var g := Regrouping(payload, 5, 8);
            r == if g.bits != 0 && LowBits(ShiftLeft(g.accumulator, 8 - g.bits), 8) != 0 then None else TwentyBytes(g)
  {
    SymbolsFit(payload);
    var decoded := ConvertExact(payload, 5, 8);
    r := if decoded.None? || |decoded.value| != 20 then None else decoded;
  }

  method AcceptParts(hrp: string, data: seq<nat>) returns (r: Option<seq<nat>>)
    requires Symbols(data)
    ensures r == AcceptTraced(Parts(hrp, data))
  {
    if |data| < 6 { return None; }
    var checksum := Polymod(HrpExpand(hrp) + data);
    if checksum != 1 { return None; }
    r := DecodePayload(data[..|data| - 6]);
  }

  // `decode_address` of a text in the `one1` form.
  method DecodeAddress(charset: Alphabet, address: string) returns (r: Option<seq<nat>>)
    ensures r == DecodeTraced(charset, address)
  {
    if !Harmony(address) { return None; }
    assert address[3] == '1';
    var separator := FindSeparator(address);
    var data := ReadSymbols(charset, address[separator + 1..]);
    if data.None? { return None; }
    r := AcceptParts(address[..separator], data.value);
  }

  // `convert_bits` of the encoder: left-over bits make one more value, filled up with zeros.
  method ConvertPadded(values: seq<nat>, fromBits: nat, toBits: nat) returns (r: seq<nat>)
    requires 0 < fromBits && 0 < toBits && Fits(values, fromBits)
    ensures r == Padded(values, fromBits, toBits)
  {
    var g := RegroupBits(values, fromBits, toBits);
    r := g.whole;
    if g.bits != 0 {
      r := r + [LowBits(ShiftLeft(g.accumulator, toBits - g.bits), toBits)];
    }
  }

  // `to_bech32`.
  method ToBech32(charset: Alphabet, raw: seq<nat>) returns (r: Option<string>)
    requires Fits(raw, 8)
    ensures r == Encode(charset, raw)
  {
    if |raw| != 20 { return None; }
    var data := ConvertPadded(raw, 8, 5);
    SymbolsFit(data);
    var head := HrpExpand("one");
    var zeros := [0, 0, 0, 0, 0, 0];
    var register := Polymod(head + data + zeros);
    RunAppend(1, head + data, zeros);
    var polymod := Xor(register, 1);
    var checksum: seq<nat> := [];
    ChecksumCloses(Run(1, head + data));
    for index := 0 to 6
      invariant |checksum| == index
      invariant forall i :: 0 <= i < index ==> checksum[i] == ChecksumSymbols(Run(1, head + data))[i]
    {
      ChecksumSymbolAt(polymod, index);
      checksum := checksum + [LowBits(ShiftRight(polymod, 5 * (5 - index)), 5)];
    }
    assert checksum == ChecksumSymbols(Run(1, head + data));
    r := Some("one1" + TextOf(charset, data + checksum));
  }
}
