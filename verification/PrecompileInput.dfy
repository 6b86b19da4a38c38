/** The call data of the cross-shard precompile. */
module PrecompileInput {
  import opened Base
  import opened Binary
  import opened Regroup

  type Bytes = b: seq<nat> | Fits(b, 8) witness []

  const SELECTOR: seq<nat> := [0x28, 0x48, 0x08, 0x00]

  datatype Payload = Payload(amount: nat, receiver: nat, shard: nat)

  // None stands for an input that is no hexadecimal string.
  function ParseInput(input: Option<Bytes>): Option<Payload> {
    if input.None? then None
    else
      var raw := input.value;
      if |raw| < 100 || raw[..4] != SELECTOR then None
      else
        var addressWord, shardWord := raw[36..68], raw[68..100];
        Some(Payload(Value(raw[4..36], 8), Value(addressWord[12..], 8), Value(shardWord[28..], 8)))
  }

  // The call data of a transfer; the bytes around the address and the shard are ignored.
  function CallData(amount: nat, padding: Bytes, receiver: nat, shardPadding: Bytes, shard: nat, rest: Bytes): Bytes {
    JoinFits(SELECTOR, Digits(amount, 8, 32));
    var a := SELECTOR + Digits(amount, 8, 32);
    var b := padding + Digits(receiver, 8, 20);
    var d := shardPadding + Digits(shard, 8, 4) + rest;
    a + b + d
  }

  lemma JoinFits(a: seq<nat>, b: seq<nat>)
    requires Fits(b, 8) && a == SELECTOR
    ensures Fits(a + b, 8)
  {
    Pow2Values();
  }

  lemma CallDataParts(amount: nat, padding: Bytes, receiver: nat, shardPadding: Bytes, shard: nat, rest: Bytes)
    requires |padding| == 12 && |shardPadding| == 28
    ensures var raw := CallData(amount, padding, receiver, shardPadding, shard, rest);
            |raw| >= 100 && raw[..4] == SELECTOR && raw[4..36] == Digits(amount, 8, 32)
            && raw[36..68][12..] == Digits(receiver, 8, 20) && raw[68..100][28..] == Digits(shard, 8, 4)
  {
  }

  // Whatever parses is the call data of what was read: nothing else is accepted.
  lemma ParsedIsCallData(raw: Bytes)
    requires ParseInput(Some(raw)).Some?
    ensures var p := ParseInput(Some(raw)).value;
            |raw| >= 100 && raw == CallData(p.amount, raw[36..48], p.receiver, raw[68..96], p.shard, raw[100..])
  {
    DigitsOfValue(raw[4..36], 8);
    DigitsOfValue(raw[36..68][12..], 8);
    DigitsOfValue(raw[68..100][28..], 8);
    assert raw == raw[..4] + raw[4..36] + raw[36..48] + raw[48..68] + raw[68..96] + raw[96..100] + raw[100..];
  }

  // What parsing reads is exactly what was put in, for any amount of 256 bits, any address of
  // 160 bits, any shard of 32 bits, whatever fills the two words and follows them.
  lemma ParseCallData(amount: nat, padding: Bytes, receiver: nat, shardPadding: Bytes, shard: nat, rest: Bytes)
    requires |padding| == 12 && |shardPadding| == 28
    requires amount < Pow2(8 * 32) && receiver < Pow2(8 * 20) && shard < Pow2(8 * 4)
    ensures ParseInput(Some(CallData(amount, padding, receiver, shardPadding, shard, rest)))
         == Some(Payload(amount, receiver, shard))
  {
    CallDataParts(amount, padding, receiver, shardPadding, shard, rest);
    ValueOfDigits(amount, 8, 32);
    ValueOfDigits(receiver, 8, 20);
    ValueOfDigits(shard, 8, 4);
  }
}
