/** The scan of outgoing cross-shard receipts: spent, pending or unsupported, group by group. */
module CrossShard {
  import opened Base
  import opened CxKeys
  import opened ChainDb

  datatype Receipt = Receipt(transaction: Hash, receiver: Option<nat>, shard: nat, toShard: nat, amount: Option<int>)

  // Where the destination shard applied a receipt.
  datatype Lookup = Lookup(blockHash: Hash, block: Uint64)

  // How stored values are decoded; a decoded list can hold nothing where a receipt should be.
  datatype Codec = Codec(receipts: Bytes -> Option<seq<Option<Receipt>>>, lookup: Bytes -> Option<Lookup>)

  datatype Item = Item(key: Bytes, value: Bytes)

  // Everything the scan is given. `items` are the entries under the receipt prefix.
  datatype Input = Input(shard: nat, source: Db, items: seq<Item>, iterationFails: bool, cutoff: nat,
                         destinations: map<nat, Db>, cutoffs: map<nat, nat>, codec: Codec)

  datatype ScanError = SourceUnreadable | SourceHashMissing | UndecodableGroup | InvalidReceipt | IdentityMismatch
                     | NegativeAmount | LookupUnreadable | MarkerUnreadable | InvalidMarker | LookupMissing
                     | EmptyLookup | UndecodableLookup | NoCutoff | DestinationUnreadable | DestinationHashMissing
                     | SplitGroup | IterationFailed

  datatype Group = Group(destination: nat, number: nat, hash: Hash, receipts: seq<Receipt>, amount: nat)

  datatype Outcome = NotAReceipt | Empty | AfterCutoff | NonCanonical | Unsupported(group: Group) | Spent(group: Group)
                   | Pending(group: Group)

  // ---- one receipt -----------------------------------------------------

  // The checks on a group's receipts and their sum.
  function Check(receipts: seq<Option<Receipt>>, shard: nat, destination: nat): Result<nat, ScanError>
    decreases |receipts|
  {
    if receipts == [] then Ok(0)
    else
      match Check(receipts[..|receipts| - 1], shard, destination)
      case Err(e) => Err(e)
      case Ok(sum) =>
        var last := receipts[|receipts| - 1];
        if last.None? || last.value.receiver.None? || last.value.amount.None? then Err(InvalidReceipt)
        else if last.value.shard != shard || last.value.toShard != destination then Err(IdentityMismatch)
        else if last.value.amount.value < 0 then Err(NegativeAmount)
        else Ok(sum + last.value.amount.value)
  }

  function Values(receipts: seq<Option<Receipt>>): seq<Receipt>
    decreases |receipts|
  {
    if receipts == [] then []
    else Values(receipts[..|receipts| - 1])
         + if receipts[|receipts| - 1].Some? then [receipts[|receipts| - 1].value] else []
  }

  // A receipt that the checks let pass.
  predicate Sound(receipt: Option<Receipt>, shard: nat, destination: nat) {
    receipt.Some? && receipt.value.receiver.Some? && receipt.value.amount.Some? && receipt.value.amount.value >= 0
    && receipt.value.shard == shard && receipt.value.toShard == destination
  }

  // The checks pass exactly groups of sound receipts, and keep them all, in order.
  lemma {:induction false} CheckExact(receipts: seq<Option<Receipt>>, shard: nat, destination: nat)
    ensures Check(receipts, shard, destination).Ok?
       <==> forall i :: 0 <= i < |receipts| ==> Sound(receipts[i], shard, destination)
    ensures Check(receipts, shard, destination).Ok? ==>
              |Values(receipts)| == |receipts|
              && forall i :: 0 <= i < |receipts| ==> receipts[i] == Some(Values(receipts)[i])
    decreases |receipts|
  {
    if receipts != [] {
      CheckExact(receipts[..|receipts| - 1], shard, destination);
    }
  }

  // The destination block that applied a receipt, none when it is still pending.
  function Application(db: Db, cutoff: Option<nat>, codec: Codec, shard: nat, number: nat, transaction: Hash)
    : Result<Option<nat>, ScanError>
  {
    match ReadOptional(db, LookupKey(transaction))
    case Err(_) => Err(LookupUnreadable)
    case Ok(None) =>
      (match ReadOptional(db, SpentKey(shard, number))
       case Err(_) => Err(MarkerUnreadable)
       case Ok(Some(marker)) => Err(if marker != [0] then InvalidMarker else LookupMissing)
       case Ok(None) => Ok(None))
    case Ok(Some(encoded)) =>
      if encoded == [] then Err(EmptyLookup)
      else if codec.lookup(encoded).None? then Err(UndecodableLookup)
      else if cutoff.None? then Err(NoCutoff)
      else if codec.lookup(encoded).value.block > cutoff.value then Ok(None)
      else
        match ReadCanonicalHash(db, codec.lookup(encoded).value.block)
        case Err(_) => Err(DestinationUnreadable)
        case Ok(None) => Err(DestinationHashMissing)
        case Ok(Some(hash)) =>
          if hash != codec.lookup(encoded).value.blockHash then Ok(None)
          else Ok(Some(codec.lookup(encoded).value.block))
  }

  // ---- one group -------------------------------------------------------

  // The group's receipts in order, from number `i` on; `block` is the one the receipts before
  // it were applied in, with 0 standing for "none yet".
  function SpentFrom(db: Db, cutoff: Option<nat>, codec: Codec, shard: nat, group: Group, i: nat,
                     block: nat): Result<bool, ScanError>
    requires i <= |group.receipts|
    decreases |group.receipts| - i
  {
    if i == |group.receipts| then Ok(true)
    else
      match Application(db, cutoff, codec, shard, group.number, group.receipts[i].transaction)
      case Err(e) => Err(e)
      case Ok(None) => Ok(false)
      case Ok(Some(b)) =>
        if block != 0 && block != b then Err(SplitGroup) else SpentFrom(db, cutoff, codec, shard, group, i + 1, b)
  }

  function CutoffOf(input: Input, destination: nat): Option<nat> {
    if destination in input.cutoffs then Some(input.cutoffs[destination]) else None
  }

  function GroupOutcome(input: Input, group: Group): Result<Outcome, ScanError> {
    if group.destination !in input.destinations then Ok(Unsupported(group))
    else
      match SpentFrom(input.destinations[group.destination], CutoffOf(input, group.destination), input.codec,
                      input.shard, group, 0, 0)
      case Err(e) => Err(e)
      case Ok(spent) => Ok(if spent then Spent(group) else Pending(group))
  }

  function ItemOutcome(input: Input, item: Item): Result<Outcome, ScanError> {
    match ReceiptKeyParts(item.key)
    case None => Ok(NotAReceipt)
    case Some(KeyParts(destination, number, hash)) =>
      if item.value == [0xc0] then Ok(Empty)
      else if number > input.cutoff then Ok(AfterCutoff)
      else
        match ReadCanonicalHash(input.source, number)
        case Err(_) => Err(SourceUnreadable)
        case Ok(None) => Err(SourceHashMissing)
        case Ok(Some(canonical)) =>
          if canonical != hash then Ok(NonCanonical)
          else if input.codec.receipts(item.value).None? then Err(UndecodableGroup)
          else
            var receipts := input.codec.receipts(item.value).value;
            match Check(receipts, input.shard, destination)
            case Err(e) => Err(e)
            case Ok(amount) => GroupOutcome(input, Group(destination, number, hash, Values(receipts), amount))
  }

  // ---- the totals ------------------------------------------------------

  datatype Totals = Totals(empty: nat, canonical: nat, nonCanonical: nat, afterCutoff: nat,
                           spentGroups: nat, spentCount: nat, spentAmount: nat,
                           pendingCount: nat, pendingAmount: nat, pending: seq<Group>,
                           unsupportedCount: nat, unsupportedAmount: nat, unsupported: seq<Group>)

  const ZERO := Totals(0, 0, 0, 0, 0, 0, 0, 0, 0, [], 0, 0, [])

  function AddOutcome(t: Totals, outcome: Outcome): Totals {
    match outcome
    case NotAReceipt => t
    case Empty => t.(empty := t.empty + 1)
    case AfterCutoff => t.(afterCutoff := t.afterCutoff + 1)
    case NonCanonical => t.(nonCanonical := t.nonCanonical + 1)
    case Unsupported(g) =>
      t.(unsupportedCount := t.unsupportedCount + |g.receipts|, unsupportedAmount := t.unsupportedAmount + g.amount,
         unsupported := t.unsupported + [g])
    case Spent(g) =>
      t.(canonical := t.canonical + 1, spentGroups := t.spentGroups + 1, spentCount := t.spentCount + |g.receipts|,
         spentAmount := t.spentAmount + g.amount)
    case Pending(g) =>
      t.(canonical := t.canonical + 1, pendingCount := t.pendingCount + |g.receipts|,
         pendingAmount := t.pendingAmount + g.amount, pending := t.pending + [g])
  }

  function ScanItems(input: Input, items: seq<Item>): Result<Totals, ScanError>
    decreases |items|
  {
    if items == [] then Ok(ZERO)
    else
      match ScanItems(input, items[..|items| - 1])
      case Err(e) => Err(e)
      case Ok(t) =>
        match ItemOutcome(input, items[|items| - 1])
        case Err(e) => Err(e)
        case Ok(outcome) => Ok(AddOutcome(t, outcome))
  }

  function Scan(input: Input): Result<Totals, ScanError> {
    match ScanItems(input, input.items)
    case Err(e) => Err(e)
    case Ok(t) => if input.iterationFails then Err(IterationFailed) else Ok(t)
  }

  lemma {:induction false} ErrorStays(input: Input, items: seq<Item>, i: nat)
    requires i <= |items| && ScanItems(input, items[..i]).Err?
    ensures ScanItems(input, items) == ScanItems(input, items[..i])
    decreases |items|
  {
    if i == |items| {
      assert items[..i] == items;
    } else {
      assert items[..|items| - 1][..i] == items[..i];
      ErrorStays(input, items[..|items| - 1], i);
    }
  }

  // ---- the loops in place ----------------------------------------------

  // The loop over a group's receipts, with its flag and its block.
  method IsSpent(db: Db, cutoff: Option<nat>, codec: Codec, shard: nat, group: Group)
    returns (r: Result<bool, ScanError>)
    ensures r == SpentFrom(db, cutoff, codec, shard, group, 0, 0)
  {
    var spent, destinationBlock, i := true, 0, 0;
    while i < |group.receipts| && spent
      invariant i <= |group.receipts|
      invariant SpentFrom(db, cutoff, codec, shard, group, 0, 0)
             == if spent then SpentFrom(db, cutoff, codec, shard, group, i, destinationBlock) else Ok(false)
    {
      match Application(db, cutoff, codec, shard, group.number, group.receipts[i].transaction) {
        case Err(e) => return Err(e);
        case Ok(None) => spent := false;
        case Ok(Some(block)) =>
          if destinationBlock != 0 && destinationBlock != block {
            return Err(SplitGroup);
          }
          destinationBlock := block;
      }
      i := i + 1;
    }
    r := Ok(spent);
  }

  // The loop of checks, which adds the amounts up.
  method CheckReceipts(receipts: seq<Option<Receipt>>, shard: nat, destination: nat) returns (r: Result<nat, ScanError>)
    ensures r == Check(receipts, shard, destination)
  {
    var sum := 0;
    for i := 0 to |receipts|
      invariant Check(receipts[..i], shard, destination) == Ok(sum)
    {
      assert receipts[..i + 1][..i] == receipts[..i];
      var receipt := receipts[i];
      if receipt.None? || receipt.value.receiver.None? || receipt.value.amount.None? {
        CheckStops(receipts, i + 1, shard, destination);
        return Err(InvalidReceipt);
      }
      if receipt.value.shard != shard || receipt.value.toShard != destination {
        CheckStops(receipts, i + 1, shard, destination);
        return Err(IdentityMismatch);
      }
      if receipt.value.amount.value < 0 {
        CheckStops(receipts, i + 1, shard, destination);
        return Err(NegativeAmount);
      }
      sum := sum + receipt.value.amount.value;
    }
    assert receipts[..|receipts|] == receipts;
    r := Ok(sum);
  }

  lemma {:induction false} CheckStops(receipts: seq<Option<Receipt>>, i: nat, shard: nat, destination: nat)
    requires i <= |receipts| && Check(receipts[..i], shard, destination).Err?
    ensures Check(receipts, shard, destination) == Check(receipts[..i], shard, destination)
    decreases |receipts|
  {
    if i == |receipts| {
      assert receipts[..i] == receipts;
    } else {
      assert receipts[..|receipts| - 1][..i] == receipts[..i];
      CheckStops(receipts[..|receipts| - 1], i, shard, destination);
    }
  }

  // One turn of the loop over the source database.
  method Classify(input: Input, item: Item) returns (r: Result<Outcome, ScanError>)
    ensures r == ItemOutcome(input, item)
  {
    var parts := ReceiptKeyParts(item.key);
    if parts.None? { return Ok(NotAReceipt); }
    var KeyParts(destination, number, hash) := parts.value;
    if item.value == [0xc0] { return Ok(Empty); }
    if number > input.cutoff { return Ok(AfterCutoff); }
    var canonical := ReadCanonicalHash(input.source, number);
    if canonical.Err? { return Err(SourceUnreadable); }
    if canonical.value.None? { return Err(SourceHashMissing); }
    if canonical.value.value != hash { return Ok(NonCanonical); }
    var receipts := input.codec.receipts(item.value);
    if receipts.None? { return Err(UndecodableGroup); }
    var amount := CheckReceipts(receipts.value, input.shard, destination);
    if amount.Err? { return Err(amount.error); }
    var group := Group(destination, number, hash, Values(receipts.value), amount.value);
    if destination !in input.destinations { return Ok(Unsupported(group)); }
    var spent := IsSpent(input.destinations[destination], CutoffOf(input, destination), input.codec, input.shard,
                         group);
    if spent.Err? { return Err(spent.error); }
    r := Ok(if spent.value then Spent(group) else Pending(group));
  }

  // `sumReceipts`: on any error the totals come back zero.
  method SumReceipts(input: Input) returns (totals: Totals, error: Option<ScanError>)
    ensures match Scan(input)
            case Ok(t) => totals == t && error == None
            case Err(e) => totals == ZERO && error == Some(e)
  {
    totals := ZERO;
    for i := 0 to |input.items|
      invariant ScanItems(input, input.items[..i]) == Ok(totals)
    {
      assert input.items[..i + 1][..i] == input.items[..i];
      var outcome := Classify(input, input.items[i]);
      if outcome.Err? {
        ErrorStays(input, input.items, i + 1);
        return ZERO, Some(outcome.error);
      }
      totals := AddOutcome(totals, outcome.value);
    }
    assert input.items[..|input.items|] == input.items;
    if input.iterationFails { return ZERO, Some(IterationFailed); }
    error := None;
  }
}
