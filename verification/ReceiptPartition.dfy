/** What a successful receipt scan means: a partition of the canonical receipt groups, decided by
    where the destination shard applied them, and moving one way as its cutoff rises. */
module ReceiptPartition {
  import opened Base
  import opened CxKeys
  import opened ChainDb
  import opened CrossShard

  // ---- the partition ---------------------------------------------------

  // A non-empty group of the source shard, on its canonical chain and within the cutoff.
  predicate InScope(input: Input, item: Item) {
    var parts := ReceiptKeyParts(item.key);
    parts.Some? && item.value != [0xc0] && parts.value.number <= input.cutoff
    && CanonicalKey(parts.value.number) in input.source.entries
    && input.source.entries[CanonicalKey(parts.value.number)] == parts.value.hash
  }

  function Amounts(receipts: seq<Option<Receipt>>): int
    decreases |receipts|
  {
    if receipts == [] then 0
    else
      var last := receipts[|receipts| - 1];
      Amounts(receipts[..|receipts| - 1]) + if last.Some? && last.value.amount.Some? then last.value.amount.value else 0
  }

  // What the stored value of an item is worth.
  function Worth(input: Input, item: Item): int {
    var receipts := input.codec.receipts(item.value);
    if receipts.None? then 0 else Amounts(receipts.value)
  }

  function ScopeWorth(input: Input, items: seq<Item>): int
    decreases |items|
  {
    if items == [] then 0
    else
      var last := items[|items| - 1];
      ScopeWorth(input, items[..|items| - 1]) + if InScope(input, last) then Worth(input, last) else 0
  }

  function ScopeCount(input: Input, items: seq<Item>): nat
    decreases |items|
  {
    if items == [] then 0
    else ScopeCount(input, items[..|items| - 1]) + if InScope(input, items[|items| - 1]) then 1 else 0
  }

  predicate IsGroup(outcome: Outcome) {
    outcome.Spent? || outcome.Pending? || outcome.Unsupported?
  }

  lemma {:induction false} CheckedAmounts(receipts: seq<Option<Receipt>>, shard: nat, destination: nat)
    requires Check(receipts, shard, destination).Ok?
    ensures Check(receipts, shard, destination).value == Amounts(receipts) && |Values(receipts)| == |receipts|
    decreases |receipts|
  {
    if receipts != [] {
      CheckedAmounts(receipts[..|receipts| - 1], shard, destination);
    }
  }

  lemma GroupKept(input: Input, group: Group)
    requires GroupOutcome(input, group).Ok?
    ensures var o := GroupOutcome(input, group).value; IsGroup(o) && o.group == group
  {
  }

  // An item in scope becomes one group worth its receipts, any other becomes none.
  lemma ItemInScope(input: Input, item: Item)
    requires ItemOutcome(input, item).Ok?
    ensures IsGroup(ItemOutcome(input, item).value) <==> InScope(input, item)
    ensures InScope(input, item) ==> ItemOutcome(input, item).value.group.amount == Worth(input, item)
  {
    var parts := ReceiptKeyParts(item.key);
    if parts.Some? && item.value != [0xc0] && parts.value.number <= input.cutoff {
      ReadOptionalExact(input.source, CanonicalKey(parts.value.number));
      var receipts := input.codec.receipts(item.value);
      if InScope(input, item) && receipts.Some? {
        CheckedAmounts(receipts.value, input.shard, parts.value.destination);
        GroupKept(input, Group(parts.value.destination, parts.value.number, parts.value.hash, Values(receipts.value),
                               Check(receipts.value, input.shard, parts.value.destination).value));
      }
    }
  }

  // What the totals add up to after some items.
  predicate Partitions(t: Totals, worth: int, count: nat) {
    match t
    case Totals(_, canonical, _, _, spentGroups, _, spentAmount, _, pendingAmount, pending, _, unsupportedAmount,
                unsupported) =>
      spentAmount + pendingAmount + unsupportedAmount == worth
      && spentGroups + |pending| + |unsupported| == count && canonical == spentGroups + |pending|
  }

  lemma PartitionsMore(t: Totals, worth: int, count: nat, outcome: Outcome)
    requires Partitions(t, worth, count)
    ensures if IsGroup(outcome) then Partitions(AddOutcome(t, outcome), worth + outcome.group.amount, count + 1)
            else Partitions(AddOutcome(t, outcome), worth, count)
  {
  }

  // Spent, pending and unsupported value together are the value of all groups in scope, and
  // each of these groups is in exactly one of the three.
  lemma {:induction false} ScanPartitions(input: Input, items: seq<Item>)
    requires ScanItems(input, items).Ok?
    ensures Partitions(ScanItems(input, items).value, ScopeWorth(input, items), ScopeCount(input, items))
    decreases |items|
  {
    if items != [] {
      var front, last := items[..|items| - 1], items[|items| - 1];
      ScanPartitions(input, front);
      ItemInScope(input, last);
      PartitionsMore(ScanItems(input, front).value, ScopeWorth(input, front), ScopeCount(input, front),
                     ItemOutcome(input, last).value);
    }
  }

  // ---- what "spent" means ----------------------------------------------

  // The destination chain applied a receipt in a block at or below its cutoff: the lookup names
  // the block, and the block it names is the canonical one.
  predicate Applied(db: Db, cutoff: nat, codec: Codec, transaction: Hash, block: nat) {
    LookupKey(transaction) in db.entries
    && codec.lookup(db.entries[LookupKey(transaction)]).Some?
    && var lookup := codec.lookup(db.entries[LookupKey(transaction)]).value;
       lookup.block == block && block <= cutoff
       && CanonicalKey(block) in db.entries && db.entries[CanonicalKey(block)] == lookup.blockHash
  }

  lemma ApplicationMeans(db: Db, cutoff: nat, codec: Codec, shard: nat, number: nat, transaction: Hash)
    requires Application(db, Some(cutoff), codec, shard, number, transaction).Ok?
    ensures forall block: nat :: Applied(db, cutoff, codec, transaction, block)
                       <==> Application(db, Some(cutoff), codec, shard, number, transaction).value == Some(block)
  {
    ReadOptionalExact(db, LookupKey(transaction));
    if LookupKey(transaction) in db.entries && codec.lookup(db.entries[LookupKey(transaction)]).Some? {
      ReadOptionalExact(db, CanonicalKey(codec.lookup(db.entries[LookupKey(transaction)]).value.block));
    }
  }

  ghost predicate HasApplication(db: Db, cutoff: nat, codec: Codec, transaction: Hash) {
    exists block: nat :: Applied(db, cutoff, codec, transaction, block)
  }

  ghost predicate AllApplied(db: Db, cutoff: nat, codec: Codec, group: Group, i: nat) {
    forall j :: i <= j < |group.receipts| ==> HasApplication(db, cutoff, codec, group.receipts[j].transaction)
  }

  // A group counts as spent exactly when every one of its receipts was applied.
  lemma {:induction false} SpentMeansApplied(db: Db, cutoff: nat, codec: Codec, shard: nat, group: Group, i: nat,
                                             block: nat)
    requires i <= |group.receipts| && SpentFrom(db, Some(cutoff), codec, shard, group, i, block).Ok?
    ensures SpentFrom(db, Some(cutoff), codec, shard, group, i, block).value
         <==> AllApplied(db, cutoff, codec, group, i)
    decreases |group.receipts| - i
  {
    if i < |group.receipts| {
      var transaction := group.receipts[i].transaction;
      ApplicationMeans(db, cutoff, codec, shard, group.number, transaction);
      var b := Application(db, Some(cutoff), codec, shard, group.number, transaction).value;
      if b.Some? {
        assert Applied(db, cutoff, codec, transaction, b.value);
        SpentMeansApplied(db, cutoff, codec, shard, group, i + 1, b.value);
      } else {
        assert !HasApplication(db, cutoff, codec, transaction);
      }
    }
  }

  // The same for an item of a scan: its group is spent exactly when all its receipts were applied
  // by the cutoff of its destination, and pending otherwise.
  lemma SpentItem(input: Input, item: Item)
    requires ItemOutcome(input, item).Ok?
    ensures var o := ItemOutcome(input, item).value;
            (o.Spent? || o.Pending?) && o.group.destination in input.cutoffs ==>
              o.group.destination in input.destinations
              && (o.Spent? <==> AllApplied(input.destinations[o.group.destination], input.cutoffs[o.group.destination],
                                           input.codec, o.group, 0))
  {
    var o := ItemOutcome(input, item).value;
    if (o.Spent? || o.Pending?) && o.group.destination in input.cutoffs {
      var d := o.group.destination;
      SpentMeansApplied(input.destinations[d], input.cutoffs[d], input.codec, input.shard, o.group, 0, 0);
    }
  }

  // ---- every figure ----------------------------------------------------

  // What becomes of an item that the scan takes in.
  datatype Bucket = SpentBucket | PendingBucket | UnsupportedBucket

  ghost predicate AllReceiptsApplied(input: Input, item: Item) {
    var parts, receipts := ReceiptKeyParts(item.key), input.codec.receipts(item.value);
    parts.Some? && parts.value.destination in input.destinations && receipts.Some?
    && forall i :: 0 <= i < |receipts.value| ==>
         receipts.value[i].Some? && parts.value.destination in input.cutoffs
         && HasApplication(input.destinations[parts.value.destination], input.cutoffs[parts.value.destination],
                           input.codec, receipts.value[i].value.transaction)
  }

  // Groups for a shard without a database are unsupported; of the others those are spent whose
  // receipts have all been applied, and the rest is pending.
  ghost predicate InBucket(input: Input, item: Item, bucket: Bucket) {
    InScope(input, item)
    && match bucket
       case UnsupportedBucket => ReceiptKeyParts(item.key).value.destination !in input.destinations
       case SpentBucket => AllReceiptsApplied(input, item)
       case PendingBucket =>
         ReceiptKeyParts(item.key).value.destination in input.destinations && !AllReceiptsApplied(input, item)
  }

  // The group an item holds, and those of the items of a bucket in order.
  function HeldGroup(input: Input, item: Item): Group
    requires ReceiptKeyParts(item.key).Some? && input.codec.receipts(item.value).Some?
    requires Amounts(input.codec.receipts(item.value).value) >= 0
  {
    var KeyParts(destination, number, hash) := ReceiptKeyParts(item.key).value;
    var receipts := input.codec.receipts(item.value).value;
    Group(destination, number, hash, Values(receipts), Amounts(receipts))
  }

  ghost function GroupsIn(input: Input, items: seq<Item>, bucket: Bucket): seq<Group>
    decreases |items|
  {
    if items == [] then []
    else
      var last := items[|items| - 1];
      GroupsIn(input, items[..|items| - 1], bucket)
      + if InBucket(input, last, bucket) && input.codec.receipts(last.value).Some? && Worth(input, last) >= 0
        then [HeldGroup(input, last)] else []
  }

  function AmountOf(groups: seq<Group>): nat
    decreases |groups|
  {
    if groups == [] then 0 else AmountOf(groups[..|groups| - 1]) + groups[|groups| - 1].amount
  }

  function CountOf(groups: seq<Group>): nat
    decreases |groups|
  {
    if groups == [] then 0 else CountOf(groups[..|groups| - 1]) + |groups[|groups| - 1].receipts|
  }

  // The items that are passed over: no receipt key, an empty group, a block past the cutoff, a block
  // off the canonical chain.
  predicate IsEmpty(item: Item) {
    ReceiptKeyParts(item.key).Some? && item.value == [0xc0]
  }

  predicate IsLate(input: Input, item: Item) {
    ReceiptKeyParts(item.key).Some? && item.value != [0xc0] && ReceiptKeyParts(item.key).value.number > input.cutoff
  }

  predicate IsStale(input: Input, item: Item) {
    var parts := ReceiptKeyParts(item.key);
    parts.Some? && item.value != [0xc0] && parts.value.number <= input.cutoff
    && CanonicalKey(parts.value.number) in input.source.entries
    && input.source.entries[CanonicalKey(parts.value.number)] != parts.value.hash
  }

  function Late(input: Input): Item -> bool {
    (item: Item) => IsLate(input, item)
  }

  function Stale(input: Input): Item -> bool {
    (item: Item) => IsStale(input, item)
  }

  // Every figure of the totals, each on its own.
  ghost predicate Figures(input: Input, items: seq<Item>, t: Totals) {
    GroupFigures(t, GroupsIn(input, items, SpentBucket), GroupsIn(input, items, PendingBucket),
                 GroupsIn(input, items, UnsupportedBucket))
    && t.empty == CountWhere(items, IsEmpty) && t.afterCutoff == CountWhere(items, Late(input))
    && t.nonCanonical == CountWhere(items, Stale(input))
  }

  predicate GroupFigures(t: Totals, spent: seq<Group>, pending: seq<Group>, unsupported: seq<Group>) {
    t.spentGroups == |spent| && t.spentAmount == AmountOf(spent) && t.spentCount == CountOf(spent)
    && t.pending == pending && t.pendingAmount == AmountOf(pending) && t.pendingCount == CountOf(pending)
    && t.unsupported == unsupported && t.unsupportedAmount == AmountOf(unsupported)
    && t.unsupportedCount == CountOf(unsupported) && t.canonical == |spent| + |pending|
  }

  lemma GroupsMore(groups: seq<Group>, group: Group)
    ensures AmountOf(groups + [group]) == AmountOf(groups) + group.amount
    ensures CountOf(groups + [group]) == CountOf(groups) + |group.receipts|
  {
    assert (groups + [group])[..|groups|] == groups;
  }

  // Without a cutoff only a group without receipts counts as spent.
  lemma SpentWithoutCutoff(db: Db, codec: Codec, shard: nat, group: Group)
    requires SpentFrom(db, None, codec, shard, group, 0, 0).Ok?
    ensures SpentFrom(db, None, codec, shard, group, 0, 0).value <==> |group.receipts| == 0
  {
  }

  // What an outcome means: exactly one bucket for an item in scope, one reason for any other.
  lemma OutcomeMeans(input: Input, item: Item)
    requires ItemOutcome(input, item).Ok?
    ensures var o := ItemOutcome(input, item).value;
            (o.Spent? <==> InBucket(input, item, SpentBucket)) && (o.Pending? <==> InBucket(input, item, PendingBucket))
            && (o.Unsupported? <==> InBucket(input, item, UnsupportedBucket))
            && (o.Empty? <==> IsEmpty(item)) && (o.AfterCutoff? <==> IsLate(input, item))
            && (o.NonCanonical? <==> IsStale(input, item)) && (o.NotAReceipt? <==> ReceiptKeyParts(item.key).None?)
            && (IsGroup(o) ==> input.codec.receipts(item.value).Some? && Worth(input, item) >= 0
                               && o.group == HeldGroup(input, item))
  {
    ItemInScope(input, item);
    var parts := ReceiptKeyParts(item.key);
    if parts.Some? && item.value != [0xc0] && parts.value.number <= input.cutoff {
      ReadOptionalExact(input.source, CanonicalKey(parts.value.number));
      if InScope(input, item) {
        GroupMeans(input, item);
      }
    }
  }

  lemma GroupMeans(input: Input, item: Item)
    requires ItemOutcome(input, item).Ok? && InScope(input, item)
    ensures var o := ItemOutcome(input, item).value;
            (o.Spent? <==> InBucket(input, item, SpentBucket)) && (o.Pending? <==> InBucket(input, item, PendingBucket))
            && (o.Unsupported? <==> InBucket(input, item, UnsupportedBucket))
            && IsGroup(o) && input.codec.receipts(item.value).Some? && Worth(input, item) >= 0
            && o.group == HeldGroup(input, item)
  {
    var KeyParts(destination, number, hash) := ReceiptKeyParts(item.key).value;
    ReadOptionalExact(input.source, CanonicalKey(number));
    var receipts := input.codec.receipts(item.value).value;
    CheckedAmounts(receipts, input.shard, destination);
    CheckExact(receipts, input.shard, destination);
    var group := Group(destination, number, hash, Values(receipts), Amounts(receipts));
    GroupKept(input, group);
    if destination in input.destinations {
      var db := input.destinations[destination];
      if destination in input.cutoffs {
        SpentMeansApplied(db, input.cutoffs[destination], input.codec, input.shard, group, 0, 0);
      } else {
        SpentWithoutCutoff(db, input.codec, input.shard, group);
      }
    }
  }

  lemma GroupFiguresMore(t: Totals, spent: seq<Group>, pending: seq<Group>, unsupported: seq<Group>, o: Outcome)
    requires GroupFigures(t, spent, pending, unsupported)
    ensures GroupFigures(AddOutcome(t, o), if o.Spent? then spent + [o.group] else spent,
                         if o.Pending? then pending + [o.group] else pending,
                         if o.Unsupported? then unsupported + [o.group] else unsupported)
  {
    if IsGroup(o) {
      GroupsMore(spent, o.group);
      GroupsMore(pending, o.group);
      GroupsMore(unsupported, o.group);
    }
  }

  lemma GroupsInLast(input: Input, items: seq<Item>, bucket: Bucket)
    requires items != [] && ItemOutcome(input, items[|items| - 1]).Ok?
    ensures var before := GroupsIn(input, items[..|items| - 1], bucket);
            var o := ItemOutcome(input, items[|items| - 1]).value;
            var here := match bucket
                        case SpentBucket => o.Spent?
                        case PendingBucket => o.Pending?
                        case UnsupportedBucket => o.Unsupported?;
            GroupsIn(input, items, bucket) == if here then before + [o.group] else before
  {
    OutcomeMeans(input, items[|items| - 1]);
  }

  // After a successful scan every figure is what its own items come to.
  lemma {:induction false} EveryFigure(input: Input, items: seq<Item>)
    requires ScanItems(input, items).Ok?
    ensures Figures(input, items, ScanItems(input, items).value)
    decreases |items|
  {
    if items != [] {
      var front, last := items[..|items| - 1], items[|items| - 1];
      EveryFigure(input, front);
      OutcomeMeans(input, last);
      GroupsInLast(input, items, SpentBucket);
      GroupsInLast(input, items, PendingBucket);
      GroupsInLast(input, items, UnsupportedBucket);
      GroupFiguresMore(ScanItems(input, front).value, GroupsIn(input, front, SpentBucket),
                       GroupsIn(input, front, PendingBucket), GroupsIn(input, front, UnsupportedBucket),
                       ItemOutcome(input, last).value);
    }
  }

  // ---- the one-block rule ----------------------------------------------

  // How the scan compares the blocks of a group's receipts.
  predicate BlocksPass(blocks: seq<nat>, previous: nat)
    decreases |blocks|
  {
    blocks == [] || ((previous == 0 || previous == blocks[0]) && BlocksPass(blocks[1..], blocks[0]))
  }

  lemma {:induction false} SplitMeansBlocks(db: Db, cutoff: Option<nat>, codec: Codec, shard: nat, group: Group, i: nat,
                                            block: nat, blocks: seq<nat>)
    requires |blocks| + i == |group.receipts|
    requires forall j :: 0 <= j < |blocks| ==>
               Application(db, cutoff, codec, shard, group.number, group.receipts[i + j].transaction)
                 == Ok(Some(blocks[j]))
    ensures SpentFrom(db, cutoff, codec, shard, group, i, block)
         == if BlocksPass(blocks, block) then Ok(true) else Err(SplitGroup)
    decreases |blocks|
  {
    if blocks != [] {
      assert Application(db, cutoff, codec, shard, group.number, group.receipts[i + 0].transaction)
        == Ok(Some(blocks[0]));
      forall j | 0 <= j < |blocks[1..]|
        ensures Application(db, cutoff, codec, shard, group.number, group.receipts[i + 1 + j].transaction)
             == Ok(Some(blocks[1..][j]))
      {
        assert i + 1 + j == i + (j + 1);
      }
      SplitMeansBlocks(db, cutoff, codec, shard, group, i + 1, blocks[0], blocks[1..]);
    }
  }

  predicate OneBlock(blocks: seq<nat>) {
    forall i :: 0 <= i < |blocks| ==> blocks[i] == blocks[0]
  }

  lemma {:induction false} PassFrom(blocks: seq<nat>, previous: nat)
    requires previous != 0
    ensures BlocksPass(blocks, previous) <==> forall i :: 0 <= i < |blocks| ==> blocks[i] == previous
    decreases |blocks|
  {
    if blocks != [] {
      if blocks[0] == previous {
        PassFrom(blocks[1..], previous);
        if BlocksPass(blocks[1..], previous) {
          forall i | 0 <= i < |blocks| ensures blocks[i] == previous {
            assert i > 0 ==> blocks[1..][i - 1] == blocks[i];
          }
        }
      }
    }
  }

  lemma {:induction false} PassZero(blocks: seq<nat>)
    requires blocks != [] && BlocksPass(blocks, 0) && blocks[|blocks| - 1] == 0
    ensures OneBlock(blocks)
    decreases |blocks|
  {
    if blocks[0] != 0 {
      PassFrom(blocks[1..], blocks[0]);
    } else if |blocks| > 1 {
      PassZero(blocks[1..]);
      forall i | 0 <= i < |blocks| ensures blocks[i] == 0 {
        assert i > 0 ==> blocks[1..][i - 1] == blocks[i];
      }
    }
  }

  // Block 0 doubles as "none yet", so the rule is not quite "all in one block": blocks that pass
  // are all the same if and only if the first is not block 0 or the last one is.
  lemma PassingBlocks(blocks: seq<nat>)
    requires blocks != [] && BlocksPass(blocks, 0)
    ensures OneBlock(blocks) <==> blocks[0] != 0 || blocks[|blocks| - 1] == 0
  {
    if blocks[0] != 0 {
      PassFrom(blocks[1..], blocks[0]);
      forall i | 0 <= i < |blocks| ensures blocks[i] == blocks[0] {
        assert i > 0 ==> blocks[1..][i - 1] == blocks[i];
      }
    } else if blocks[|blocks| - 1] == 0 {
      PassZero(blocks);
    }
  }

  // The blocks of a spent group, receipt by receipt; they pass the test.
  lemma {:induction false} SpentBlocks(db: Db, cutoff: nat, codec: Codec, shard: nat, group: Group, i: nat,
                                       block: nat) returns (blocks: seq<nat>)
    requires i <= |group.receipts| && SpentFrom(db, Some(cutoff), codec, shard, group, i, block) == Ok(true)
    ensures |blocks| + i == |group.receipts| && BlocksPass(blocks, block)
    ensures forall j :: 0 <= j < |blocks| ==> Applied(db, cutoff, codec, group.receipts[i + j].transaction, blocks[j])
    decreases |group.receipts| - i
  {
    if i == |group.receipts| {
      blocks := [];
    } else {
      var transaction := group.receipts[i].transaction;
      ApplicationMeans(db, cutoff, codec, shard, group.number, transaction);
      var first := Application(db, Some(cutoff), codec, shard, group.number, transaction).value.value;
      var rest := SpentBlocks(db, cutoff, codec, shard, group, i + 1, first);
      blocks := [first] + rest;
      assert blocks[1..] == rest;
      forall j | 0 <= j < |blocks|
        ensures Applied(db, cutoff, codec, group.receipts[i + j].transaction, blocks[j])
      {
        assert j > 0 ==> i + j == i + 1 + (j - 1);
      }
    }
  }

  // A spent group of a scan: every receipt was applied canonically by the destination's cutoff, and
  // all were applied in one block if and only if the first one was not applied in block 0 or the
  // last one was.
  lemma SpentInOneBlock(input: Input, item: Item) returns (blocks: seq<nat>)
    requires ItemOutcome(input, item).Ok? && ItemOutcome(input, item).value.Spent?
    requires ItemOutcome(input, item).value.group.destination in input.cutoffs
    ensures var group := ItemOutcome(input, item).value.group;
            var d := group.destination;
            |blocks| == |group.receipts| && d in input.destinations
            && (forall j :: 0 <= j < |blocks| ==>
                  Applied(input.destinations[d], input.cutoffs[d], input.codec, group.receipts[j].transaction,
                          blocks[j]))
            && (blocks != [] ==> (OneBlock(blocks) <==> blocks[0] != 0 || blocks[|blocks| - 1] == 0))
  {
    var group := ItemOutcome(input, item).value.group;
    var d := group.destination;
    blocks := SpentBlocks(input.destinations[d], input.cutoffs[d], input.codec, input.shard, group, 0, 0);
    forall j | 0 <= j < |blocks|
      ensures Applied(input.destinations[d], input.cutoffs[d], input.codec, group.receipts[j].transaction, blocks[j])
    {
      assert 0 + j == j;
    }
    if blocks != [] {
      PassingBlocks(blocks);
    }
  }

  // And any blocks that are all the same pass.
  lemma {:induction false} OneBlockPasses(blocks: seq<nat>)
    requires OneBlock(blocks)
    ensures BlocksPass(blocks, 0)
    decreases |blocks|
  {
    if blocks != [] {
      if blocks[0] != 0 {
        PassFrom(blocks[1..], blocks[0]);
      } else {
        OneBlockPasses(blocks[1..]);
      }
    }
  }

  lemma AppliedThere(db: Db, cutoff: nat, codec: Codec, shard: nat, number: nat, transaction: Hash, block: nat)
    requires db.getFails == {} && db.hasFails == {} && Applied(db, cutoff, codec, transaction, block)
    requires db.entries[LookupKey(transaction)] != [] && db.entries[CanonicalKey(block)] != Zeros(32)
    ensures Application(db, Some(cutoff), codec, shard, number, transaction) == Ok(Some(block))
  {
  }

  // A database with the lookups of two receipts: one names block 0, the other a later block.
  lemma TwoLookups(db: Db, codec: Codec, first: Hash, second: Hash, late: Uint64, hash: Hash, shard: nat, number: nat)
    requires first != second && late != 0 && hash != Zeros(32)
    requires db == Db(map[LookupKey(first) := [1], LookupKey(second) := [2],
                          CanonicalKey(0) := hash, CanonicalKey(late) := hash], {}, {})
    requires codec.lookup([1]) == Some(Lookup(hash, 0)) && codec.lookup([2]) == Some(Lookup(hash, late))
    ensures Applied(db, late, codec, first, 0) && Applied(db, late, codec, second, late)
    ensures Application(db, Some(late), codec, shard, number, first) == Ok(Some(0))
    ensures Application(db, Some(late), codec, shard, number, second) == Ok(Some(late))
  {
    if LookupKey(first) == LookupKey(second) {
      LookupKeyInjective(first, second);
    }
    Pow2At64();
    if CanonicalKey(0) == CanonicalKey(late) {
      CanonicalKeyInjective(0, late);
    }
    assert |LookupKey(first)| == |LookupKey(second)| == 34 && |CanonicalKey(0)| == |CanonicalKey(late)| == 10;
    AppliedThere(db, late, codec, shard, number, first, 0);
    AppliedThere(db, late, codec, shard, number, second, late);
  }

  // A group of two receipts, applied canonically in block 0 and in block 7, which counts as spent.
  lemma TwoBlocksPass() returns (db: Db, codec: Codec, group: Group)
    ensures |group.receipts| == 2
    ensures Applied(db, 7, codec, group.receipts[0].transaction, 0)
    ensures Applied(db, 7, codec, group.receipts[1].transaction, 7)
    ensures SpentFrom(db, Some(7), codec, 0, group, 0, 0) == Ok(true)
  {
    var first: Hash, second: Hash, hash: Hash := Zeros(31) + [1], Zeros(31) + [2], Zeros(31) + [3];
    assert first[31] == 1 && second[31] == 2 && hash[31] == 3 && Zeros(32)[31] == 0;
    codec := Codec(value => None, value => Some(Lookup(hash, if value == [1] then 0 else 7)));
    db := Db(map[LookupKey(first) := [1], LookupKey(second) := [2], CanonicalKey(0) := hash, CanonicalKey(7) := hash],
             {}, {});
    group := Group(1, 5, hash, [Receipt(first, Some(0), 0, 1, Some(1)), Receipt(second, Some(0), 0, 1, Some(1))], 2);
    TwoLookups(db, codec, first, second, 7, hash, 0, 5);
    TwoPass(db, Some(7), codec, 0, group);
  }

  lemma TwoPass(db: Db, cutoff: Option<nat>, codec: Codec, shard: nat, group: Group)
    requires |group.receipts| == 2
    requires Application(db, cutoff, codec, shard, group.number, group.receipts[0].transaction) == Ok(Some(0))
    requires Application(db, cutoff, codec, shard, group.number, group.receipts[1].transaction).Ok?
    requires Application(db, cutoff, codec, shard, group.number, group.receipts[1].transaction).value.Some?
    ensures SpentFrom(db, cutoff, codec, shard, group, 0, 0) == Ok(true)
  {
    var last := Application(db, cutoff, codec, shard, group.number, group.receipts[1].transaction).value.value;
    assert SpentFrom(db, cutoff, codec, shard, group, 2, last) == Ok(true);
    assert SpentFrom(db, cutoff, codec, shard, group, 1, 0) == Ok(true);
  }

  // ---- a rising cutoff -------------------------------------------------

  ghost predicate SameButCutoffs(a: Input, b: Input) {
    b == a.(cutoffs := b.cutoffs) && (forall d :: d in a.cutoffs <==> d in b.cutoffs)
    && forall d :: d in a.cutoffs ==> a.cutoffs[d] <= b.cutoffs[d]
  }

  lemma {:induction false} SpentStays(db: Db, low: nat, high: nat, codec: Codec, shard: nat, group: Group, i: nat,
                                      block: nat)
    requires i <= |group.receipts| && low <= high
    requires SpentFrom(db, Some(low), codec, shard, group, i, block) == Ok(true)
    ensures SpentFrom(db, Some(high), codec, shard, group, i, block) == Ok(true)
    decreases |group.receipts| - i
  {
    if i < |group.receipts| {
      var b := Application(db, Some(low), codec, shard, group.number, group.receipts[i].transaction).value.value;
      SpentStays(db, low, high, codec, shard, group, i + 1, b);
    }
  }

  lemma ItemAdvances(a: Input, b: Input, item: Item)
    requires SameButCutoffs(a, b) && ItemOutcome(a, item).Ok? && ItemOutcome(b, item).Ok?
    ensures var x, y := ItemOutcome(a, item).value, ItemOutcome(b, item).value;
            x == y || (x.Pending? && y == Spent(x.group))
  {
    var x := ItemOutcome(a, item).value;
    if IsGroup(x) {
      GroupAdvances(a, b, x.group);
    }
  }

  lemma GroupAdvances(a: Input, b: Input, group: Group)
    requires SameButCutoffs(a, b) && GroupOutcome(a, group).Ok? && GroupOutcome(b, group).Ok?
    ensures var x, y := GroupOutcome(a, group).value, GroupOutcome(b, group).value;
            x == y || (x == Pending(group) && y == Spent(group))
  {
    if GroupOutcome(a, group).value.Spent? {
      if CutoffOf(a, group.destination).Some? {
        SpentStays(a.destinations[group.destination], a.cutoffs[group.destination], b.cutoffs[group.destination],
                   a.codec, a.shard, group, 0, 0);
      }
    }
  }

  // Value, receipts and whole groups moved from pending to spent; nothing else changed.
  ghost predicate Moved(x: Totals, y: Totals) {
    y.spentAmount - x.spentAmount == x.pendingAmount - y.pendingAmount >= 0
    && y.spentGroups - x.spentGroups == |x.pending| - |y.pending| >= 0
    && (forall g :: g in y.pending ==> g in x.pending)
    && y.spentCount - x.spentCount == x.pendingCount - y.pendingCount >= 0
    && (x.empty, x.canonical, x.nonCanonical, x.afterCutoff) == (y.empty, y.canonical, y.nonCanonical, y.afterCutoff)
    && (x.unsupported, x.unsupportedCount, x.unsupportedAmount)
    == (y.unsupported, y.unsupportedCount, y.unsupportedAmount)
  }

  lemma AddMoved(x: Totals, y: Totals, o: Outcome, p: Outcome)
    requires Moved(x, y) && (o == p || (o.Pending? && p == Spent(o.group)))
    ensures Moved(AddOutcome(x, o), AddOutcome(y, p))
  {
  }

  // Raising the destination cutoffs only moves value from pending to spent.
  lemma {:induction false} CutoffMoves(a: Input, b: Input, items: seq<Item>)
    requires SameButCutoffs(a, b) && ScanItems(a, items).Ok? && ScanItems(b, items).Ok?
    ensures Moved(ScanItems(a, items).value, ScanItems(b, items).value)
    decreases |items|
  {
    if items != [] {
      var front, last := items[..|items| - 1], items[|items| - 1];
      CutoffMoves(a, b, front);
      ItemAdvances(a, b, last);
      AddMoved(ScanItems(a, front).value, ScanItems(b, front).value, ItemOutcome(a, last).value,
               ItemOutcome(b, last).value);
    }
  }
}
