/** A receipt scan that succeeds on the full destination databases gives the same result on their
    reduced indexes. */
module SnapshotRefinement {
  import opened Base
  import opened Binary
  import opened CxKeys
  import opened ChainDb
  import opened CrossShard
  import opened CxSnapshot
  import opened ReceiptPartition

  // A healthy database that holds an index.
  ghost predicate IsSnapshot(source: Db, cutoff: nat, codec: Codec, snapshot: Db) {
    snapshot.getFails == {} && snapshot.hasFails == {} && IsIndex(source, cutoff, codec, snapshot.entries)
  }

  // In the index, a lookup key is there only as a kept lookup, a canonical key only for the block
  // of one, and a spent marker never.
  lemma LookupInIndex(source: Db, cutoff: nat, codec: Codec, snapshot: Db, transaction: Hash)
    requires IsSnapshot(source, cutoff, codec, snapshot)
    ensures LookupKey(transaction) in snapshot.entries <==> Kept(source, cutoff, codec, LookupKey(transaction))
  {
    KeysDisjoint(0, 0, transaction, transaction, 0, 0, 0);
  }

  lemma MarkerNotInIndex(source: Db, cutoff: nat, codec: Codec, snapshot: Db, shard: nat, number: nat)
    requires IsSnapshot(source, cutoff, codec, snapshot)
    ensures SpentKey(shard, number) !in snapshot.entries
  {
    assert |SpentKey(shard, number)| == 26;
  }

  lemma HashInIndex(source: Db, cutoff: nat, codec: Codec, snapshot: Db, key: Bytes, block: Uint64)
    requires IsSnapshot(source, cutoff, codec, snapshot) && KeptIn(source, cutoff, codec, key, block)
    requires ReadCanonicalHash(source, block).Ok? && ReadCanonicalHash(source, block).value.Some?
    ensures ReadCanonicalHash(snapshot, block) == ReadCanonicalHash(source, block)
  {
    LooseIsStrict(source, block);
  }

  lemma HealthyRead(snapshot: Db, key: Bytes)
    requires snapshot.getFails == {} && snapshot.hasFails == {}
    ensures ReadOptional(snapshot, key) == Ok(if key in snapshot.entries then Some(snapshot.entries[key]) else None)
  {
  }

  // One receipt: what the full database answers, the index answers too.
  lemma SameApplication(source: Db, limit: nat, codec: Codec, snapshot: Db, cutoff: Option<nat>, shard: nat,
                        number: nat, transaction: Hash)
    requires IsSnapshot(source, limit, codec, snapshot) && (cutoff.Some? ==> cutoff.value <= limit)
    requires Application(source, cutoff, codec, shard, number, transaction).Ok?
    ensures Application(snapshot, cutoff, codec, shard, number, transaction)
         == Application(source, cutoff, codec, shard, number, transaction)
  {
    var key := LookupKey(transaction);
    LookupInIndex(source, limit, codec, snapshot, transaction);
    MarkerNotInIndex(source, limit, codec, snapshot, shard, number);
    HealthyRead(snapshot, key);
    HealthyRead(snapshot, SpentKey(shard, number));
    ReadOptionalExact(source, key);
    if key in source.entries {
      var lookup := codec.lookup(source.entries[key]).value;
      if lookup.block <= cutoff.value {
        LooseIsStrict(source, lookup.block);
        if Kept(source, limit, codec, key) {
          assert KeptIn(source, limit, codec, key, lookup.block);
          HashInIndex(source, limit, codec, snapshot, key, lookup.block);
        }
      }
    }
  }

  lemma {:induction false} SameSpent(source: Db, limit: nat, codec: Codec, snapshot: Db, cutoff: Option<nat>,
                                     shard: nat, group: Group,
                                     i: nat, block: nat)
    requires IsSnapshot(source, limit, codec, snapshot) && (cutoff.Some? ==> cutoff.value <= limit)
    requires i <= |group.receipts| && SpentFrom(source, cutoff, codec, shard, group, i, block).Ok?
    ensures SpentFrom(snapshot, cutoff, codec, shard, group, i, block)
         == SpentFrom(source, cutoff, codec, shard, group, i, block)
    decreases |group.receipts| - i
  {
    if i < |group.receipts| {
      var transaction := group.receipts[i].transaction;
      SameApplication(source, limit, codec, snapshot, cutoff, shard, group.number, transaction);
      var b := Application(source, cutoff, codec, shard, group.number, transaction).value;
      if b.Some? {
        SameSpent(source, limit, codec, snapshot, cutoff, shard, group, i + 1, b.value);
      }
    }
  }

  // The same scan, reading indexes that reach at least as far as the destination cutoffs.
  ghost predicate Reduced(full: Input, reduced: Input, limits: map<nat, nat>) {
    reduced == full.(destinations := reduced.destinations)
    && (forall d :: d in full.destinations <==> d in reduced.destinations)
    && (forall d :: d in full.destinations ==>
          d in limits && IsSnapshot(full.destinations[d], limits[d], full.codec, reduced.destinations[d]))
    && (forall d :: d in full.destinations && d in full.cutoffs ==> full.cutoffs[d] <= limits[d])
  }

  lemma SameGroup(full: Input, reduced: Input, limits: map<nat, nat>, group: Group)
    requires Reduced(full, reduced, limits) && GroupOutcome(full, group).Ok?
    ensures GroupOutcome(reduced, group) == GroupOutcome(full, group)
  {
    var d := group.destination;
    if d in full.destinations {
      SameSpent(full.destinations[d], limits[d], full.codec, reduced.destinations[d], CutoffOf(full, d), full.shard,
                group, 0, 0);
    }
  }

  lemma SameItem(full: Input, reduced: Input, limits: map<nat, nat>, item: Item)
    requires Reduced(full, reduced, limits) && ItemOutcome(full, item).Ok?
    ensures ItemOutcome(reduced, item) == ItemOutcome(full, item)
  {
    var parts := ReceiptKeyParts(item.key);
    if parts.Some? && full.codec.receipts(item.value).Some? {
      var receipts := full.codec.receipts(item.value).value;
      var KeyParts(destination, number, hash) := parts.value;
      var amount := Check(receipts, full.shard, destination);
      if amount.Ok? {
        var group := Group(destination, number, hash, Values(receipts), amount.value);
        if GroupOutcome(full, group).Ok? {
          SameGroup(full, reduced, limits, group);
        }
      }
    }
  }

  lemma {:induction false} SameItems(full: Input, reduced: Input, limits: map<nat, nat>, items: seq<Item>)
    requires Reduced(full, reduced, limits) && ScanItems(full, items).Ok?
    ensures ScanItems(reduced, items) == ScanItems(full, items)
    decreases |items|
  {
    if items != [] {
      SameItems(full, reduced, limits, items[..|items| - 1]);
      SameItem(full, reduced, limits, items[|items| - 1]);
    }
  }

  // Whatever the full scan reports, totals and groups, the reduced scan reports.
  lemma SnapshotStandsIn(full: Input, reduced: Input, limits: map<nat, nat>)
    requires Reduced(full, reduced, limits) && Scan(full).Ok?
    ensures Scan(reduced) == Scan(full)
  {
    SameItems(full, reduced, limits, full.items);
  }

  // ---- exactly when the index answers like the database ------------------

  // What any index answers about a receipt: it knows the kept lookups and nothing else.
  lemma IndexAnswers(source: Db, limit: nat, codec: Codec, snapshot: Db, cutoff: Option<nat>, shard: nat,
                     number: nat, transaction: Hash)
    requires IsSnapshot(source, limit, codec, snapshot) && Decodes(codec)
    ensures Application(snapshot, cutoff, codec, shard, number, transaction)
         == if !Kept(source, limit, codec, LookupKey(transaction)) then Ok(None)
            else
              var lookup := codec.lookup(source.entries[LookupKey(transaction)]).value;
              if cutoff.None? then Err(NoCutoff)
              else if lookup.block > cutoff.value then Ok(None)
              else if lookup.blockHash == Zeros(32) then Err(DestinationUnreadable)
              else Ok(Some(lookup.block))
  {
    var key := LookupKey(transaction);
    LookupInIndex(source, limit, codec, snapshot, transaction);
    MarkerNotInIndex(source, limit, codec, snapshot, shard, number);
    HealthyRead(snapshot, key);
    HealthyRead(snapshot, SpentKey(shard, number));
    if Kept(source, limit, codec, key) {
      var lookup := codec.lookup(source.entries[key]).value;
      assert KeptIn(source, limit, codec, key, lookup.block);
      HealthyRead(snapshot, CanonicalKey(lookup.block));
    }
  }

  // A database in which every read works, every lookup decodes, and the canonical hash of every
  // block that a lookup within the limit names is stored.
  ghost predicate Complete(db: Db, limit: nat, codec: Codec) {
    db.getFails == {} && db.hasFails == {} && Decodes(codec)
    && forall key :: key in db.entries && IsLookup(key) ==>
         codec.lookup(db.entries[key]).Some?
         && (codec.lookup(db.entries[key]).value.block <= limit ==>
               ReadCanonicalHash(db, codec.lookup(db.entries[key]).value.block).Ok?
               && ReadCanonicalHash(db, codec.lookup(db.entries[key]).value.block).value.Some?)
  }

  // The spent marker of a group is there, the lookup of one of its receipts is not.
  predicate Stray(db: Db, shard: nat, number: nat, transaction: Hash) {
    LookupKey(transaction) !in db.entries && SpentKey(shard, number) in db.entries
  }

  // How the scan reports it.
  predicate MarkerError(e: ScanError) {
    e.LookupMissing? || e.InvalidMarker?
  }

  // One receipt: the index answers like the complete database unless the receipt is stray.
  lemma ApplicationExact(source: Db, limit: nat, codec: Codec, snapshot: Db, cutoff: nat, shard: nat,
                         number: nat, transaction: Hash)
    requires IsSnapshot(source, limit, codec, snapshot) && Complete(source, limit, codec) && cutoff <= limit
    ensures Application(snapshot, Some(cutoff), codec, shard, number, transaction).Ok?
    ensures Application(snapshot, Some(cutoff), codec, shard, number, transaction)
         == Application(source, Some(cutoff), codec, shard, number, transaction)
       <==> !Stray(source, shard, number, transaction)
    ensures Stray(source, shard, number, transaction) ==>
              Application(source, Some(cutoff), codec, shard, number, transaction).Err?
              && MarkerError(Application(source, Some(cutoff), codec, shard, number, transaction).error)
  {
    var key := LookupKey(transaction);
    HealthyRead(source, key);
    HealthyRead(source, SpentKey(shard, number));
    IndexAnswers(source, limit, codec, snapshot, Some(cutoff), shard, number, transaction);
    if key in source.entries {
      var lookup := codec.lookup(source.entries[key]).value;
      if lookup.block <= limit {
        LooseIsStrict(source, lookup.block);
      }
      SameApplication(source, limit, codec, snapshot, Some(cutoff), shard, number, transaction);
    }
  }

  // From receipt `i` on, the group has a stray receipt, and every receipt before it was applied,
  // in blocks that pass the one-block test.
  ghost predicate HasStray(db: Db, cutoff: nat, codec: Codec, shard: nat, group: Group, i: nat, block: nat) {
    exists blocks: seq<nat> :: StrayAfter(db, cutoff, codec, shard, group, i, block, blocks)
  }

  ghost predicate StrayAfter(db: Db, cutoff: nat, codec: Codec, shard: nat, group: Group, i: nat, block: nat,
                             blocks: seq<nat>) {
    i + |blocks| < |group.receipts| && BlocksPass(blocks, block)
    && Stray(db, shard, group.number, group.receipts[i + |blocks|].transaction)
    && forall j :: 0 <= j < |blocks| ==> Applied(db, cutoff, codec, group.receipts[i + j].transaction, blocks[j])
  }

  lemma StrayStep(db: Db, cutoff: nat, codec: Codec, shard: nat, group: Group, i: nat, block: nat)
    requires i < |group.receipts| && !Stray(db, shard, group.number, group.receipts[i].transaction)
    ensures HasStray(db, cutoff, codec, shard, group, i, block)
       <==> exists b: nat :: Applied(db, cutoff, codec, group.receipts[i].transaction, b) && (block == 0 || block == b)
                             && HasStray(db, cutoff, codec, shard, group, i + 1, b)
  {
    if HasStray(db, cutoff, codec, shard, group, i, block) {
      var blocks: seq<nat> :| StrayAfter(db, cutoff, codec, shard, group, i, block, blocks);
      assert Applied(db, cutoff, codec, group.receipts[i + 0].transaction, blocks[0]);
      assert StrayAfter(db, cutoff, codec, shard, group, i + 1, blocks[0], blocks[1..]) by {
        forall j | 0 <= j < |blocks[1..]|
          ensures Applied(db, cutoff, codec, group.receipts[i + 1 + j].transaction, blocks[1..][j])
        {
          assert i + 1 + j == i + (j + 1);
        }
      }
    }
    if b: nat :| Applied(db, cutoff, codec, group.receipts[i].transaction, b) && (block == 0 || block == b)
                 && HasStray(db, cutoff, codec, shard, group, i + 1, b) {
      var rest: seq<nat> :| StrayAfter(db, cutoff, codec, shard, group, i + 1, b, rest);
      var blocks := [b] + rest;
      assert blocks[1..] == rest;
      assert StrayAfter(db, cutoff, codec, shard, group, i, block, blocks);
    }
  }

  // A group: the index answers like the complete database unless the scan gets to a stray receipt.
  lemma {:induction false} SpentExact(source: Db, limit: nat, codec: Codec, snapshot: Db, cutoff: nat, shard: nat,
                                      group: Group, i: nat, block: nat)
    requires IsSnapshot(source, limit, codec, snapshot) && Complete(source, limit, codec) && cutoff <= limit
    requires i <= |group.receipts|
    ensures var full := SpentFrom(source, Some(cutoff), codec, shard, group, i, block);
            var reduced := SpentFrom(snapshot, Some(cutoff), codec, shard, group, i, block);
            (reduced.Err? ==> !MarkerError(reduced.error))
            && if HasStray(source, cutoff, codec, shard, group, i, block) then full.Err? && MarkerError(full.error)
               else reduced == full
    decreases |group.receipts| - i
  {
    if i < |group.receipts| {
      var transaction := group.receipts[i].transaction;
      ApplicationExact(source, limit, codec, snapshot, cutoff, shard, group.number, transaction);
      if Stray(source, shard, group.number, transaction) {
        assert StrayAfter(source, cutoff, codec, shard, group, i, block, []);
        var answer := Application(snapshot, Some(cutoff), codec, shard, group.number, transaction).value;
        if answer.Some? {
          SpentExact(source, limit, codec, snapshot, cutoff, shard, group, i + 1, answer.value);
        }
      } else {
        StrayStep(source, cutoff, codec, shard, group, i, block);
        ApplicationMeans(source, cutoff, codec, shard, group.number, transaction);
        var answer := Application(source, Some(cutoff), codec, shard, group.number, transaction).value;
        if answer.Some? {
          SpentExact(source, limit, codec, snapshot, cutoff, shard, group, i + 1, answer.value);
        }
      }
    }
  }

  // Every destination has a cutoff, and a complete database up to the limit of its index.
  ghost predicate AllComplete(full: Input, limits: map<nat, nat>) {
    forall d :: d in full.destinations ==>
      d in full.cutoffs && d in limits && Complete(full.destinations[d], limits[d], full.codec)
  }

  // The group that an item holds.
  function GroupOf(input: Input, item: Item): Option<Group> {
    var parts := ReceiptKeyParts(item.key);
    if !InScope(input, item) || ReadCanonicalHash(input.source, parts.value.number) != Ok(Some(parts.value.hash))
       || input.codec.receipts(item.value).None? then None
    else
      var receipts := input.codec.receipts(item.value).value;
      match Check(receipts, input.shard, parts.value.destination)
      case Err(_) => None
      case Ok(amount) =>
        Some(Group(parts.value.destination, parts.value.number, parts.value.hash, Values(receipts), amount))
  }

  ghost predicate StrayItem(full: Input, item: Item) {
    var group := GroupOf(full, item);
    group.Some? && group.value.destination in full.destinations && group.value.destination in full.cutoffs
    && HasStray(full.destinations[group.value.destination], full.cutoffs[group.value.destination], full.codec,
                full.shard, group.value, 0, 0)
  }

  lemma OutcomeOfGroup(input: Input, item: Item)
    ensures match GroupOf(input, item)
            case Some(group) => ItemOutcome(input, item) == GroupOutcome(input, group)
            case None => ItemOutcome(input, item).Err? ==> !MarkerError(ItemOutcome(input, item).error)
    ensures GroupOf(input, item).None? ==>
              forall other: Input :: other == input.(destinations := other.destinations) ==>
                ItemOutcome(other, item) == ItemOutcome(input, item)
  {
    var parts := ReceiptKeyParts(item.key);
    if parts.Some? {
      ReadOptionalExact(input.source, CanonicalKey(parts.value.number));
      if input.codec.receipts(item.value).Some? {
        CheckErrors(input.codec.receipts(item.value).value, input.shard, parts.value.destination);
      }
    }
  }

  lemma {:induction false} CheckErrors(receipts: seq<Option<Receipt>>, shard: nat, destination: nat)
    ensures Check(receipts, shard, destination).Err? ==> !MarkerError(Check(receipts, shard, destination).error)
    decreases |receipts|
  {
    if receipts != [] {
      CheckErrors(receipts[..|receipts| - 1], shard, destination);
    }
  }

  lemma ItemExact(full: Input, reduced: Input, limits: map<nat, nat>, item: Item)
    requires Reduced(full, reduced, limits) && AllComplete(full, limits)
    ensures var outcome := ItemOutcome(reduced, item);
            (outcome.Err? ==> !MarkerError(outcome.error))
            && if StrayItem(full, item) then ItemOutcome(full, item).Err? && MarkerError(ItemOutcome(full, item).error)
               else outcome == ItemOutcome(full, item)
  {
    OutcomeOfGroup(full, item);
    OutcomeOfGroup(reduced, item);
    var group := GroupOf(full, item);
    assert GroupOf(reduced, item) == group;
    if group.Some? && group.value.destination in full.destinations {
      var d := group.value.destination;
      SpentExact(full.destinations[d], limits[d], full.codec, reduced.destinations[d], full.cutoffs[d], full.shard,
                 group.value, 0, 0);
    }
  }

  ghost predicate MeetsStrayAt(full: Input, items: seq<Item>, k: nat) {
    k < |items| && StrayItem(full, items[k]) && ScanItems(full, items[..k]).Ok?
  }

  // The scan gets to an item with a stray receipt.
  ghost predicate MeetsStray(full: Input, items: seq<Item>) {
    exists k: nat :: MeetsStrayAt(full, items, k)
  }

  lemma StrayAtFront(full: Input, items: seq<Item>, k: nat)
    requires k < |items| - 1
    ensures MeetsStrayAt(full, items[..|items| - 1], k) <==> MeetsStrayAt(full, items, k)
  {
    assert items[..|items| - 1][..k] == items[..k];
  }

  lemma StrayLast(full: Input, items: seq<Item>)
    requires items != []
    ensures MeetsStray(full, items)
       <==> MeetsStray(full, items[..|items| - 1]) || MeetsStrayAt(full, items, |items| - 1)
  {
    if k: nat :| MeetsStrayAt(full, items, k) {
      if k < |items| - 1 {
        StrayAtFront(full, items, k);
      }
    }
    var front := items[..|items| - 1];
    if k: nat :| MeetsStrayAt(full, front, k) {
      StrayAtFront(full, items, k);
    }
  }

  lemma {:induction false} ItemsExact(full: Input, reduced: Input, limits: map<nat, nat>, items: seq<Item>)
    requires Reduced(full, reduced, limits) && AllComplete(full, limits)
    ensures var scan := ScanItems(reduced, items);
            (scan.Err? ==> !MarkerError(scan.error))
            && if MeetsStray(full, items) then ScanItems(full, items).Err? && MarkerError(ScanItems(full, items).error)
               else scan == ScanItems(full, items)
    decreases |items|
  {
    if items != [] {
      ItemsExact(full, reduced, limits, items[..|items| - 1]);
      ItemExact(full, reduced, limits, items[|items| - 1]);
      StrayLast(full, items);
    }
  }

  // Over complete databases the reduced scan ends like the full one, in its totals or its error,
  // if and only if the full scan meets no stray receipt. Where it meets one the full scan reports
  // the marker, which the index cannot.
  lemma SnapshotExact(full: Input, reduced: Input, limits: map<nat, nat>)
    requires Reduced(full, reduced, limits) && AllComplete(full, limits)
    ensures Scan(reduced) == Scan(full) <==> !MeetsStray(full, full.items)
    ensures MeetsStray(full, full.items) ==> Scan(full).Err? && MarkerError(Scan(full).error)
  {
    ItemsExact(full, reduced, limits, full.items);
  }

  // No receipt of a group in scope is stray.
  ghost predicate NothingStray(full: Input) {
    forall k, j :: 0 <= k < |full.items| && GroupOf(full, full.items[k]).Some?
                   && 0 <= j < |GroupOf(full, full.items[k]).value.receipts|
                   && GroupOf(full, full.items[k]).value.destination in full.destinations ==>
      var group := GroupOf(full, full.items[k]).value;
      !Stray(full.destinations[group.destination], full.shard, group.number, group.receipts[j].transaction)
  }

  lemma NoStrayItem(full: Input, k: nat)
    requires NothingStray(full) && k < |full.items|
    ensures !StrayItem(full, full.items[k])
  {
    var group := GroupOf(full, full.items[k]);
    if group.Some? && group.value.destination in full.destinations && group.value.destination in full.cutoffs {
      var Group(d, number, _, receipts, _) := group.value;
      forall blocks: seq<nat>
        ensures !StrayAfter(full.destinations[d], full.cutoffs[d], full.codec, full.shard, group.value, 0, 0, blocks)
      {
        if |blocks| < |receipts| {
          assert !Stray(full.destinations[d], full.shard, number, receipts[|blocks|].transaction);
        }
      }
    }
  }

  // Something to check before any scan: when no marker stands without its lookups, both scans end
  // alike.
  lemma SnapshotEquivalent(full: Input, reduced: Input, limits: map<nat, nat>)
    requires Reduced(full, reduced, limits) && AllComplete(full, limits) && NothingStray(full)
    ensures Scan(reduced) == Scan(full)
  {
    SnapshotExact(full, reduced, limits);
    forall k: nat | k < |full.items| ensures !StrayItem(full, full.items[k]) {
      NoStrayItem(full, k);
    }
  }

  // A database that holds one spent marker, and its index, which is empty.
  lemma MarkerAlone(db: Db, limit: nat, codec: Codec, shard: nat, number: nat, transaction: Hash, cutoff: nat)
    requires db == Db(map[SpentKey(shard, number) := [0]], {}, {}) && Decodes(codec)
    ensures IsSnapshot(db, limit, codec, Db(map[], {}, {})) && Complete(db, limit, codec)
    ensures Application(db, Some(cutoff), codec, shard, number, transaction) == Err(LookupMissing)
    ensures Application(Db(map[], {}, {}), Some(cutoff), codec, shard, number, transaction) == Ok(None)
  {
    KeysDisjoint(0, 0, transaction, transaction, shard, number, 0);
  }

  lemma OneChecked(receipt: Option<Receipt>)
    requires receipt.Some? && receipt.value.receiver.Some? && receipt.value.amount.Some?
    requires receipt.value.amount.value >= 0
    ensures Check([receipt], receipt.value.shard, receipt.value.toShard) == Ok(receipt.value.amount.value)
    ensures Values([receipt]) == [receipt.value]
  {
    assert [receipt][..0] == [];
  }

  // An item in scope with one receipt.
  lemma OneReceipt(input: Input, item: Item, parts: KeyParts, receipt: Receipt)
    requires ReceiptKeyParts(item.key) == Some(parts) && item.value != [0xc0] && parts.number <= input.cutoff
    requires ReadCanonicalHash(input.source, parts.number) == Ok(Some(parts.hash))
    requires input.codec.receipts(item.value) == Some([Some(receipt)])
    requires receipt.receiver.Some? && receipt.amount.Some? && receipt.amount.value >= 0
    requires receipt.shard == input.shard && receipt.toShard == parts.destination
    ensures ItemOutcome(input, item)
         == GroupOutcome(input, Group(parts.destination, parts.number, parts.hash, [receipt], receipt.amount.value))
  {
    OneChecked(Some(receipt));
  }

  // A scan of one group, which holds one receipt.
  lemma OneItem(input: Input, item: Item, group: Group)
    requires input.items == [item] && ItemOutcome(input, item) == GroupOutcome(input, group)
    requires |group.receipts| == 1 && group.destination in input.destinations && group.destination in input.cutoffs
    requires !input.iterationFails
    ensures var answer := Application(input.destinations[group.destination], Some(input.cutoffs[group.destination]),
                                      input.codec, input.shard, group.number, group.receipts[0].transaction);
            (answer.Err? ==> Scan(input) == Err(answer.error))
            && (answer == Ok(None) ==> Scan(input).Ok? && Scan(input).value.pendingAmount == group.amount)
  {
    assert [item][..0] == [];
    assert ScanItems(input, []) == Ok(ZERO);
  }

  // A scan of one receipt over a destination that knows no lookup, with and without a marker.
  lemma OneScan(input: Input, item: Item, parts: KeyParts, receipt: Receipt, limit: nat)
    requires input.items == [item] && !input.iterationFails && ReceiptKeyParts(item.key) == Some(parts)
    requires item.value != [0xc0] && parts.number <= input.cutoff
    requires input.source == Db(map[CanonicalKey(parts.number) := parts.hash], {}, {}) && parts.hash != Zeros(32)
    requires input.codec.receipts(item.value) == Some([Some(receipt)]) && Decodes(input.codec)
    requires receipt.receiver.Some? && receipt.amount.Some? && receipt.amount.value >= 0
    requires receipt.shard == input.shard && receipt.toShard == parts.destination
    requires parts.destination in input.destinations && parts.destination in input.cutoffs
    ensures input.destinations[parts.destination] == Db(map[SpentKey(input.shard, parts.number) := [0]], {}, {}) ==>
              Scan(input) == Err(LookupMissing)
    ensures input.destinations[parts.destination] == Db(map[], {}, {}) ==>
              Scan(input).Ok? && Scan(input).value.pendingAmount == receipt.amount.value
  {
    HealthyRead(input.source, CanonicalKey(parts.number));
    OneReceipt(input, item, parts, receipt);
    OneItem(input, item, Group(parts.destination, parts.number, parts.hash, [receipt], receipt.amount.value));
    MarkerAlone(Db(map[SpentKey(input.shard, parts.number) := [0]], {}, {}), limit, input.codec, input.shard,
                parts.number, receipt.transaction, input.cutoffs[parts.destination]);
  }

  // One receipt sent in a block. The destination has the spent marker of that block but no
  // lookup: the full scan reports it, the reduced scan has the receipt pending.
  lemma LostMarker(number: Uint64, block: Hash, receipt: Receipt, limit: nat)
    returns (full: Input, reduced: Input, limits: map<nat, nat>)
    requires block != Zeros(32) && receipt.receiver.Some? && receipt.amount.Some? && receipt.amount.value >= 0
    requires receipt.toShard < Pow2(8 * 4)
    ensures Reduced(full, reduced, limits) && AllComplete(full, limits)
    ensures Scan(full) == Err(LookupMissing)
    ensures Scan(reduced).Ok? && Scan(reduced).value.pendingAmount == receipt.amount.value
  {
    var shard, d := receipt.shard, receipt.toShard;
    var codec := Codec(value => Some([Some(receipt)]), value => None);
    var marked, index := Db(map[SpentKey(shard, number) := [0]], {}, {}), Db(map[], {}, {});
    var item := Item(ReceiptKey(d, number, block), [1]);
    full := Input(shard, Db(map[CanonicalKey(number) := block], {}, {}), [item], false, number, map[d := marked],
                  map[d := limit], codec);
    reduced := full.(destinations := map[d := index]);
    limits := map[d := limit];
    MarkerAlone(marked, limit, codec, shard, number, receipt.transaction, limit);
    Pow2At64();
    KeyRoundTrip(d, number, block);
    OneScan(full, item, KeyParts(d, number, block), receipt, limit);
    OneScan(reduced, item, KeyParts(d, number, block), receipt, limit);
  }

  // A concrete pair of databases: 5 sent from shard 0 to shard 1.
  lemma MarkerIsLost() returns (full: Input, reduced: Input, limits: map<nat, nat>)
    ensures Reduced(full, reduced, limits) && AllComplete(full, limits)
    ensures Scan(full) == Err(LookupMissing)
    ensures Scan(reduced).Ok? && Scan(reduced).value.pendingAmount == 5
  {
    var block: Hash, transaction: Hash := Zeros(31) + [1], Zeros(31) + [2];
    assert block[31] == 1 && Zeros(32)[31] == 0;
    Pow2Values();
    Pow2Add(30, 2);
    full, reduced, limits := LostMarker(3, block, Receipt(transaction, Some(0), 0, 1, Some(5)), 20);
  }
}
