/** Amounts that are not issued: the existing inventories, the retained balances and the revert
    leaks. Together they never exceed the claims, and what one program writes the other accepts. */
module NonIssuance {
  import opened Base
  import opened Totals

  type Address = nat

  // The claims ledger by address.
  type Claims = map<Address, int>

  datatype Existing = Existing(address: Address, notIssued: int, claim: int)

  datatype Retained = Retained(address: Address, initial: int, cutoffBalance: int, rpcBalance: int, retained: int,
                               changed: bool, block: int)

  datatype Leak = Leak(address: Address, credit: int, claim: int, prior: int, withheld: int, notIssued: bool)

  function Min(a: int, b: int): int {
    if a <= b then a else b
  }

  // ---- the existing inventories ----------------------------------------

  function ExistingAmounts(rows: seq<Existing>): map<Address, int>
    decreases |rows|
  {
    if rows == [] then map[]
    else ExistingAmounts(rows[..|rows| - 1])[rows[|rows| - 1].address := rows[|rows| - 1].notIssued]
  }

  // No address twice, and no amount outside its recorded claim.
  predicate ExistingFits(rows: seq<Existing>)
    decreases |rows|
  {
    rows == [] ||
    var front, last := rows[..|rows| - 1], rows[|rows| - 1];
    ExistingFits(front) && last.address !in ExistingAmounts(front) && 0 <= last.notIssued <= last.claim
  }

  lemma {:induction false} ExistingStops(rows: seq<Existing>, i: nat)
    requires i <= |rows| && !ExistingFits(rows[..i])
    ensures !ExistingFits(rows)
    decreases |rows|
  {
    if i == |rows| {
      assert rows[..i] == rows;
    } else {
      assert rows[..|rows| - 1][..i] == rows[..i];
      ExistingStops(rows[..|rows| - 1], i);
    }
  }

  function ExistingAddresses(rows: seq<Existing>): (all: seq<Address>)
    ensures |all| == |rows| && forall i :: 0 <= i < |rows| ==> all[i] == rows[i].address
  {
    seq(|rows|, i requires 0 <= i < |rows| => rows[i].address)
  }

  lemma ExistingAddressesMore(rows: seq<Existing>)
    requires rows != []
    ensures ExistingAddresses(rows) == ExistingAddresses(rows[..|rows| - 1]) + [rows[|rows| - 1].address]
  {
  }

  lemma {:induction false} ExistingKeys(rows: seq<Existing>, a: Address)
    ensures a in ExistingAmounts(rows) <==> a in ExistingAddresses(rows)
    decreases |rows|
  {
    if rows != [] {
      ExistingKeys(rows[..|rows| - 1], a);
      ExistingAddressesMore(rows);
    }
  }

  ghost predicate WithinOwnClaims(rows: seq<Existing>) {
    forall i :: 0 <= i < |rows| ==> 0 <= rows[i].notIssued && rows[i].notIssued <= rows[i].claim
  }

  // When the inventories are accepted.
  lemma {:induction false} ExistingAccepted(rows: seq<Existing>)
    ensures ExistingFits(rows) <==> WithinOwnClaims(rows) && Different(ExistingAddresses(rows))
    decreases |rows|
  {
    if rows != [] {
      var front, last := rows[..|rows| - 1], rows[|rows| - 1];
      ExistingAccepted(front);
      ExistingKeys(front, last.address);
      ExistingAddressesMore(rows);
      DifferentMore(ExistingAddresses(front), last.address);
      OwnClaimsMore(front, last);
      assert rows == front + [last];
    }
  }

  lemma OwnClaimsMore(rows: seq<Existing>, row: Existing)
    ensures WithinOwnClaims(rows + [row]) <==> WithinOwnClaims(rows) && 0 <= row.notIssued && row.notIssued <= row.claim
  {
    var more := rows + [row];
    assert more[|rows|] == row && forall i :: 0 <= i < |rows| ==> more[i] == rows[i];
  }

  // What is read for an address is what its row says.
  lemma {:induction false} ExistingRead(rows: seq<Existing>, i: nat)
    requires ExistingFits(rows) && i < |rows|
    ensures rows[i].address in ExistingAmounts(rows)
    ensures ExistingAmounts(rows)[rows[i].address] == rows[i].notIssued
    decreases |rows|
  {
    if i < |rows| - 1 {
      ExistingRead(rows[..|rows| - 1], i);
    }
  }

  // The inventories, one after the other, with their total.
  method LoadExisting(rows: seq<Existing>) returns (r: Option<map<Address, int>>, total: int)
    ensures r.Some? <==> ExistingFits(rows)
    ensures r.Some? ==> r.value == ExistingAmounts(rows) && total == SumMap(r.value)
  {
    var amounts: map<Address, int> := map[];
    total := 0;
    for i := 0 to |rows|
      invariant ExistingFits(rows[..i]) && amounts == ExistingAmounts(rows[..i]) && total == SumMap(amounts)
    {
      assert rows[..i + 1][..i] == rows[..i];
      if rows[i].address in amounts || rows[i].notIssued < 0 || rows[i].notIssued > rows[i].claim {
        ExistingStops(rows, i + 1);
        return None, total;
      }
      SumMapPut(amounts, rows[i].address, rows[i].notIssued);
      amounts := amounts[rows[i].address := rows[i].notIssued];
      total := total + rows[i].notIssued;
    }
    assert rows[..|rows|] == rows;
    r := Some(amounts);
  }

  // ---- the retained balances -------------------------------------------

  function Addresses(rows: seq<Retained>): set<Address>
    decreases |rows|
  {
    if rows == [] then {} else Addresses(rows[..|rows| - 1]) + {rows[|rows| - 1].address}
  }

  // Only positive amounts are kept.
  function RetainedAmounts(rows: seq<Retained>): map<Address, int>
    decreases |rows|
  {
    if rows == [] then map[]
    else
      var before, last := RetainedAmounts(rows[..|rows| - 1]), rows[|rows| - 1];
      if last.retained > 0 then before[last.address := last.retained] else before
  }

  predicate RowFits(row: Retained, block: int) {
    row.retained == Min(row.initial, row.rpcBalance) && row.cutoffBalance == row.rpcBalance && !row.changed
    && row.block == block
  }

  // No address twice, every cap as its inputs say, no balance changed, all at one block.
  predicate RetainedFits(rows: seq<Retained>, block: int)
    decreases |rows|
  {
    rows == [] ||
    var front, last := rows[..|rows| - 1], rows[|rows| - 1];
    RetainedFits(front, block) && last.address !in Addresses(front) && RowFits(last, block)
  }

  lemma {:induction false} RetainedStops(rows: seq<Retained>, i: nat, block: int)
    requires i <= |rows| && !RetainedFits(rows[..i], block)
    ensures !RetainedFits(rows, block)
    decreases |rows|
  {
    if i == |rows| {
      assert rows[..i] == rows;
    } else {
      assert rows[..|rows| - 1][..i] == rows[..i];
      RetainedStops(rows[..|rows| - 1], i, block);
    }
  }

  lemma {:induction false} RetainedAmong(rows: seq<Retained>)
    ensures forall a :: a in RetainedAmounts(rows) ==> a in Addresses(rows)
    decreases |rows|
  {
    if rows != [] {
      RetainedAmong(rows[..|rows| - 1]);
    }
  }

  function RetainedAddresses(rows: seq<Retained>): (all: seq<Address>)
    ensures |all| == |rows| && forall i :: 0 <= i < |rows| ==> all[i] == rows[i].address
  {
    seq(|rows|, i requires 0 <= i < |rows| => rows[i].address)
  }

  lemma RetainedAddressesMore(rows: seq<Retained>)
    requires rows != []
    ensures RetainedAddresses(rows) == RetainedAddresses(rows[..|rows| - 1]) + [rows[|rows| - 1].address]
  {
  }

  lemma {:induction false} AddressesAre(rows: seq<Retained>, a: Address)
    ensures a in Addresses(rows) <==> a in RetainedAddresses(rows)
    decreases |rows|
  {
    if rows != [] {
      AddressesAre(rows[..|rows| - 1], a);
      RetainedAddressesMore(rows);
    }
  }

  // The cap of a row is the lower of its two balances.
  predicate Capped(row: Retained, block: int) {
    row.retained <= row.initial && row.retained <= row.rpcBalance
    && (row.retained == row.initial || row.retained == row.rpcBalance)
    && row.cutoffBalance == row.rpcBalance && !row.changed && row.block == block
  }

  ghost predicate AllCapped(rows: seq<Retained>, block: int) {
    forall i :: 0 <= i < |rows| ==> Capped(rows[i], block)
  }

  // When the retained rows are accepted.
  lemma {:induction false} RetainedAccepted(rows: seq<Retained>, block: int)
    ensures RetainedFits(rows, block) <==> AllCapped(rows, block) && Different(RetainedAddresses(rows))
    decreases |rows|
  {
    if rows != [] {
      var front, last := rows[..|rows| - 1], rows[|rows| - 1];
      RetainedAccepted(front, block);
      AddressesAre(front, last.address);
      RetainedAddressesMore(rows);
      DifferentMore(RetainedAddresses(front), last.address);
      CappedMore(front, last, block);
      assert rows == front + [last];
    }
  }

  lemma CappedMore(rows: seq<Retained>, row: Retained, block: int)
    ensures AllCapped(rows + [row], block) <==> AllCapped(rows, block) && RowFits(row, block)
  {
    var more := rows + [row];
    assert more[|rows|] == row && forall i :: 0 <= i < |rows| ==> more[i] == rows[i];
  }

  // What is read for an address is what its row says, if that is positive.
  lemma {:induction false} RetainedRead(rows: seq<Retained>, block: int, i: nat)
    requires RetainedFits(rows, block) && i < |rows|
    ensures Get(RetainedAmounts(rows), rows[i].address) == if rows[i].retained > 0 then rows[i].retained else 0
    ensures rows[i].address in RetainedAmounts(rows) <==> rows[i].retained > 0
    decreases |rows|
  {
    RetainedAmong(rows[..|rows| - 1]);
    if i < |rows| - 1 {
      RetainedRead(rows[..|rows| - 1], block, i);
      AddressesAre(rows[..|rows| - 1], rows[i].address);
      assert RetainedAddresses(rows[..|rows| - 1])[i] == rows[i].address;
    }
  }

  method LoadRetained(rows: seq<Retained>) returns (r: Option<map<Address, int>>, total: int)
    ensures r.Some? <==> rows != [] && RetainedFits(rows, rows[0].block)
    ensures r.Some? ==> r.value == RetainedAmounts(rows) && total == SumMap(r.value)
  {
    total := 0;
    if rows == [] {
      return None, total;
    }
    var block := rows[0].block;
    var seen: set<Address>, amounts: map<Address, int> := {}, map[];
    for i := 0 to |rows|
      invariant RetainedFits(rows[..i], block) && seen == Addresses(rows[..i])
      invariant amounts == RetainedAmounts(rows[..i]) && total == SumMap(amounts)
    {
      var row := rows[i];
      assert rows[..i + 1][..i] == rows[..i];
      if row.address in seen || row.retained != Min(row.initial, row.rpcBalance) || row.cutoffBalance != row.rpcBalance
         || row.changed || row.block != block {
        RetainedStops(rows, i + 1, block);
        return None, total;
      }
      RetainedAmong(rows[..i]);
      seen := seen + {row.address};
      if row.retained > 0 {
        SumMapPut(amounts, row.address, row.retained);
        amounts := amounts[row.address := row.retained];
        total := total + row.retained;
      }
    }
    assert rows[..|rows|] == rows;
    r := Some(amounts);
  }

  // ---- the revert leaks ------------------------------------------------

  // A receipt row of the source audit: whether its class is a leak, and its identity.
  datatype Receipt = Receipt(leak: bool, id: nat, address: Address, amount: int)

  // Leak receipts, each identity once.
  function Counted(receipts: seq<Receipt>): set<nat>
    decreases |receipts|
  {
    if receipts == [] then {}
    else
      var before, last := Counted(receipts[..|receipts| - 1]), receipts[|receipts| - 1];
      if last.leak then before + {last.id} else before
  }

  predicate Counts(receipts: seq<Receipt>, i: nat)
    requires i < |receipts|
  {
    receipts[i].leak && receipts[i].id !in Counted(receipts[..i])
  }

  function Credits(receipts: seq<Receipt>): Option<map<Address, int>>
    decreases |receipts|
  {
    if receipts == [] then Some(map[])
    else
      match Credits(receipts[..|receipts| - 1])
      case None => None
      case Some(credits) =>
        var last := receipts[|receipts| - 1];
        if !Counts(receipts, |receipts| - 1) then Some(credits)
        else if last.amount <= 0 then None
        else Some(credits[last.address := Get(credits, last.address) + last.amount])
  }

  lemma {:induction false} CreditsStop(receipts: seq<Receipt>, i: nat)
    requires i <= |receipts| && Credits(receipts[..i]).None?
    ensures Credits(receipts).None?
    decreases |receipts|
  {
    if i == |receipts| {
      assert receipts[..i] == receipts;
    } else {
      assert receipts[..|receipts| - 1][..i] == receipts[..i];
      CreditsStop(receipts[..|receipts| - 1], i);
    }
  }

  predicate CountedPositive(receipts: seq<Receipt>) {
    forall i :: 0 <= i < |receipts| && Counts(receipts, i) ==> receipts[i].amount > 0
  }

  lemma {:induction false} CreditsExist(receipts: seq<Receipt>)
    ensures Credits(receipts).Some? <==> CountedPositive(receipts)
    decreases |receipts|
  {
    if receipts != [] {
      var front := receipts[..|receipts| - 1];
      CreditsExist(front);
      forall i | 0 <= i < |front| ensures Counts(front, i) == Counts(receipts, i) && front[i] == receipts[i] {
        assert front[..i] == receipts[..i];
      }
    }
  }

  lemma {:induction false} CreditsPositive(receipts: seq<Receipt>)
    requires Credits(receipts).Some?
    ensures forall a :: a in Credits(receipts).value ==> Credits(receipts).value[a] > 0
    decreases |receipts|
  {
    if receipts != [] {
      CreditsPositive(receipts[..|receipts| - 1]);
    }
  }

  function CreditSum(receipts: seq<Receipt>): int
    decreases |receipts|
  {
    if receipts == [] then 0
    else
      CreditSum(receipts[..|receipts| - 1])
      + if Counts(receipts, |receipts| - 1) then receipts[|receipts| - 1].amount else 0
  }

  // All credits together are the amounts of the counted receipts.
  lemma {:induction false} CreditsAddUp(receipts: seq<Receipt>)
    requires Credits(receipts).Some?
    ensures SumMap(Credits(receipts).value) == CreditSum(receipts)
    decreases |receipts|
  {
    if receipts != [] {
      var front, last := receipts[..|receipts| - 1], receipts[|receipts| - 1];
      CreditsAddUp(front);
      var credits := Credits(front).value;
      SumMapPut(credits, last.address, Get(credits, last.address) + last.amount);
    }
  }

  // A leak receipt is counted unless one before it has its identity.
  lemma {:induction false} CountedAre(receipts: seq<Receipt>, id: nat)
    ensures id in Counted(receipts) <==> exists i :: 0 <= i < |receipts| && receipts[i].leak && receipts[i].id == id
    decreases |receipts|
  {
    if receipts != [] {
      CountedAre(receipts[..|receipts| - 1], id);
    }
  }

  predicate FirstLeak(receipts: seq<Receipt>, i: nat)
    requires i < |receipts|
  {
    receipts[i].leak && forall j :: 0 <= j < i && receipts[j].leak ==> receipts[j].id != receipts[i].id
  }

  // What the receipts of an address are worth, each leak once.
  function LeakedBy(receipts: seq<Receipt>, a: Address): int
    decreases |receipts|
  {
    if receipts == [] then 0
    else
      LeakedBy(receipts[..|receipts| - 1], a)
      + if FirstLeak(receipts, |receipts| - 1) && receipts[|receipts| - 1].address == a
        then receipts[|receipts| - 1].amount
        else 0
  }

  // Every credit is what its address leaked.
  lemma {:induction false} CreditIsLeaked(receipts: seq<Receipt>, a: Address)
    requires Credits(receipts).Some?
    ensures Get(Credits(receipts).value, a) == LeakedBy(receipts, a)
    ensures a in Credits(receipts).value <==> LeakedBy(receipts, a) > 0
    decreases |receipts|
  {
    if receipts != [] {
      var front, last := receipts[..|receipts| - 1], receipts[|receipts| - 1];
      CreditIsLeaked(front, a);
      CreditsPositive(front);
      CountedAre(front, last.id);
      assert Counts(receipts, |receipts| - 1) <==> FirstLeak(receipts, |receipts| - 1);
    }
  }

  method LoadLeaks(receipts: seq<Receipt>) returns (r: Option<map<Address, int>>, count: nat)
    ensures r == Credits(receipts) && (r.Some? <==> CountedPositive(receipts))
    ensures r.Some? ==> count == |Counted(receipts)| && SumMap(r.value) == CreditSum(receipts)
    ensures r.Some? ==> forall a :: a in r.value ==> r.value[a] > 0
  {
    var credits: map<Address, int>, seen: set<nat> := map[], {};
    CreditsExist(receipts);
    for i := 0 to |receipts|
      invariant Credits(receipts[..i]) == Some(credits) && seen == Counted(receipts[..i])
    {
      assert receipts[..i + 1][..i] == receipts[..i];
      var receipt := receipts[i];
      if !receipt.leak || receipt.id in seen {
        assert Counted(receipts[..i + 1]) == seen;
        continue;
      }
      seen := seen + {receipt.id};
      if receipt.amount <= 0 {
        CreditsStop(receipts, i + 1);
        return None, 0;
      }
      credits := credits[receipt.address := Get(credits, receipt.address) + receipt.amount];
    }
    assert receipts[..|receipts|] == receipts;
    CreditsPositive(receipts);
    CreditsAddUp(receipts);
    r, count := Some(credits), |seen|;
  }

  // The rule: what an address was credited, but no more than is left of its claim.
  function Withheld(credit: int, claim: int, prior: int): int {
    Min(credit, if claim - prior > 0 then claim - prior else 0)
  }

  function RowFor(credits: map<Address, int>, claims: Claims, prior: map<Address, int>, a: Address): Leak {
    Leak(a, Get(credits, a), Get(claims, a), Get(prior, a), Withheld(Get(credits, a), Get(claims, a), Get(prior, a)),
         true)
  }

  ghost predicate RuleRow(credits: map<Address, int>, claims: Claims, prior: map<Address, int>, row: Leak) {
    row.address in credits && row == RowFor(credits, claims, prior, row.address) && row.withheld > 0
  }

  ghost predicate HasRow(rows: seq<Leak>, a: Address) {
    exists i :: 0 <= i < |rows| && rows[i].address == a
  }

  // The rows for some inventories, in address order: one for every address of which something is
  // withheld.
  ghost predicate FollowsRule(credits: map<Address, int>, claims: Claims, prior: map<Address, int>, rows: seq<Leak>) {
    (forall i :: 0 <= i < |rows| ==> RuleRow(credits, claims, prior, rows[i]))
    && (forall i, j :: 0 <= i < j < |rows| ==> rows[i].address < rows[j].address)
  }

  ghost predicate RowsWherever(credits: map<Address, int>, claims: Claims, prior: map<Address, int>, rows: seq<Leak>) {
    forall a :: a in credits && RowFor(credits, claims, prior, a).withheld > 0 ==> HasRow(rows, a)
  }

  // Of a credited address something is withheld if and only if its claim is above what was withheld
  // before, and then all of its credit, unless the claim is used up first.
  lemma RowsExact(credits: map<Address, int>, claims: Claims, prior: map<Address, int>, rows: seq<Leak>)
    requires forall a :: a in credits ==> credits[a] > 0
    requires FollowsRule(credits, claims, prior, rows) && RowsWherever(credits, claims, prior, rows)
    ensures forall a :: HasRow(rows, a) <==> a in credits && Get(claims, a) > Get(prior, a)
    ensures forall row :: row in rows ==>
              row.address in credits && row.credit == credits[row.address] && row.claim == Get(claims, row.address)
              && row.prior == Get(prior, row.address) && row.notIssued && 0 < row.withheld <= row.credit
              && row.prior + row.withheld <= row.claim
              && (row.withheld == row.credit || row.prior + row.withheld == row.claim)
  {
    forall a | a in credits && Get(claims, a) > Get(prior, a) ensures HasRow(rows, a) {
      assert RowFor(credits, claims, prior, a).withheld > 0;
    }
    forall row | row in rows ensures RuleRow(credits, claims, prior, row) {
      var i :| 0 <= i < |rows| && rows[i] == row;
    }
    forall a | HasRow(rows, a) ensures a in credits && Get(claims, a) > Get(prior, a) {
      var i :| 0 <= i < |rows| && rows[i].address == a;
      assert RuleRow(credits, claims, prior, rows[i]);
    }
  }

  lemma RowAdded(rows: seq<Leak>, row: Leak)
    ensures HasRow(rows + [row], row.address)
    ensures forall a :: HasRow(rows, a) ==> HasRow(rows + [row], a)
  {
    assert (rows + [row])[|rows|] == row;
    forall a | HasRow(rows, a) ensures HasRow(rows + [row], a) {
      var i :| 0 <= i < |rows| && rows[i].address == a;
      assert (rows + [row])[i].address == a;
    }
  }

  lemma RuleRowAdded(credits: map<Address, int>, claims: Claims, prior: map<Address, int>, rows: seq<Leak>, row: Leak)
    requires FollowsRule(credits, claims, prior, rows) && RuleRow(credits, claims, prior, row)
    requires forall i :: 0 <= i < |rows| ==> rows[i].address < row.address
    ensures FollowsRule(credits, claims, prior, rows + [row])
  {
  }

  // The withholding loop, over the credited addresses in order.
  method Withhold(credits: map<Address, int>, claims: Claims, prior: map<Address, int>) returns (rows: seq<Leak>)
    requires forall a :: a in credits ==> credits[a] > 0
    ensures FollowsRule(credits, claims, prior, rows) && RowsWherever(credits, claims, prior, rows)
  {
    var keys := Sort(credits.Keys);
    rows := [];
    for i := 0 to |keys|
      invariant FollowsRule(credits, claims, prior, rows)
      invariant forall j :: 0 <= j < |rows| ==> i > 0 && rows[j].address <= keys[i - 1]
      invariant forall j :: 0 <= j < i && RowFor(credits, claims, prior, keys[j]).withheld > 0 ==> HasRow(rows, keys[j])
    {
      assert keys[i] in keys;
      var row := RowFor(credits, claims, prior, keys[i]);
      if row.withheld == 0 {
        continue;
      }
      RuleRowAdded(credits, claims, prior, rows, row);
      RowAdded(rows, row);
      rows := rows + [row];
    }
    assert forall a :: a in credits ==> a in keys;
  }

  // ---- earlier amounts -------------------------------------------------

  // A row of an export: an address and the amount withheld from it.
  datatype Entry = Entry(address: Address, amount: int)

  function AddedUp(entries: seq<Entry>): map<Address, int>
    decreases |entries|
  {
    if entries == [] then map[]
    else
      var before, last := AddedUp(entries[..|entries| - 1]), entries[|entries| - 1];
      before[last.address := Get(before, last.address) + last.amount]
  }

  // The amounts that the entries have for an address.
  function EntriesOf(entries: seq<Entry>, a: Address): seq<int>
    decreases |entries|
  {
    if entries == [] then []
    else
      EntriesOf(entries[..|entries| - 1], a)
      + if entries[|entries| - 1].address == a then [entries[|entries| - 1].amount] else []
  }

  function SumOf(amounts: seq<int>): int
    decreases |amounts|
  {
    if amounts == [] then 0 else SumOf(amounts[..|amounts| - 1]) + amounts[|amounts| - 1]
  }

  lemma {:induction false} AddedUpAt(entries: seq<Entry>, a: Address)
    ensures Get(AddedUp(entries), a) == SumOf(EntriesOf(entries, a))
    ensures a in AddedUp(entries) <==> EntriesOf(entries, a) != []
    decreases |entries|
  {
    if entries != [] {
      var front, last := entries[..|entries| - 1], entries[|entries| - 1];
      AddedUpAt(front, a);
      if last.address == a {
        assert (EntriesOf(front, a) + [last.amount])[..|EntriesOf(front, a)|] == EntriesOf(front, a);
      } else {
        assert EntriesOf(front, a) + [] == EntriesOf(front, a);
      }
    }
  }

  // `load_prior`.
  method LoadPrior(entries: seq<Entry>) returns (amounts: map<Address, int>)
    ensures amounts == AddedUp(entries)
  {
    amounts := map[];
    for i := 0 to |entries|
      invariant amounts == AddedUp(entries[..i])
    {
      assert entries[..i + 1][..i] == entries[..i];
      amounts := amounts[entries[i].address := Get(amounts, entries[i].address) + entries[i].amount];
    }
    assert entries[..|entries|] == entries;
  }

  // The exports of the two earlier lists.
  function ExistingEntries(rows: seq<Existing>): seq<Entry>
    decreases |rows|
  {
    if rows == [] then []
    else ExistingEntries(rows[..|rows| - 1]) + [Entry(rows[|rows| - 1].address, rows[|rows| - 1].notIssued)]
  }

  function RetainedEntries(rows: seq<Retained>): seq<Entry>
    decreases |rows|
  {
    if rows == [] then []
    else
      RetainedEntries(rows[..|rows| - 1])
      + if rows[|rows| - 1].retained > 0 then [Entry(rows[|rows| - 1].address, rows[|rows| - 1].retained)] else []
  }

  lemma AddedOne(entries: seq<Entry>, e: Entry)
    ensures AddedUp(entries + [e]) == AddedUp(entries)[e.address := Get(AddedUp(entries), e.address) + e.amount]
  {
    assert (entries + [e])[..|entries|] == entries;
  }

  // On lists without repeated addresses, adding up by address is looking up.
  lemma {:induction false} ExistingAddedUp(rows: seq<Existing>)
    requires ExistingFits(rows)
    ensures AddedUp(ExistingEntries(rows)) == ExistingAmounts(rows)
    decreases |rows|
  {
    if rows != [] {
      var front, last := rows[..|rows| - 1], rows[|rows| - 1];
      ExistingAddedUp(front);
      AddedOne(ExistingEntries(front), Entry(last.address, last.notIssued));
    }
  }

  lemma {:induction false} RetainedAddedUp(rows: seq<Retained>, block: int)
    requires RetainedFits(rows, block)
    ensures AddedUp(RetainedEntries(rows)) == RetainedAmounts(rows)
    decreases |rows|
  {
    if rows != [] {
      var front, last := rows[..|rows| - 1], rows[|rows| - 1];
      RetainedAddedUp(front, block);
      RetainedAmong(front);
      if last.retained > 0 {
        AddedOne(RetainedEntries(front), Entry(last.address, last.retained));
      } else {
        assert RetainedEntries(front) + [] == RetainedEntries(front);
      }
    }
  }

  // ---- the inventories together ----------------------------------------

  // What the builder takes as already withheld: both exports added up by address. The audit's
  // inventories have no address in common.
  function Prior(existing: map<Address, int>, retained: map<Address, int>): map<Address, int> {
    PlusMaps(retained, existing)
  }

  function LeakAmounts(rows: seq<Leak>): map<Address, int>
    decreases |rows|
  {
    if rows == [] then map[] else LeakAmounts(rows[..|rows| - 1])[rows[|rows| - 1].address := rows[|rows| - 1].withheld]
  }

  // The audit's recheck of one row.
  predicate RecheckedRow(row: Leak, existing: map<Address, int>, retained: map<Address, int>) {
    row.prior == Get(retained, row.address) + Get(existing, row.address)
    && row.withheld == Withheld(row.credit, row.claim, row.prior) && row.withheld > 0 && row.notIssued
  }

  predicate Rechecked(rows: seq<Leak>, existing: map<Address, int>, retained: map<Address, int>)
    decreases |rows|
  {
    rows == [] ||
    var front, last := rows[..|rows| - 1], rows[|rows| - 1];
    Rechecked(front, existing, retained) && last.address !in LeakAmounts(front)
    && RecheckedRow(last, existing, retained)
  }

  lemma {:induction false} RecheckStops(rows: seq<Leak>, existing: map<Address, int>, retained: map<Address, int>,
                                        i: nat)
    requires i <= |rows| && !Rechecked(rows[..i], existing, retained)
    ensures !Rechecked(rows, existing, retained)
    decreases |rows|
  {
    if i == |rows| {
      assert rows[..i] == rows;
    } else {
      assert rows[..|rows| - 1][..i] == rows[..i];
      RecheckStops(rows[..|rows| - 1], existing, retained, i);
    }
  }

  // The builder's summary: its verdict, the digest of the rows' file, and what they add up to.
  datatype LeakSummary = LeakSummary(passed: bool, digest: nat, positiveRows: nat, notIssued: int)

  function WithheldSum(rows: seq<Leak>): int
    decreases |rows|
  {
    if rows == [] then 0 else WithheldSum(rows[..|rows| - 1]) + rows[|rows| - 1].withheld
  }

  // The rows pass the recheck and are the ones that the summary is about.
  predicate LeaksFit(rows: seq<Leak>, digest: nat, summary: LeakSummary, existing: map<Address, int>,
                     retained: map<Address, int>) {
    summary.passed && summary.digest == digest && Rechecked(rows, existing, retained)
    && summary.notIssued == WithheldSum(rows) && summary.positiveRows == |rows|
  }

  function LeakAddresses(rows: seq<Leak>): (all: seq<Address>)
    ensures |all| == |rows| && forall i :: 0 <= i < |rows| ==> all[i] == rows[i].address
  {
    seq(|rows|, i requires 0 <= i < |rows| => rows[i].address)
  }

  lemma LeakAddressesMore(rows: seq<Leak>)
    requires rows != []
    ensures LeakAddresses(rows) == LeakAddresses(rows[..|rows| - 1]) + [rows[|rows| - 1].address]
  {
  }

  lemma {:induction false} LeakKeys(rows: seq<Leak>, a: Address)
    ensures a in LeakAmounts(rows) <==> a in LeakAddresses(rows)
    decreases |rows|
  {
    if rows != [] {
      LeakKeys(rows[..|rows| - 1], a);
      LeakAddressesMore(rows);
    }
  }

  // A row that takes its credit, or what both inventories leave of its claim where that is less.
  predicate TakesWhatIsLeft(row: Leak, existing: map<Address, int>, retained: map<Address, int>) {
    row.prior == Get(existing, row.address) + Get(retained, row.address)
    && 0 < row.withheld <= row.credit && row.prior + row.withheld <= row.claim
    && (row.withheld == row.credit || row.prior + row.withheld == row.claim) && row.notIssued
  }

  lemma RowPasses(row: Leak, existing: map<Address, int>, retained: map<Address, int>)
    ensures RecheckedRow(row, existing, retained) <==> TakesWhatIsLeft(row, existing, retained)
  {
  }

  ghost predicate AllTake(rows: seq<Leak>, existing: map<Address, int>, retained: map<Address, int>) {
    forall i :: 0 <= i < |rows| ==> TakesWhatIsLeft(rows[i], existing, retained)
  }

  // When the rows pass the recheck.
  lemma {:induction false} RecheckPasses(rows: seq<Leak>, existing: map<Address, int>, retained: map<Address, int>)
    ensures Rechecked(rows, existing, retained)
       <==> AllTake(rows, existing, retained) && Different(LeakAddresses(rows))
    decreases |rows|
  {
    if rows != [] {
      var front, last := rows[..|rows| - 1], rows[|rows| - 1];
      RecheckPasses(front, existing, retained);
      LeakKeys(front, last.address);
      LeakAddressesMore(rows);
      DifferentMore(LeakAddresses(front), last.address);
      RowPasses(last, existing, retained);
      AllTakeMore(front, last, existing, retained);
      assert rows == front + [last];
    }
  }

  lemma AllTakeMore(rows: seq<Leak>, row: Leak, existing: map<Address, int>, retained: map<Address, int>)
    ensures AllTake(rows + [row], existing, retained)
       <==> AllTake(rows, existing, retained) && TakesWhatIsLeft(row, existing, retained)
  {
    var more := rows + [row];
    assert more[|rows|] == row && forall i :: 0 <= i < |rows| ==> more[i] == rows[i];
  }

  lemma {:induction false} LeaksAddUp(rows: seq<Leak>, existing: map<Address, int>, retained: map<Address, int>)
    requires Rechecked(rows, existing, retained)
    ensures SumMap(LeakAmounts(rows)) == WithheldSum(rows) && |LeakAmounts(rows)| == |rows|
    decreases |rows|
  {
    if rows != [] {
      var front, last := rows[..|rows| - 1], rows[|rows| - 1];
      LeaksAddUp(front, existing, retained);
      SumMapPut(LeakAmounts(front), last.address, last.withheld);
    }
  }

  method LoadRevertLeak(rows: seq<Leak>, digest: nat, summary: LeakSummary, existing: map<Address, int>,
                        retained: map<Address, int>) returns (r: Option<int>)
    ensures r.Some? <==> LeaksFit(rows, digest, summary, existing, retained)
    ensures r.Some? ==> r.value == SumMap(LeakAmounts(rows)) == summary.notIssued
  {
    if !summary.passed || summary.digest != digest {
      return None;
    }
    var amounts: map<Address, int>, total := map[], 0;
    for i := 0 to |rows|
      invariant Rechecked(rows[..i], existing, retained) && amounts == LeakAmounts(rows[..i])
      invariant total == WithheldSum(rows[..i])
    {
      var row := rows[i];
      assert rows[..i + 1][..i] == rows[..i];
      if row.address in amounts || !RecheckedRow(row, existing, retained) {
        RecheckStops(rows, existing, retained, i + 1);
        return None;
      }
      amounts := amounts[row.address := row.withheld];
      total := total + row.withheld;
    }
    assert rows[..|rows|] == rows;
    LeaksAddUp(rows, existing, retained);
    if total != summary.notIssued || |amounts| != summary.positiveRows {
      return None;
    }
    r := Some(total);
  }

  // The builder: leaks and earlier lists are loaded, what is left of the claims is withheld, and
  // the summary says what the rows add up to.
  method BuildRetention(receipts: seq<Receipt>, retained: seq<Entry>, existing: seq<Entry>, claims: Claims,
                        digestOf: seq<Leak> -> nat) returns (r: Option<(seq<Leak>, LeakSummary)>)
    ensures r.Some? <==> CountedPositive(receipts)
    ensures r.Some? ==> Credits(receipts).Some?
    ensures r.Some? ==>
              var credits, prior := Credits(receipts).value, Prior(AddedUp(existing), AddedUp(retained));
              FollowsRule(credits, claims, prior, r.value.0) && RowsWherever(credits, claims, prior, r.value.0)
    ensures r.Some? ==> r.value.1 == LeakSummary(true, digestOf(r.value.0), |r.value.0|, WithheldSum(r.value.0))
  {
    var credits, count := LoadLeaks(receipts);
    if credits.None? {
      return None;
    }
    var first := LoadPrior(retained);
    var second := LoadPrior(existing);
    var rows := Withhold(credits.value, claims, Prior(second, first));
    var total := 0;
    for i := 0 to |rows|
      invariant total == WithheldSum(rows[..i])
    {
      assert rows[..i + 1][..i] == rows[..i];
      total := total + rows[i].withheld;
    }
    assert rows[..|rows|] == rows;
    r := Some((rows, LeakSummary(true, digestOf(rows), |rows|, total)));
  }

  lemma {:induction false} LeakFrom(rows: seq<Leak>, a: Address) returns (i: nat)
    requires a in LeakAmounts(rows)
    ensures i < |rows| && rows[i].address == a && LeakAmounts(rows)[a] == rows[i].withheld
    decreases |rows|
  {
    if rows[|rows| - 1].address == a {
      i := |rows| - 1;
    } else {
      i := LeakFrom(rows[..|rows| - 1], a);
    }
  }

  // What the builder writes, the audit accepts: on the same inventories every row passes.
  lemma {:induction false} BuilderPasses(credits: map<Address, int>, claims: Claims, existing: map<Address, int>,
                                         retained: map<Address, int>, rows: seq<Leak>)
    requires FollowsRule(credits, claims, Prior(existing, retained), rows)
    ensures Rechecked(rows, existing, retained)
    decreases |rows|
  {
    if rows != [] {
      var front, last := rows[..|rows| - 1], rows[|rows| - 1];
      BuilderPasses(credits, claims, existing, retained, front);
      assert RuleRow(credits, claims, Prior(existing, retained), last);
      LeaksBefore(rows);
    }
  }

  // Rows in address order have no address twice.
  lemma LeaksBefore(rows: seq<Leak>)
    requires rows != [] && forall i, j :: 0 <= i < j < |rows| ==> rows[i].address < rows[j].address
    ensures rows[|rows| - 1].address !in LeakAmounts(rows[..|rows| - 1])
  {
    var front, last := rows[..|rows| - 1], rows[|rows| - 1];
    assert forall i :: 0 <= i < |front| ==> front[i].address < last.address;
    if last.address in LeakAmounts(front) {
      var i := LeakFrom(front, last.address);
      assert false;
    }
  }

  // ---- never more than the claims --------------------------------------

  // The recorded claims and balances are within the ledger, and the first two lists are disjoint.
  ghost predicate WithinClaims(claims: Claims, existing: map<Address, int>, retained: map<Address, int>) {
    (forall a :: a in claims ==> claims[a] >= 0)
    && (forall a :: a in existing ==> 0 <= existing[a] <= Get(claims, a) && a !in retained)
    && (forall a :: a in retained ==> 0 <= retained[a] <= Get(claims, a))
  }

  ghost predicate LeaksOnClaims(claims: Claims, rows: seq<Leak>) {
    forall i :: 0 <= i < |rows| ==> rows[i].claim == Get(claims, rows[i].address)
  }

  lemma {:induction false} LeakWithin(rows: seq<Leak>, claims: Claims, existing: map<Address, int>,
                                      retained: map<Address, int>, a: Address)
    requires WithinClaims(claims, existing, retained) && LeaksOnClaims(claims, rows)
    requires Rechecked(rows, existing, retained)
    ensures Get(existing, a) + Get(retained, a) + Get(LeakAmounts(rows), a) <= Get(claims, a)
    decreases |rows|
  {
    if rows != [] {
      LeakWithin(rows[..|rows| - 1], claims, existing, retained, a);
    }
  }

  // However the lists overlap, no address loses more than its claim, and all together lose no
  // more than all claims: the final guard of the audit cannot fire.
  lemma NeverMoreThanClaims(claims: Claims, existing: map<Address, int>, retained: map<Address, int>, rows: seq<Leak>)
    requires WithinClaims(claims, existing, retained) && LeaksOnClaims(claims, rows)
    requires Rechecked(rows, existing, retained)
    ensures forall a: nat {:trigger Get(claims, a)} ::
              Get(existing, a) + Get(retained, a) + Get(LeakAmounts(rows), a) <= Get(claims, a)
    ensures SumMap(existing) + SumMap(retained) + SumMap(LeakAmounts(rows)) <= SumMap(claims)
  {
    forall a: nat ensures Get(existing, a) + Get(retained, a) + Get(LeakAmounts(rows), a) <= Get(claims, a) {
      LeakWithin(rows, claims, existing, retained, a);
    }
    SumOfThree(existing, retained, LeakAmounts(rows), claims);
  }

  lemma SumOfThree(a: map<nat, int>, b: map<nat, int>, c: map<nat, int>, bound: map<nat, int>)
    requires forall k: nat {:trigger Get(bound, k)} :: Get(a, k) + Get(b, k) + Get(c, k) <= Get(bound, k)
    requires forall k :: k in bound ==> bound[k] >= 0
    ensures SumMap(a) + SumMap(b) + SumMap(c) <= SumMap(bound)
  {
    ThreeAdded(a, b, c);
    AddedAtMost(a, b, c, bound);
  }

  lemma ThreeAdded(a: map<nat, int>, b: map<nat, int>, c: map<nat, int>)
    ensures SumMap(PlusMaps(PlusMaps(a, b), c)) == SumMap(a) + SumMap(b) + SumMap(c)
  {
    SumPlus(a, b);
    SumPlus(PlusMaps(a, b), c);
  }

  lemma ThreeAtMost(a: map<nat, int>, b: map<nat, int>, c: map<nat, int>, bound: map<nat, int>)
    requires forall k: nat {:trigger Get(bound, k)} :: Get(a, k) + Get(b, k) + Get(c, k) <= Get(bound, k)
    ensures forall k :: k in PlusMaps(PlusMaps(a, b), c) ==> PlusMaps(PlusMaps(a, b), c)[k] <= Get(bound, k)
  {
    forall k | k in PlusMaps(PlusMaps(a, b), c) ensures PlusMaps(PlusMaps(a, b), c)[k] <= Get(bound, k) {
      assert Get(PlusMaps(a, b), k) == Get(a, k) + Get(b, k);
    }
  }

  lemma AddedAtMost(a: map<nat, int>, b: map<nat, int>, c: map<nat, int>, bound: map<nat, int>)
    requires forall k: nat {:trigger Get(bound, k)} :: Get(a, k) + Get(b, k) + Get(c, k) <= Get(bound, k)
    requires forall k :: k in bound ==> bound[k] >= 0
    ensures SumMap(PlusMaps(PlusMaps(a, b), c)) <= SumMap(bound)
  {
    ThreeAtMost(a, b, c, bound);
    SumAtMost(PlusMaps(PlusMaps(a, b), c), bound);
  }

  // The loaded inventories are within the ledger when what their rows record is.
  lemma {:induction false} ExistingWithin(rows: seq<Existing>, claims: Claims)
    requires ExistingFits(rows) && forall i :: 0 <= i < |rows| ==> rows[i].claim <= Get(claims, rows[i].address)
    ensures forall a :: a in ExistingAmounts(rows) ==> 0 <= ExistingAmounts(rows)[a] <= Get(claims, a)
    decreases |rows|
  {
    if rows != [] {
      ExistingWithin(rows[..|rows| - 1], claims);
    }
  }

  lemma {:induction false} RetainedWithin(rows: seq<Retained>, block: int, claims: Claims)
    requires RetainedFits(rows, block)
    requires forall i :: 0 <= i < |rows| ==> rows[i].cutoffBalance <= Get(claims, rows[i].address)
    ensures forall a :: a in RetainedAmounts(rows) ==> 0 < RetainedAmounts(rows)[a] <= Get(claims, a)
    decreases |rows|
  {
    if rows != [] {
      RetainedWithin(rows[..|rows| - 1], block, claims);
    }
  }

  // The whole audit over claims that bound its inputs: the builder, reading the exports of the two
  // earlier lists, writes rows that the audit accepts, guard included, whatever leaks it found.
  lemma AuditGoesThrough(existing: seq<Existing>, retained: seq<Retained>, block: int, claims: Claims,
                         credits: map<Address, int>, rows: seq<Leak>, digest: nat)
    requires ExistingFits(existing)
    requires forall i :: 0 <= i < |existing| ==> existing[i].claim <= Get(claims, existing[i].address)
    requires RetainedFits(retained, block)
    requires forall i :: 0 <= i < |retained| ==> retained[i].cutoffBalance <= Get(claims, retained[i].address)
    requires forall a :: a in claims ==> claims[a] >= 0
    requires forall a :: a in ExistingAmounts(existing) ==> a !in RetainedAmounts(retained)
    requires FollowsRule(credits, claims, Prior(AddedUp(ExistingEntries(existing)), AddedUp(RetainedEntries(retained))),
                         rows)
    ensures LeaksFit(rows, digest, LeakSummary(true, digest, |rows|, WithheldSum(rows)), ExistingAmounts(existing),
                     RetainedAmounts(retained))
    ensures SumMap(ExistingAmounts(existing)) + SumMap(RetainedAmounts(retained)) + SumMap(LeakAmounts(rows))
         <= SumMap(claims)
  {
    ExistingAddedUp(existing);
    RetainedAddedUp(retained, block);
    ExistingWithin(existing, claims);
    RetainedWithin(retained, block, claims);
    BuilderPasses(credits, claims, ExistingAmounts(existing), RetainedAmounts(retained), rows);
    forall i | 0 <= i < |rows| ensures rows[i].claim == Get(claims, rows[i].address) {
      assert RuleRow(credits, claims, Prior(ExistingAmounts(existing), RetainedAmounts(retained)), rows[i]);
    }
    NeverMoreThanClaims(claims, ExistingAmounts(existing), RetainedAmounts(retained), rows);
  }
}
