/** The claims ledger: four sorted inputs merged into one row per key. */
module Ledger {
  import opened Base
  import opened Totals
  import opened Streams

  type Address = nat

  // Rows as read; an address may be missing, and amounts may turn out negative.
  datatype LiquidRow = LiquidRow(key: nat, address: Option<Address>, balance: int, nonce: nat, codeHash: nat)

  datatype StakingRow = StakingRow(key: nat, address: Option<Address>, active: int, pending: int, reward: int)

  datatype ReceiptClaim = ReceiptClaim(address: Address, amount: nat)

  datatype Input = Input(liquid0: seq<LiquidRow>, liquid1: seq<LiquidRow>, staking: seq<StakingRow>,
                         receipts: map<nat, ReceiptClaim>)

  datatype Row = Row(key: nat, address: Option<Address>, liquid0: nat, liquid1: nat, liquid: nat, active: nat,
                     pending: nat,
                     reward: nat, receipt: nat, total: nat, nonce0: Option<nat>, nonce1: Option<nat>,
                     codeHash0: Option<nat>, codeHash1: Option<nat>)

  datatype LedgerError = KeysNotIncreasing | BadRow

  // ---- pending receipts ------------------------------------------------

  datatype PendingReceipt = PendingReceipt(key: nat, address: Address, amount: int)

  function AmountsOf(receipts: map<nat, ReceiptClaim>): map<nat, int> {
    map key | key in receipts :: receipts[key].amount
  }

  function ReceiptSum(receipts: seq<PendingReceipt>): int
    decreases |receipts|
  {
    if receipts == [] then 0 else ReceiptSum(receipts[..|receipts| - 1]) + receipts[|receipts| - 1].amount
  }

  // The receipts added up by key; none when an amount is negative or a key has two addresses.
  function Group(receipts: seq<PendingReceipt>): Option<map<nat, ReceiptClaim>>
    decreases |receipts|
  {
    if receipts == [] then Some(map[])
    else
      match Group(receipts[..|receipts| - 1])
      case None => None
      case Some(pending) => GroupOne(pending, receipts[|receipts| - 1])
  }

  function GroupOne(pending: map<nat, ReceiptClaim>, r: PendingReceipt): Option<map<nat, ReceiptClaim>> {
    if r.amount < 0 || (r.key in pending && pending[r.key].address != r.address) then None
    else Some(pending[r.key := ReceiptClaim(r.address, Receipt(ReceiptAt(pending, r.key)) + r.amount)])
  }

  function ReceiptAt(receipts: map<nat, ReceiptClaim>, key: nat): Option<ReceiptClaim> {
    if key in receipts then Some(receipts[key]) else None
  }

  function Receipt(claim: Option<ReceiptClaim>): nat {
    if claim.None? then 0 else claim.value.amount
  }

  // Receipts a report can hold: amounts not negative, one address for each key.
  ghost predicate Loadable(receipts: seq<PendingReceipt>) {
    (forall i :: 0 <= i < |receipts| ==> receipts[i].amount >= 0)
    && forall i, j :: 0 <= i < |receipts| && 0 <= j < |receipts| && receipts[i].key == receipts[j].key
                      ==> receipts[i].address == receipts[j].address
  }

  lemma {:induction false} GroupedKeys(receipts: seq<PendingReceipt>, i: nat)
    requires i < |receipts| && Group(receipts).Some?
    ensures receipts[i].amount >= 0 && receipts[i].key in Group(receipts).value
    ensures Group(receipts).value[receipts[i].key].address == receipts[i].address
    decreases |receipts|
  {
    if i < |receipts| - 1 {
      GroupedKeys(receipts[..|receipts| - 1], i);
    }
  }

  lemma {:induction false} GroupedFrom(receipts: seq<PendingReceipt>, key: nat) returns (i: nat)
    requires Group(receipts).Some? && key in Group(receipts).value
    ensures i < |receipts| && receipts[i].key == key && Group(receipts).value[key].address == receipts[i].address
    decreases |receipts|
  {
    if receipts[|receipts| - 1].key == key {
      i := |receipts| - 1;
    } else {
      i := GroupedFrom(receipts[..|receipts| - 1], key);
    }
  }

  // Grouping succeeds on exactly the receipts a report can hold.
  lemma {:induction false} GroupLoads(receipts: seq<PendingReceipt>)
    ensures Group(receipts).Some? <==> Loadable(receipts)
    decreases |receipts|
  {
    if receipts != [] {
      var front, last := receipts[..|receipts| - 1], receipts[|receipts| - 1];
      GroupLoads(front);
      if Loadable(receipts) {
        assert Loadable(front);
        if last.key in Group(front).value {
          var i := GroupedFrom(front, last.key);
          assert receipts[i] == front[i];
        }
      }
      if Group(receipts).Some? {
        forall i | 0 <= i < |receipts|
          ensures receipts[i].amount >= 0 && receipts[i].key in Group(receipts).value
          ensures Group(receipts).value[receipts[i].key].address == receipts[i].address
        {
          GroupedKeys(receipts, i);
        }
      }
    }
  }

  lemma AmountPut(pending: map<nat, ReceiptClaim>, key: nat, claim: ReceiptClaim)
    ensures SumMap(AmountsOf(pending[key := claim]))
         == SumMap(AmountsOf(pending)) - Receipt(ReceiptAt(pending, key)) + claim.amount
  {
    SumMapPut(AmountsOf(pending), key, claim.amount);
    assert AmountsOf(pending[key := claim]) == AmountsOf(pending)[key := claim.amount as int];
  }

  // Grouping keeps the sum.
  lemma {:induction false} GroupKeepsSum(receipts: seq<PendingReceipt>)
    requires Group(receipts).Some?
    ensures SumMap(AmountsOf(Group(receipts).value)) == ReceiptSum(receipts)
    decreases |receipts|
  {
    if receipts == [] {
      assert AmountsOf(map[]) == map[];
    } else {
      var front, last := receipts[..|receipts| - 1], receipts[|receipts| - 1];
      GroupKeepsSum(front);
      var pending := Group(front).value;
      AmountPut(pending, last.key, ReceiptClaim(last.address, Receipt(ReceiptAt(pending, last.key)) + last.amount));
    }
  }

  // What the receipts of a key add up to.
  function ReceiptsOf(key: nat): PendingReceipt -> int {
    (r: PendingReceipt) => if r.key == key then r.amount else 0
  }

  lemma {:induction false} GroupAmount(receipts: seq<PendingReceipt>, key: nat)
    requires Group(receipts).Some?
    ensures Receipt(ReceiptAt(Group(receipts).value, key)) == SumBy(receipts, ReceiptsOf(key))
    ensures key in Group(receipts).value <==> exists i :: 0 <= i < |receipts| && receipts[i].key == key
    decreases |receipts|
  {
    if receipts != [] {
      GroupAmount(receipts[..|receipts| - 1], key);
    }
  }

  lemma {:induction false} GroupStops(receipts: seq<PendingReceipt>, i: nat)
    requires i <= |receipts| && Group(receipts[..i]).None?
    ensures Group(receipts).None?
    decreases |receipts|
  {
    if i == |receipts| {
      assert receipts[..i] == receipts;
    } else {
      assert receipts[..|receipts| - 1][..i] == receipts[..i];
      GroupStops(receipts[..|receipts| - 1], i);
    }
  }

  // The receipts of a report, in the order of its nested lists, against its declared total.
  method LoadPendingReceipts(receipts: seq<PendingReceipt>, declared: int) returns (r: Option<map<nat, ReceiptClaim>>)
    ensures r.Some? <==> Loadable(receipts) && ReceiptSum(receipts) == declared
    ensures r.Some? ==> r == Group(receipts) && SumMap(AmountsOf(r.value)) == declared
  {
    var pending: map<nat, ReceiptClaim>, total := map[], 0;
    GroupLoads(receipts);
    for i := 0 to |receipts|
      invariant Group(receipts[..i]) == Some(pending) && total == ReceiptSum(receipts[..i])
    {
      var receipt := receipts[i];
      assert receipts[..i + 1][..i] == receipts[..i];
      if receipt.amount < 0 || (receipt.key in pending && pending[receipt.key].address != receipt.address) {
        GroupStops(receipts, i + 1);
        return None;
      }
      var before := if receipt.key in pending then pending[receipt.key].amount else 0;
      pending := pending[receipt.key := ReceiptClaim(receipt.address, before + receipt.amount)];
      total := total + receipt.amount;
    }
    assert receipts[..|receipts|] == receipts;
    GroupKeepsSum(receipts);
    r := if total == declared then Some(pending) else None;
  }

  // ---- one row ---------------------------------------------------------

  function LiquidKeys(rows: seq<LiquidRow>): (keys: seq<nat>)
    ensures |keys| == |rows| && forall i :: 0 <= i < |rows| ==> keys[i] == rows[i].key
  {
    seq(|rows|, i requires 0 <= i < |rows| => rows[i].key)
  }

  function StakingKeys(rows: seq<StakingRow>): (keys: seq<nat>)
    ensures |keys| == |rows| && forall i :: 0 <= i < |rows| ==> keys[i] == rows[i].key
  {
    seq(|rows|, i requires 0 <= i < |rows| => rows[i].key)
  }

  function LiquidAt(rows: seq<LiquidRow>, key: nat): Option<LiquidRow> {
    var place := Find(LiquidKeys(rows), key);
    if place.None? then None else Some(rows[place.value])
  }

  function StakingAt(rows: seq<StakingRow>, key: nat): Option<StakingRow> {
    var place := Find(StakingKeys(rows), key);
    if place.None? then None else Some(rows[place.value])
  }

  function Listing(address: Option<Address>): seq<Address> {
    if address.Some? then [address.value] else []
  }

  // The addresses that are not missing.
  function Addresses(a: Option<LiquidRow>, b: Option<LiquidRow>, c: Option<StakingRow>,
                     d: Option<ReceiptClaim>): seq<Address> {
    (if a.Some? then Listing(a.value.address) else []) + (if b.Some? then Listing(b.value.address) else [])
    + (if c.Some? then Listing(c.value.address) else []) + (if d.Some? then [d.value.address] else [])
  }

  // An address is listed if one of the parts has it.
  lemma AddressOfPart(a: Option<LiquidRow>, b: Option<LiquidRow>, c: Option<StakingRow>, d: Option<ReceiptClaim>,
                      address: Address)
    ensures address in Addresses(a, b, c, d)
       <==> (a.Some? && a.value.address == Some(address)) || (b.Some? && b.value.address == Some(address))
            || (c.Some? && c.value.address == Some(address)) || (d.Some? && d.value.address == address)
  {
  }

  function Balance(row: Option<LiquidRow>): int {
    if row.None? then 0 else row.value.balance
  }

  function Stake(row: Option<StakingRow>): (int, int, int) {
    if row.None? then (0, 0, 0) else (row.value.active, row.value.pending, row.value.reward)
  }

  // A key's parts can be put into one row.
  ghost predicate Fits(a: Option<LiquidRow>, b: Option<LiquidRow>, c: Option<StakingRow>, d: Option<ReceiptClaim>) {
    var (active, pending, reward) := Stake(c);
    (forall x, y :: x in Addresses(a, b, c, d) && y in Addresses(a, b, c, d) ==> x == y)
    && Balance(a) >= 0 && Balance(b) >= 0 && active >= 0 && pending >= 0 && reward >= 0
    && Balance(a) + Balance(b) + active + pending + reward + Receipt(d) > 0
  }

  // What the ledger says about a key.
  ghost predicate Says(a: Option<LiquidRow>, b: Option<LiquidRow>, c: Option<StakingRow>, d: Option<ReceiptClaim>,
                       key: nat, row: Row) {
    row.key == key && row.liquid0 == Balance(a) && row.liquid1 == Balance(b)
    && (row.active, row.pending, row.reward) == Stake(c)
    && row.receipt == Receipt(d) && row.liquid == row.liquid0 + row.liquid1
    && row.total == row.liquid0 + row.liquid1 + row.active + row.pending + row.reward + row.receipt
    && (forall address :: address in Addresses(a, b, c, d) ==> row.address == Some(address))
    && (row.address.Some? ==> row.address.value in Addresses(a, b, c, d))
    && row.nonce0 == (if a.Some? then Some(a.value.nonce) else None)
    && row.codeHash0 == (if a.Some? then Some(a.value.codeHash) else None)
    && row.nonce1 == (if b.Some? then Some(b.value.nonce) else None)
    && row.codeHash1 == (if b.Some? then Some(b.value.codeHash) else None)
  }

  predicate AllSame(addresses: seq<Address>) {
    forall i :: 1 <= i < |addresses| ==> addresses[i] == addresses[0]
  }

  function FirstOf(addresses: seq<Address>): Option<Address> {
    if addresses == [] then None else Some(addresses[0])
  }

  lemma AllSameMeans(addresses: seq<Address>)
    ensures AllSame(addresses) <==> forall x, y :: x in addresses && y in addresses ==> x == y
    ensures AllSame(addresses) ==> forall x :: x in addresses ==> FirstOf(addresses) == Some(x)
    ensures FirstOf(addresses).Some? ==> FirstOf(addresses).value in addresses
  {
    if !AllSame(addresses) {
      var i :| 1 <= i < |addresses| && addresses[i] != addresses[0];
      assert addresses[i] in addresses && addresses[0] in addresses;
    }
  }

  method BuildRow(a: Option<LiquidRow>, b: Option<LiquidRow>, c: Option<StakingRow>, d: Option<ReceiptClaim>, key: nat)
    returns (r: Option<Row>)
    ensures r.Some? <==> Fits(a, b, c, d)
    ensures r.Some? ==> Says(a, b, c, d, key, r.value)
  {
    var addresses := Addresses(a, b, c, d);
    AllSameMeans(addresses);
    if !AllSame(addresses) { return None; }
    var liquid0, liquid1, stake, receipt := Balance(a), Balance(b), Stake(c), Receipt(d);
    if liquid0 < 0 || liquid1 < 0 || stake.0 < 0 || stake.1 < 0 || stake.2 < 0 { return None; }
    var liquid := liquid0 + liquid1;
    var total := liquid + stake.0 + stake.1 + stake.2 + receipt;
    if total <= 0 { return None; }
    r := Some(Row(key, FirstOf(addresses), liquid0, liquid1, liquid, stake.0, stake.1, stake.2, receipt, total,
                  if a.Some? then Some(a.value.nonce) else None, if b.Some? then Some(b.value.nonce) else None,
                  if a.Some? then Some(a.value.codeHash) else None, if b.Some? then Some(b.value.codeHash) else None));
  }

  // ---- the merge -------------------------------------------------------

  datatype Summary = Summary(rows: nat, withoutAddress: nat, liquid0: nat, liquid1: nat, active: nat, pending: nat,
                             reward: nat, receipt: nat, total: nat)

  const NO_SUMMARY := Summary(0, 0, 0, 0, 0, 0, 0, 0, 0)

  function AddRow(s: Summary, row: Row): Summary {
    Summary(s.rows + 1, s.withoutAddress + (if row.address.None? then 1 else 0),
            s.liquid0 + row.liquid0, s.liquid1 + row.liquid1, s.active + row.active, s.pending + row.pending,
            s.reward + row.reward, s.receipt + row.receipt, s.total + row.total)
  }

  // The column sums of some rows.
  function SummaryOf(rows: seq<Row>): Summary
    decreases |rows|
  {
    if rows == [] then NO_SUMMARY else AddRow(SummaryOf(rows[..|rows| - 1]), rows[|rows| - 1])
  }

  function Nameless(): Row -> bool {
    (row: Row) => row.address.None?
  }

  lemma {:induction false} RowsCounted(rows: seq<Row>)
    ensures SummaryOf(rows).rows == |rows| && SummaryOf(rows).withoutAddress == CountWhere(rows, Nameless())
    decreases |rows|
  {
    if rows != [] {
      RowsCounted(rows[..|rows| - 1]);
    }
  }

  ghost predicate InAny(inputs: Input, key: nat) {
    key in LiquidKeys(inputs.liquid0) || key in LiquidKeys(inputs.liquid1) || key in StakingKeys(inputs.staking)
    || key in inputs.receipts
  }

  ghost predicate FitsAt(inputs: Input, key: nat) {
    Fits(LiquidAt(inputs.liquid0, key), LiquidAt(inputs.liquid1, key), StakingAt(inputs.staking, key),
         ReceiptAt(inputs.receipts, key))
  }

  ghost predicate SaysAt(inputs: Input, key: nat, row: Row) {
    Says(LiquidAt(inputs.liquid0, key), LiquidAt(inputs.liquid1, key), StakingAt(inputs.staking, key),
         ReceiptAt(inputs.receipts, key), key, row)
  }

  ghost predicate Sorted(inputs: Input) {
    Increasing(LiquidKeys(inputs.liquid0)) && Increasing(LiquidKeys(inputs.liquid1))
    && Increasing(StakingKeys(inputs.staking))
  }

  // Inputs that merge: sorted by key, and with parts that fit together for every key.
  ghost predicate Mergeable(inputs: Input) {
    Sorted(inputs) && forall key :: InAny(inputs, key) ==> FitsAt(inputs, key)
  }

  function Balances(rows: seq<LiquidRow>): int
    decreases |rows|
  {
    if rows == [] then 0 else Balances(rows[..|rows| - 1]) + rows[|rows| - 1].balance
  }

  function Stakes(rows: seq<StakingRow>): (int, int, int)
    decreases |rows|
  {
    if rows == [] then (0, 0, 0)
    else
      var (active, pending, reward) := Stakes(rows[..|rows| - 1]);
      (active + rows[|rows| - 1].active, pending + rows[|rows| - 1].pending, reward + rows[|rows| - 1].reward)
  }

  // Where the four cursors stand.
  datatype Cursors = Cursors(liquid0: nat, liquid1: nat, staking: nat, receipts: nat)

  predicate InRange(inputs: Input, order: seq<nat>, c: Cursors) {
    match c
    case Cursors(i, j, k, m) =>
      i <= |inputs.liquid0| && j <= |inputs.liquid1| && k <= |inputs.staking| && m <= |order|
  }

  ghost predicate AllCovered(inputs: Input, order: seq<nat>, c: Cursors, last: int) {
    match c
    case Cursors(i, j, k, m) =>
      Covered(LiquidKeys(inputs.liquid0), i, last) && Covered(LiquidKeys(inputs.liquid1), j, last)
      && Covered(StakingKeys(inputs.staking), k, last) && Covered(order, m, last)
  }

  // The summary's columns are the sums of what the cursors have passed.
  ghost predicate LiquidSummed(rows: seq<LiquidRow>, i: nat, sum: int)
    requires i <= |rows|
  {
    sum == Balances(rows[..i])
  }

  ghost predicate StakingSummed(rows: seq<StakingRow>, i: nat, s: Summary)
    requires i <= |rows|
  {
    (s.active, s.pending, s.reward) == Stakes(rows[..i])
  }

  ghost predicate ReceiptsSummed(receipts: map<nat, ReceiptClaim>, order: seq<nat>, i: nat, sum: int)
    requires i <= |order|
  {
    sum == SumKeys(AmountsOf(receipts), order[..i])
  }

  predicate Totalled(s: Summary) {
    s.total == s.liquid0 + s.liquid1 + s.active + s.pending + s.reward + s.receipt
  }

  ghost predicate Summed(inputs: Input, order: seq<nat>, c: Cursors, s: Summary)
    requires InRange(inputs, order, c)
  {
    match c
    case Cursors(i, j, k, m) =>
      LiquidSummed(inputs.liquid0, i, s.liquid0) && LiquidSummed(inputs.liquid1, j, s.liquid1)
      && StakingSummed(inputs.staking, k, s) && ReceiptsSummed(inputs.receipts, order, m, s.receipt) && Totalled(s)
  }

  function RowKeys(rows: seq<Row>): (keys: seq<nat>)
    ensures |keys| == |rows| && forall i :: 0 <= i < |rows| ==> keys[i] == rows[i].key
  {
    seq(|rows|, i requires 0 <= i < |rows| => rows[i].key)
  }

  ghost predicate Written(inputs: Input, order: seq<nat>, last: int, rows: seq<Row>) {
    Listed(RowKeys(rows), LiquidKeys(inputs.liquid0), LiquidKeys(inputs.liquid1), StakingKeys(inputs.staking), order,
           last)
    && forall i :: 0 <= i < |rows| ==> SaysAt(inputs, rows[i].key, rows[i])
  }

  function NextKey(inputs: Input, order: seq<nat>, c: Cursors): Option<nat> {
    Least(Least(Head(LiquidKeys(inputs.liquid0), c.liquid0), Head(LiquidKeys(inputs.liquid1), c.liquid1)),
          Least(Head(StakingKeys(inputs.staking), c.staking), Head(order, c.receipts)))
  }

  function Step(inputs: Input, order: seq<nat>, c: Cursors, key: nat): Cursors {
    Cursors(Advance(LiquidKeys(inputs.liquid0), c.liquid0, key), Advance(LiquidKeys(inputs.liquid1), c.liquid1, key),
            Advance(StakingKeys(inputs.staking), c.staking, key), Advance(order, c.receipts, key))
  }

  function LiquidHere(rows: seq<LiquidRow>, i: nat, key: nat): Option<LiquidRow> {
    if i < |rows| && rows[i].key == key then Some(rows[i]) else None
  }

  function StakingHere(rows: seq<StakingRow>, i: nat, key: nat): Option<StakingRow> {
    if i < |rows| && rows[i].key == key then Some(rows[i]) else None
  }

  lemma NextIsLeast(inputs: Input, order: seq<nat>, c: Cursors, last: int)
    requires InRange(inputs, order, c) && AllCovered(inputs, order, c, last) && NextKey(inputs, order, c).Some?
    ensures var key := NextKey(inputs, order, c).value;
            last < key
            && (c.liquid0 < |inputs.liquid0| ==> key <= LiquidKeys(inputs.liquid0)[c.liquid0])
            && (c.liquid1 < |inputs.liquid1| ==> key <= LiquidKeys(inputs.liquid1)[c.liquid1])
            && (c.staking < |inputs.staking| ==> key <= StakingKeys(inputs.staking)[c.staking])
            && (c.receipts < |order| ==> key <= order[c.receipts])
  {
  }

  // The rows under the cursors are the rows of the next key.
  lemma HereIsAt(inputs: Input, order: seq<nat>, c: Cursors, last: int)
    requires InRange(inputs, order, c) && AllCovered(inputs, order, c, last) && NextKey(inputs, order, c).Some?
    requires Sorted(inputs) && Lists(order, inputs.receipts.Keys)
    ensures var key := NextKey(inputs, order, c).value;
            AllCovered(inputs, order, Step(inputs, order, c, key), key)
            && LiquidAt(inputs.liquid0, key) == LiquidHere(inputs.liquid0, c.liquid0, key)
            && LiquidAt(inputs.liquid1, key) == LiquidHere(inputs.liquid1, c.liquid1, key)
            && StakingAt(inputs.staking, key) == StakingHere(inputs.staking, c.staking, key)
            && (key in inputs.receipts <==> Head(order, c.receipts) == Some(key))
  {
    var key := NextKey(inputs, order, c).value;
    NextIsLeast(inputs, order, c, last);
    StreamStep(LiquidKeys(inputs.liquid0), c.liquid0, last, key);
    StreamStep(LiquidKeys(inputs.liquid1), c.liquid1, last, key);
    StreamStep(StakingKeys(inputs.staking), c.staking, last, key);
    StreamStep(order, c.receipts, last, key);
  }

  lemma NextIsThere(inputs: Input, order: seq<nat>, c: Cursors)
    requires InRange(inputs, order, c) && NextKey(inputs, order, c).Some?
    ensures var key := NextKey(inputs, order, c).value;
            key in LiquidKeys(inputs.liquid0) || key in LiquidKeys(inputs.liquid1) || key in StakingKeys(inputs.staking)
            || key in order
    ensures var key := NextKey(inputs, order, c).value;
            Head(LiquidKeys(inputs.liquid0), c.liquid0) == Some(key)
            || Head(LiquidKeys(inputs.liquid1), c.liquid1) == Some(key)
            || Head(StakingKeys(inputs.staking), c.staking) == Some(key) || Head(order, c.receipts) == Some(key)
  {
  }

  lemma NothingSkipped(inputs: Input, order: seq<nat>, c: Cursors, last: int, k: nat)
    requires InRange(inputs, order, c) && AllCovered(inputs, order, c, last) && NextKey(inputs, order, c).Some?
    requires Sorted(inputs) && Increasing(order) && k > last
    requires k in LiquidKeys(inputs.liquid0) || k in LiquidKeys(inputs.liquid1) || k in StakingKeys(inputs.staking)
             || k in order
    ensures k >= NextKey(inputs, order, c).value
  {
    var key := NextKey(inputs, order, c).value;
    NextIsLeast(inputs, order, c, last);
    StreamStep(LiquidKeys(inputs.liquid0), c.liquid0, last, key);
    StreamStep(LiquidKeys(inputs.liquid1), c.liquid1, last, key);
    StreamStep(StakingKeys(inputs.staking), c.staking, last, key);
    StreamStep(order, c.receipts, last, key);
  }

  lemma WrittenStep(inputs: Input, order: seq<nat>, c: Cursors, last: int, rows: seq<Row>, row: Row)
    requires InRange(inputs, order, c) && AllCovered(inputs, order, c, last)
    requires NextKey(inputs, order, c) == Some(row.key)
    requires Sorted(inputs) && Increasing(order) && Written(inputs, order, last, rows) && SaysAt(inputs, row.key, row)
    ensures Written(inputs, order, row.key, rows + [row])
  {
    NextIsThere(inputs, order, c);
    NextIsLeast(inputs, order, c, last);
    forall k | k > last && (k in LiquidKeys(inputs.liquid0) || k in LiquidKeys(inputs.liquid1)
                            || k in StakingKeys(inputs.staking) || k in order)
      ensures k >= row.key
    {
      NothingSkipped(inputs, order, c, last, k);
    }
    ListedStep(RowKeys(rows), LiquidKeys(inputs.liquid0), LiquidKeys(inputs.liquid1), StakingKeys(inputs.staking),
               order, last, row.key);
    assert RowKeys(rows + [row]) == RowKeys(rows) + [row.key];
  }

  lemma BalancesStep(rows: seq<LiquidRow>, i: nat, key: nat, sum: int)
    requires i <= |rows| && LiquidSummed(rows, i, sum)
    ensures Advance(LiquidKeys(rows), i, key) <= |rows|
    ensures LiquidSummed(rows, Advance(LiquidKeys(rows), i, key), sum + Balance(LiquidHere(rows, i, key)))
  {
    if i < |rows| {
      assert rows[..i + 1][..i] == rows[..i];
    }
  }

  lemma StakesStep(rows: seq<StakingRow>, i: nat, s: Summary, row: Row)
    requires i <= |rows| && StakingSummed(rows, i, s)
    requires (row.active, row.pending, row.reward) == Stake(StakingHere(rows, i, row.key))
    ensures Advance(StakingKeys(rows), i, row.key) <= |rows|
    ensures StakingSummed(rows, Advance(StakingKeys(rows), i, row.key), AddRow(s, row))
  {
    if i < |rows| {
      assert rows[..i + 1][..i] == rows[..i];
    }
  }

  lemma ReceiptsStep(receipts: map<nat, ReceiptClaim>, order: seq<nat>, i: nat, key: nat, sum: int)
    requires i <= |order| && (key in receipts <==> Head(order, i) == Some(key))
    requires ReceiptsSummed(receipts, order, i, sum)
    ensures Advance(order, i, key) <= |order|
    ensures ReceiptsSummed(receipts, order, Advance(order, i, key), sum + Receipt(ReceiptAt(receipts, key)))
  {
    if i < |order| {
      assert order[..i + 1][..i] == order[..i];
    }
  }

  lemma SummedStep(inputs: Input, order: seq<nat>, c: Cursors, s: Summary, row: Row)
    requires InRange(inputs, order, c) && Summed(inputs, order, c, s)
    requires row.key in inputs.receipts <==> Head(order, c.receipts) == Some(row.key)
    requires Says(LiquidHere(inputs.liquid0, c.liquid0, row.key), LiquidHere(inputs.liquid1, c.liquid1, row.key),
                  StakingHere(inputs.staking, c.staking, row.key), ReceiptAt(inputs.receipts, row.key), row.key, row)
    ensures InRange(inputs, order, Step(inputs, order, c, row.key))
    ensures Summed(inputs, order, Step(inputs, order, c, row.key), AddRow(s, row))
  {
    BalancesStep(inputs.liquid0, c.liquid0, row.key, s.liquid0);
    BalancesStep(inputs.liquid1, c.liquid1, row.key, s.liquid1);
    StakesStep(inputs.staking, c.staking, s, row);
    ReceiptsStep(inputs.receipts, order, c.receipts, row.key, s.receipt);
  }

  datatype Merged = Merged(rows: seq<Row>, summary: Summary)

  // One row for every key of any input, in key order, saying what the inputs say about it.
  ghost predicate CoversKeys(inputs: Input, rows: seq<Row>) {
    Increasing(RowKeys(rows)) && (forall key :: key in RowKeys(rows) <==> InAny(inputs, key))
    && (forall i :: 0 <= i < |rows| ==> SaysAt(inputs, rows[i].key, rows[i]))
  }

  // The columns of the summary are the sums of the input columns.
  ghost predicate SumsColumns(inputs: Input, s: Summary) {
    s.liquid0 == Balances(inputs.liquid0) && s.liquid1 == Balances(inputs.liquid1)
    && (s.active, s.pending, s.reward) == Stakes(inputs.staking) && s.receipt == SumMap(AmountsOf(inputs.receipts))
    && s.total == s.liquid0 + s.liquid1 + s.active + s.pending + s.reward + s.receipt
  }

  ghost predicate IsLedger(inputs: Input, m: Merged) {
    match m
    case Merged(rows, summary) =>
      CoversKeys(inputs, rows) && SumsColumns(inputs, summary) && summary == SummaryOf(rows)
  }

  lemma EndSums(inputs: Input, order: seq<nat>, c: Cursors, s: Summary)
    requires InRange(inputs, order, c) && NextKey(inputs, order, c).None? && Lists(order, inputs.receipts.Keys)
    requires Summed(inputs, order, c, s)
    ensures SumsColumns(inputs, s)
  {
    assert inputs.liquid0[..c.liquid0] == inputs.liquid0 && inputs.liquid1[..c.liquid1] == inputs.liquid1;
    assert inputs.staking[..c.staking] == inputs.staking && order[..c.receipts] == order;
    SumListed(AmountsOf(inputs.receipts), order);
  }

  lemma CoveredEnd(keys: seq<nat>, last: int, key: nat)
    requires Covered(keys, |keys|, last) && key in keys
    ensures key <= last
  {
  }

  lemma EndKeys(inputs: Input, order: seq<nat>, c: Cursors, last: int, rows: seq<Row>)
    requires InRange(inputs, order, c) && NextKey(inputs, order, c).None? && Lists(order, inputs.receipts.Keys)
    requires AllCovered(inputs, order, c, last) && Written(inputs, order, last, rows)
    ensures CoversKeys(inputs, rows)
  {
    forall key: nat | InAny(inputs, key) ensures key <= last {
      if key in LiquidKeys(inputs.liquid0) { CoveredEnd(LiquidKeys(inputs.liquid0), last, key); }
      else if key in LiquidKeys(inputs.liquid1) { CoveredEnd(LiquidKeys(inputs.liquid1), last, key); }
      else if key in StakingKeys(inputs.staking) { CoveredEnd(StakingKeys(inputs.staking), last, key); }
      else { CoveredEnd(order, last, key); }
    }
  }

  // A row read after another must have a larger key.
  predicate InOrder(inputs: Input, c: Cursors) {
    match c
    case Cursors(i, j, k, _) =>
      OrderedTo(LiquidKeys(inputs.liquid0), i) && OrderedTo(LiquidKeys(inputs.liquid1), j)
      && OrderedTo(StakingKeys(inputs.staking), k)
  }

  method NextInOrder(keys: seq<nat>, i: nat, key: nat) returns (ok: bool)
    requires OrderedTo(keys, i)
    ensures ok ==> OrderedTo(keys, Advance(keys, i, key))
    ensures !ok ==> !Increasing(keys)
  {
    ok := !(Head(keys, i) == Some(key) && i + 1 < |keys| && keys[i + 1] <= keys[i]);
  }

  method AllNextInOrder(inputs: Input, order: seq<nat>, c: Cursors, key: nat) returns (ok: bool)
    requires InOrder(inputs, c)
    ensures ok ==> InOrder(inputs, Step(inputs, order, c, key))
    ensures !ok ==> !Sorted(inputs)
  {
    ok := NextInOrder(LiquidKeys(inputs.liquid0), c.liquid0, key);
    if ok {
      ok := NextInOrder(LiquidKeys(inputs.liquid1), c.liquid1, key);
      if ok {
        ok := NextInOrder(StakingKeys(inputs.staking), c.staking, key);
      }
    }
  }

  // While the keys are sorted, what has been merged so far is right.
  ghost predicate Merging(inputs: Input, order: seq<nat>, c: Cursors, last: int, rows: seq<Row>, s: Summary)
    requires InRange(inputs, order, c)
  {
    AllCovered(inputs, order, c, last) && Written(inputs, order, last, rows) && Summed(inputs, order, c, s)
  }

  lemma MergeStep(inputs: Input, order: seq<nat>, c: Cursors, last: int, rows: seq<Row>, s: Summary, row: Row)
    requires InRange(inputs, order, c) && NextKey(inputs, order, c) == Some(row.key)
    requires Sorted(inputs) && Lists(order, inputs.receipts.Keys) && Merging(inputs, order, c, last, rows, s)
    requires Says(LiquidHere(inputs.liquid0, c.liquid0, row.key), LiquidHere(inputs.liquid1, c.liquid1, row.key),
                  StakingHere(inputs.staking, c.staking, row.key), ReceiptAt(inputs.receipts, row.key), row.key, row)
    ensures InRange(inputs, order, Step(inputs, order, c, row.key))
    ensures Merging(inputs, order, Step(inputs, order, c, row.key), row.key, rows + [row], AddRow(s, row))
  {
    HereIsAt(inputs, order, c, last);
    WrittenStep(inputs, order, c, last, rows, row);
    SummedStep(inputs, order, c, s, row);
  }

  lemma RowMustFit(inputs: Input, order: seq<nat>, c: Cursors, last: int)
    requires InRange(inputs, order, c) && NextKey(inputs, order, c).Some? && AllCovered(inputs, order, c, last)
    requires Mergeable(inputs) && Lists(order, inputs.receipts.Keys)
    ensures var key := NextKey(inputs, order, c).value;
            Fits(LiquidHere(inputs.liquid0, c.liquid0, key), LiquidHere(inputs.liquid1, c.liquid1, key),
                 StakingHere(inputs.staking, c.staking, key), ReceiptAt(inputs.receipts, key))
  {
    NextIsThere(inputs, order, c);
    HereIsAt(inputs, order, c, last);
    assert InAny(inputs, NextKey(inputs, order, c).value);
  }

  // How many rows and keys are still to be read.
  function Left(inputs: Input, order: seq<nat>, c: Cursors): int {
    |inputs.liquid0| - c.liquid0 + |inputs.liquid1| - c.liquid1 + |inputs.staking| - c.staking + |order| - c.receipts
  }

  lemma StepReads(inputs: Input, order: seq<nat>, c: Cursors)
    requires InRange(inputs, order, c) && NextKey(inputs, order, c).Some?
    ensures var d := Step(inputs, order, c, NextKey(inputs, order, c).value);
            InRange(inputs, order, d) && Left(inputs, order, d) < Left(inputs, order, c)
  {
    NextIsThere(inputs, order, c);
  }

  lemma AllRead(inputs: Input, order: seq<nat>, c: Cursors)
    requires InRange(inputs, order, c) && NextKey(inputs, order, c).None? && InOrder(inputs, c)
    ensures Sorted(inputs)
  {
    OrderedIncreases(LiquidKeys(inputs.liquid0));
    OrderedIncreases(LiquidKeys(inputs.liquid1));
    OrderedIncreases(StakingKeys(inputs.staking));
  }

  ghost predicate RowsFit(inputs: Input, rows: seq<Row>) {
    forall i :: 0 <= i < |rows| ==> FitsAt(inputs, rows[i].key)
  }

  // Every row that was written fits, so at the end all keys do.
  lemma AllFit(inputs: Input, rows: seq<Row>)
    requires Sorted(inputs) && CoversKeys(inputs, rows)
    requires RowsFit(inputs, rows)
    ensures Mergeable(inputs)
  {
    forall key | InAny(inputs, key) ensures FitsAt(inputs, key) {
      assert key in RowKeys(rows);
      var i :| 0 <= i < |rows| && RowKeys(rows)[i] == key;
      assert rows[i].key == key;
    }
  }

  ghost predicate Sound(inputs: Input, order: seq<nat>, c: Cursors, last: int, rows: seq<Row>, s: Summary)
    requires InRange(inputs, order, c)
  {
    s == SummaryOf(rows) && (Sorted(inputs) ==> Merging(inputs, order, c, last, rows, s) && RowsFit(inputs, rows))
  }

  lemma MergeStarts(inputs: Input, order: seq<nat>)
    requires Lists(order, inputs.receipts.Keys)
    ensures Sound(inputs, order, Cursors(0, 0, 0, 0), -1, [], NO_SUMMARY)
  {
    assert RowKeys([]) == [];
  }

  lemma SummaryStep(rows: seq<Row>, row: Row)
    ensures SummaryOf(rows + [row]) == AddRow(SummaryOf(rows), row)
  {
    assert (rows + [row])[..|rows|] == rows;
  }

  lemma RowsFitStep(inputs: Input, rows: seq<Row>, row: Row)
    requires RowsFit(inputs, rows) && FitsAt(inputs, row.key)
    ensures RowsFit(inputs, rows + [row])
  {
  }

  // The row under the cursors fits, and says what the inputs say.
  ghost predicate GoodRow(inputs: Input, c: Cursors, row: Row) {
    Fits(LiquidHere(inputs.liquid0, c.liquid0, row.key), LiquidHere(inputs.liquid1, c.liquid1, row.key),
         StakingHere(inputs.staking, c.staking, row.key), ReceiptAt(inputs.receipts, row.key))
    && Says(LiquidHere(inputs.liquid0, c.liquid0, row.key), LiquidHere(inputs.liquid1, c.liquid1, row.key),
            StakingHere(inputs.staking, c.staking, row.key), ReceiptAt(inputs.receipts, row.key), row.key, row)
  }

  lemma SortedStep(inputs: Input, order: seq<nat>, c: Cursors, last: int, rows: seq<Row>, s: Summary, row: Row)
    requires InRange(inputs, order, c) && NextKey(inputs, order, c) == Some(row.key)
    requires Lists(order, inputs.receipts.Keys) && Sorted(inputs) && GoodRow(inputs, c, row)
    requires Merging(inputs, order, c, last, rows, s) && RowsFit(inputs, rows)
    ensures InRange(inputs, order, Step(inputs, order, c, row.key))
    ensures Merging(inputs, order, Step(inputs, order, c, row.key), row.key, rows + [row], AddRow(s, row))
    ensures RowsFit(inputs, rows + [row])
  {
    MergeStep(inputs, order, c, last, rows, s, row);
    HereIsAt(inputs, order, c, last);
    RowsFitStep(inputs, rows, row);
  }

  lemma SoundStep(inputs: Input, order: seq<nat>, c: Cursors, last: int, rows: seq<Row>, s: Summary, row: Row)
    requires InRange(inputs, order, c) && NextKey(inputs, order, c) == Some(row.key)
    requires Lists(order, inputs.receipts.Keys) && Sound(inputs, order, c, last, rows, s) && GoodRow(inputs, c, row)
    ensures InRange(inputs, order, Step(inputs, order, c, row.key))
    ensures Sound(inputs, order, Step(inputs, order, c, row.key), row.key, rows + [row], AddRow(s, row))
    ensures Left(inputs, order, Step(inputs, order, c, row.key)) < Left(inputs, order, c)
  {
    StepReads(inputs, order, c);
    SummaryStep(rows, row);
    if Sorted(inputs) {
      SortedStep(inputs, order, c, last, rows, s, row);
    }
  }

  lemma SoundEnd(inputs: Input, order: seq<nat>, c: Cursors, last: int, rows: seq<Row>, s: Summary)
    requires InRange(inputs, order, c) && NextKey(inputs, order, c).None? && InOrder(inputs, c)
    requires Lists(order, inputs.receipts.Keys)
    requires Sound(inputs, order, c, last, rows, s)
    ensures Mergeable(inputs) && IsLedger(inputs, Merged(rows, s))
  {
    AllRead(inputs, order, c);
    EndKeys(inputs, order, c, last, rows);
    EndSums(inputs, order, c, s);
    AllFit(inputs, rows);
  }

  lemma BadRowStops(inputs: Input, order: seq<nat>, c: Cursors, last: int, rows: seq<Row>, s: Summary, key: nat)
    requires InRange(inputs, order, c) && NextKey(inputs, order, c) == Some(key) && Lists(order, inputs.receipts.Keys)
    requires Sound(inputs, order, c, last, rows, s)
    requires !Fits(LiquidHere(inputs.liquid0, c.liquid0, key), LiquidHere(inputs.liquid1, c.liquid1, key),
                   StakingHere(inputs.staking, c.staking, key), ReceiptAt(inputs.receipts, key))
    ensures !Mergeable(inputs)
  {
    if Mergeable(inputs) {
      RowMustFit(inputs, order, c, last);
    }
  }

  // The loop's state: where the cursors stand and what has been written.
  datatype Progress = Progress(cursors: Cursors, rows: seq<Row>, summary: Summary)

  ghost predicate Running(inputs: Input, order: seq<nat>, p: Progress, last: int) {
    match p
    case Progress(c, rows, s) =>
      Lists(order, inputs.receipts.Keys) && InRange(inputs, order, c) && InOrder(inputs, c)
      && Sound(inputs, order, c, last, rows, s)
  }

  // The row for the next key, built from the rows under the cursors, and its checks.
  method NextRow(inputs: Input, order: seq<nat>, p: Progress, ghost last: int)
    returns (r: Result<Row, LedgerError>)
    requires Running(inputs, order, p, last) && NextKey(inputs, order, p.cursors).Some?
    ensures r.Err? ==> !Mergeable(inputs)
    ensures r.Ok? ==>
              var next := Progress(Step(inputs, order, p.cursors, r.value.key), p.rows + [r.value],
                                   AddRow(p.summary, r.value));
              Running(inputs, order, next, r.value.key)
              && 0 <= Left(inputs, order, next.cursors) < Left(inputs, order, p.cursors)
  {
    var c := p.cursors;
    var key := NextKey(inputs, order, c).value;
    var ok := AllNextInOrder(inputs, order, c, key);
    if !ok {
      return Err(KeysNotIncreasing);
    }
    var row := BuildRow(LiquidHere(inputs.liquid0, c.liquid0, key), LiquidHere(inputs.liquid1, c.liquid1, key),
                        StakingHere(inputs.staking, c.staking, key), ReceiptAt(inputs.receipts, key), key);
    if row.None? {
      BadRowStops(inputs, order, c, last, p.rows, p.summary, key);
      return Err(BadRow);
    }
    SoundStep(inputs, order, c, last, p.rows, p.summary, row.value);
    r := Ok(row.value);
  }

  lemma RunningStarts(inputs: Input, order: seq<nat>)
    requires Lists(order, inputs.receipts.Keys)
    ensures Running(inputs, order, Progress(Cursors(0, 0, 0, 0), [], NO_SUMMARY), -1)
  {
    MergeStarts(inputs, order);
  }

  lemma RunningEnds(inputs: Input, order: seq<nat>, p: Progress, last: int)
    requires Running(inputs, order, p, last) && NextKey(inputs, order, p.cursors).None?
    ensures Mergeable(inputs) && IsLedger(inputs, Merged(p.rows, p.summary))
  {
    SoundEnd(inputs, order, p.cursors, last, p.rows, p.summary);
  }

  // The merge: four cursors move over the sorted inputs, always past the least key.
  method Merge(inputs: Input) returns (r: Result<Merged, LedgerError>)
    ensures r.Ok? <==> Mergeable(inputs)
    ensures r.Ok? ==> IsLedger(inputs, r.value)
  {
    var order := Sort(inputs.receipts.Keys);
    var p := Progress(Cursors(0, 0, 0, 0), [], NO_SUMMARY);
    ghost var last: int := -1;
    RunningStarts(inputs, order);
    while NextKey(inputs, order, p.cursors).Some?
      invariant Running(inputs, order, p, last)
      decreases Left(inputs, order, p.cursors)
    {
      var row := NextRow(inputs, order, p, last);
      if row.Err? {
        return Err(row.error);
      }
      last := row.value.key;
      p := Progress(Step(inputs, order, p.cursors, row.value.key), p.rows + [row.value], AddRow(p.summary, row.value));
    }
    RunningEnds(inputs, order, p, last);
    r := Ok(Merged(p.rows, p.summary));
  }
}
