/** The migration-stage policy: what accepting its rows and its summary implies. */
module StagePolicy {
  import opened Base
  import opened Totals

  const THRESHOLD: int := 1000 * 1_000_000_000_000_000_000

  // Stages are known by label; these are the three that the checks name.
  type Stage = nat

  const INITIAL: Stage := 0
  const NEXT_STAGE: Stage := 1
  const DEFERRED: Stage := 2

  datatype Classification = Wallet | ValidatorWallet | GenuineContract | OtherClassification

  datatype Treatment = Issue | NotIssued | InvalidTreatment

  datatype Routing = AutomaticPolicy | ExchangeOrManual | OtherRouting

  datatype Amounts = Amounts(gross: int, existing: int, historical: int, wone: int, contract: int, contractWallet: int,
                             contractStaked: int, wallet: int, staked: int, allocation: int)

  datatype Row = Row(address: nat, classification: Classification, routing: Routing, stage: Option<Stage>,
                     treatment: Treatment, group: nat, qualification: int, amounts: Amounts, activity: Option<int>)

  predicate IsWallet(row: Row) {
    row.classification == Wallet || row.classification == ValidatorWallet
  }

  predicate NonNegative(a: Amounts) {
    a.gross >= 0 && a.existing >= 0 && a.historical >= 0 && a.wone >= 0 && a.contract >= 0 && a.contractWallet >= 0
    && a.contractStaked >= 0 && a.wallet >= 0 && a.staked >= 0 && a.allocation >= 0
  }

  // The five deductions lead from the gross amount to the allocation, and both splits add up.
  predicate Closes(a: Amounts) {
    a.gross - a.existing - a.historical - a.wone - a.contract == a.allocation
    && a.wallet + a.staked == a.allocation && a.contractWallet + a.contractStaked == a.contract
  }

  // Still above the threshold after the incident deductions.
  predicate MeetsThreshold(row: Row) {
    row.qualification - row.amounts.existing - row.amounts.historical >= THRESHOLD
  }

  predicate ActiveSince(row: Row, since: int) {
    row.activity.Some? && row.activity.value >= since
  }

  predicate Treated(row: Row) {
    match row.treatment
    case Issue => row.stage.Some? && row.amounts.allocation > 0
    case NotIssued => row.stage.None? && row.amounts.allocation == 0
    case InvalidTreatment => false
  }

  // The row checks, in the order of the loop.
  predicate Fits(row: Row, since: int) {
    NonNegative(row.amounts) && row.qualification >= THRESHOLD && Closes(row.amounts) && Treated(row)
    && (IsWallet(row) && row.amounts.allocation > 0 && !MeetsThreshold(row) ==> row.stage == Some(DEFERRED))
    && (row.stage == Some(INITIAL) ==>
          IsWallet(row) && row.amounts.allocation > 0 && MeetsThreshold(row) && ActiveSince(row, since))
    && (row.stage == Some(DEFERRED) && IsWallet(row) && row.amounts.allocation > 0 && MeetsThreshold(row) ==>
          !ActiveSince(row, since))
  }

  // ---- the tally -------------------------------------------------------

  // What the reviewed contracts of one policy group add up to.
  datatype GroupTotals = GroupTotals(addresses: nat, allocation: int, wallet: int, staked: int, notIssued: int,
                                     notIssuedWallet: int, notIssuedStaked: int)

  const NO_GROUP := GroupTotals(0, 0, 0, 0, 0, 0, 0)

  datatype Tally = Tally(rows: nat, stageRows: map<Stage, int>, stageAmounts: map<Stage, int>, issued: nat,
                         notIssued: nat, sums: Amounts, automatic: nat, manual: nat, validators: nat,
                         belowRows: nat, belowAmount: int, contracts: map<nat, GroupTotals>)

  function NoTally(): Tally {
    Tally(0, map[], map[], 0, 0, Amounts(0, 0, 0, 0, 0, 0, 0, 0, 0, 0), 0, 0, 0, 0, 0, map[])
  }

  function AddContract(g: GroupTotals, a: Amounts): GroupTotals {
    GroupTotals(g.addresses + 1, g.allocation + a.allocation, g.wallet + a.wallet, g.staked + a.staked,
                g.notIssued + a.contract, g.notIssuedWallet + a.contractWallet, g.notIssuedStaked + a.contractStaked)
  }

  function GroupAt(contracts: map<nat, GroupTotals>, group: nat): GroupTotals {
    if group in contracts then contracts[group] else NO_GROUP
  }

  function AddToGroup(contracts: map<nat, GroupTotals>, row: Row): map<nat, GroupTotals> {
    if row.classification != GenuineContract then contracts
    else contracts[row.group := AddContract(GroupAt(contracts, row.group), row.amounts)]
  }

  function PlusAmounts(a: Amounts, b: Amounts): Amounts {
    Amounts(a.gross + b.gross, a.existing + b.existing, a.historical + b.historical, a.wone + b.wone,
            a.contract + b.contract, a.contractWallet + b.contractWallet, a.contractStaked + b.contractStaked,
            a.wallet + b.wallet, a.staked + b.staked, a.allocation + b.allocation)
  }

  predicate FellBelow(row: Row) {
    IsWallet(row) && row.amounts.allocation > 0 && !MeetsThreshold(row)
  }

  function AddStage(sums: map<Stage, int>, stage: Option<Stage>, amount: int): map<Stage, int> {
    if stage.None? then sums else sums[stage.value := Get(sums, stage.value) + amount]
  }

  function AddRow(t: Tally, row: Row): Tally {
    var initial := row.stage == Some(INITIAL);
    Tally(t.rows + 1, AddStage(t.stageRows, row.stage, 1), AddStage(t.stageAmounts, row.stage, row.amounts.allocation),
          t.issued + Bit(row.treatment == Issue), t.notIssued + Bit(row.treatment == NotIssued),
          PlusAmounts(t.sums, row.amounts), t.automatic + Bit(initial && row.routing == AutomaticPolicy),
          t.manual + Bit(initial && row.routing == ExchangeOrManual),
          t.validators + Bit(initial && row.classification == ValidatorWallet),
          t.belowRows + Bit(FellBelow(row)), t.belowAmount + (if FellBelow(row) then row.amounts.allocation else 0),
          AddToGroup(t.contracts, row))
  }

  function Addresses(rows: seq<Row>): set<nat>
    decreases |rows|
  {
    if rows == [] then {} else Addresses(rows[..|rows| - 1]) + {rows[|rows| - 1].address}
  }

  predicate AllFit(rows: seq<Row>, since: int)
    decreases |rows|
  {
    rows == [] ||
    var front, last := rows[..|rows| - 1], rows[|rows| - 1];
    AllFit(front, since) && last.address !in Addresses(front) && Fits(last, since)
  }

  function Tallied(rows: seq<Row>): Tally
    decreases |rows|
  {
    if rows == [] then NoTally() else AddRow(Tallied(rows[..|rows| - 1]), rows[|rows| - 1])
  }

  lemma {:induction false} FitStops(rows: seq<Row>, since: int, i: nat)
    requires i <= |rows| && !AllFit(rows[..i], since)
    ensures !AllFit(rows, since)
    decreases |rows|
  {
    if i == |rows| {
      assert rows[..i] == rows;
    } else {
      assert rows[..|rows| - 1][..i] == rows[..i];
      FitStops(rows[..|rows| - 1], since, i);
    }
  }

  method CheckRow(row: Row, since: int) returns (ok: bool)
    ensures ok <==> Fits(row, since)
  {
    var a := row.amounts;
    if !NonNegative(a) || row.qualification < THRESHOLD { return false; }
    if a.gross - a.existing - a.historical - a.wone - a.contract != a.allocation { return false; }
    if a.wallet + a.staked != a.allocation || a.contractWallet + a.contractStaked != a.contract { return false; }
    match row.treatment {
      case Issue => if row.stage.None? || a.allocation <= 0 { return false; }
      case NotIssued => if row.stage.Some? || a.allocation != 0 { return false; }
      case InvalidTreatment => return false;
    }
    var meets := MeetsThreshold(row);
    if IsWallet(row) && a.allocation > 0 && !meets {
      if row.stage != Some(DEFERRED) { return false; }
    }
    if row.stage == Some(INITIAL) {
      if !IsWallet(row) || a.allocation <= 0 || !meets || row.activity.None? || row.activity.value < since {
        return false;
      }
    } else if row.stage == Some(DEFERRED) && IsWallet(row) && a.allocation > 0 && meets && row.activity.Some?
              && row.activity.value >= since {
      return false;
    }
    // A genuine contract in the initial stage has been refused above.
    ok := true;
  }

  // The row loop.
  method CheckRows(rows: seq<Row>, since: int) returns (r: Option<Tally>)
    ensures r.Some? <==> AllFit(rows, since)
    ensures r.Some? ==> r.value == Tallied(rows)
  {
    var tally, seen: set<nat> := NoTally(), {};
    for i := 0 to |rows|
      invariant AllFit(rows[..i], since) && seen == Addresses(rows[..i])
      invariant tally == Tallied(rows[..i])
    {
      assert rows[..i + 1][..i] == rows[..i];
      var ok := CheckRow(rows[i], since);
      if !ok || rows[i].address in seen {
        FitStops(rows, since, i + 1);
        return None;
      }
      seen := seen + {rows[i].address};
      tally := AddRow(tally, rows[i]);
    }
    assert rows[..|rows|] == rows;
    r := Some(tally);
  }

  // ---- closure ---------------------------------------------------------

  // All stages together hold the whole allocation, and the deductions close in aggregate.
  ghost predicate TallyCloses(t: Tally) {
    SumMap(t.stageAmounts) == t.sums.allocation && SumMap(t.stageRows) == t.issued && t.issued + t.notIssued == t.rows
    && t.sums.gross == t.sums.existing + t.sums.historical + t.sums.wone + t.sums.contract + t.sums.allocation
    && t.sums.allocation == t.sums.wallet + t.sums.staked
    && t.sums.contract == t.sums.contractWallet + t.sums.contractStaked
  }

  lemma StageAdded(sums: map<Stage, int>, stage: Option<Stage>, amount: int)
    ensures SumMap(AddStage(sums, stage, amount)) == SumMap(sums) + if stage.None? then 0 else amount
  {
    if stage.Some? {
      SumMapPut(sums, stage.value, Get(sums, stage.value) + amount);
    }
  }

  lemma {:induction false} AcceptedRowsClose(rows: seq<Row>, since: int)
    requires AllFit(rows, since)
    ensures TallyCloses(Tallied(rows))
    decreases |rows|
  {
    if rows != [] {
      var last := rows[|rows| - 1];
      var t := Tallied(rows[..|rows| - 1]);
      AcceptedRowsClose(rows[..|rows| - 1], since);
      StageAdded(t.stageRows, last.stage, 1);
      StageAdded(t.stageAmounts, last.stage, last.amounts.allocation);
    }
  }

  // ---- the summary -----------------------------------------------------

  // The figures of the stage summary and of the two other summaries that the closing checks use.
  datatype Summary = Summary(rows: int, stageRows: map<Stage, int>, issued: int, notIssued: int,
                             existing: int, historical: int, gross: int, totalMigration: int, contract: int,
                             initialWallets: int, nextStage: int, deferred: int,
                             automatic: int, manual: int, validators: int, belowRows: int, belowAmount: int,
                             supplyExisting: int, supplyRetained: int, supplyRevertLeak: int, supplyTotal: int,
                             nativeClaim: int, woneRetained: int, woneReserve: int, groups: map<nat, GroupTotals>)

  function TotalMigration(t: Tally, s: Summary): int {
    s.nativeClaim - s.existing - s.historical - s.woneRetained - t.sums.contract
  }

  // Every group that was found is published with the same totals.
  predicate GroupsAgree(contracts: map<nat, GroupTotals>, groups: map<nat, GroupTotals>) {
    forall g :: g in contracts ==> g in groups && groups[g] == contracts[g]
  }

  predicate Agrees(t: Tally, s: Summary) {
    GroupsAgree(t.contracts, s.groups) && t.rows == s.rows && t.stageRows == s.stageRows && t.issued == s.issued
    && t.notIssued == s.notIssued
    && s.existing == s.supplyExisting && s.historical == s.supplyRetained + s.supplyRevertLeak
    && s.existing + s.historical == s.supplyTotal
    && s.nativeClaim == s.gross && TotalMigration(t, s) == s.totalMigration
    && t.sums.wone == s.woneReserve && t.sums.contract == s.contract
    && Get(t.stageAmounts, INITIAL) == s.initialWallets
    && t.automatic == s.automatic && t.manual == s.manual && t.validators == s.validators
    && t.belowRows == s.belowRows && t.belowAmount == s.belowAmount
    && Get(t.stageAmounts, NEXT_STAGE) == s.nextStage
    && Get(t.stageAmounts, INITIAL) + Get(t.stageAmounts, NEXT_STAGE) + s.deferred == TotalMigration(t, s)
  }

  // The loop over the groups.
  method CheckGroups(contracts: map<nat, GroupTotals>, groups: map<nat, GroupTotals>) returns (ok: bool)
    ensures ok <==> GroupsAgree(contracts, groups)
  {
    var rest := contracts.Keys;
    while rest != {}
      invariant forall g :: g in rest ==> g in contracts
      invariant forall g :: g in contracts && g !in rest ==> g in groups && groups[g] == contracts[g]
      decreases |rest|
    {
      var g :| g in rest;
      if g !in groups || groups[g] != contracts[g] {
        return false;
      }
      rest := rest - {g};
    }
    ok := true;
  }

  method CheckSummary(t: Tally, s: Summary) returns (ok: bool)
    ensures ok <==> Agrees(t, s)
  {
    ok := CheckGroups(t.contracts, s.groups);
    if !ok { return false; }
    if t.rows != s.rows || t.stageRows != s.stageRows || t.issued != s.issued || t.notIssued != s.notIssued {
      return false;
    }
    if s.existing != s.supplyExisting || s.historical != s.supplyRetained + s.supplyRevertLeak { return false; }
    if s.existing + s.historical != s.supplyTotal { return false; }
    var total := s.nativeClaim - s.existing - s.historical - s.woneRetained - t.sums.contract;
    if s.nativeClaim != s.gross || total != s.totalMigration { return false; }
    if t.sums.wone != s.woneReserve || t.sums.contract != s.contract { return false; }
    var initial, next := Get(t.stageAmounts, INITIAL), Get(t.stageAmounts, NEXT_STAGE);
    if initial != s.initialWallets || t.validators != s.validators { return false; }
    if t.automatic != s.automatic || t.manual != s.manual { return false; }
    if t.belowRows != s.belowRows || t.belowAmount != s.belowAmount || next != s.nextStage { return false; }
    ok := initial + next + s.deferred == total;
  }

  method Reconcile(rows: seq<Row>, since: int, s: Summary) returns (ok: bool)
    ensures ok <==> AllFit(rows, since) && Agrees(Tallied(rows), s)
  {
    var tally := CheckRows(rows, since);
    if tally.None? { return false; }
    ok := CheckSummary(tally.value, s);
  }

  // What a reconciliation that passes has established: from the gross snapshot, the supply-side
  // non-issuance, the retained backing and the contracts' amounts, what remains is exactly the
  // three published buckets, two of which are the sums of the accepted rows.
  lemma ReconciledCloses(rows: seq<Row>, since: int, s: Summary)
    requires AllFit(rows, since) && Agrees(Tallied(rows), s)
    ensures s.gross == s.supplyTotal + s.woneRetained + s.contract + s.initialWallets + s.nextStage + s.deferred
    ensures s.initialWallets == StageSum(rows, INITIAL) && s.nextStage == StageSum(rows, NEXT_STAGE)
    ensures s.initialWallets == WalletSum(rows, since, true)
    ensures s.contract == ContractSum(rows)
    ensures SumMap(s.stageRows) == s.issued
    ensures forall i :: 0 <= i < |rows| && rows[i].classification == GenuineContract ==>
              rows[i].group in s.groups && s.groups[rows[i].group] == GroupSum(rows, rows[i].group)
  {
    AcceptedRowsClose(rows, since);
    StageSums(rows, INITIAL);
    StageSums(rows, NEXT_STAGE);
    ContractSums(rows);
    InitialIsQualified(rows, since);
    forall i | 0 <= i < |rows| && rows[i].classification == GenuineContract
      ensures rows[i].group in s.groups && s.groups[rows[i].group] == GroupSum(rows, rows[i].group)
    {
      GroupSums(rows, rows[i].group);
      GroupFound(rows, i);
    }
  }

  // ---- what the sums mean ----------------------------------------------

  function StageSum(rows: seq<Row>, stage: Stage): int
    decreases |rows|
  {
    if rows == [] then 0
    else
      StageSum(rows[..|rows| - 1], stage)
      + if rows[|rows| - 1].stage == Some(stage) then rows[|rows| - 1].amounts.allocation else 0
  }

  function ContractSum(rows: seq<Row>): int
    decreases |rows|
  {
    if rows == [] then 0 else ContractSum(rows[..|rows| - 1]) + rows[|rows| - 1].amounts.contract
  }

  lemma {:induction false} StageSums(rows: seq<Row>, stage: Stage)
    ensures Get(Tallied(rows).stageAmounts, stage) == StageSum(rows, stage)
    decreases |rows|
  {
    if rows != [] {
      StageSums(rows[..|rows| - 1], stage);
    }
  }

  lemma {:induction false} ContractSums(rows: seq<Row>)
    ensures Tallied(rows).sums.contract == ContractSum(rows)
    decreases |rows|
  {
    if rows != [] {
      ContractSums(rows[..|rows| - 1]);
    }
  }

  // What the genuine contracts of a group add up to.
  function GroupSum(rows: seq<Row>, group: nat): GroupTotals
    decreases |rows|
  {
    if rows == [] then NO_GROUP
    else
      var before, last := GroupSum(rows[..|rows| - 1], group), rows[|rows| - 1];
      if last.classification == GenuineContract && last.group == group then AddContract(before, last.amounts)
      else before
  }

  lemma {:induction false} GroupSums(rows: seq<Row>, group: nat)
    ensures GroupAt(Tallied(rows).contracts, group) == GroupSum(rows, group)
    decreases |rows|
  {
    if rows != [] {
      GroupSums(rows[..|rows| - 1], group);
    }
  }

  lemma {:induction false} GroupFound(rows: seq<Row>, i: nat)
    requires i < |rows| && rows[i].classification == GenuineContract
    ensures rows[i].group in Tallied(rows).contracts
    decreases |rows|
  {
    if i < |rows| - 1 {
      GroupFound(rows[..|rows| - 1], i);
    }
  }

  // The columns of the amounts.
  datatype Column = Gross | PriorList | Historical | Wone | Contract | ContractWallet | ContractStaked | InWallet
                  | Staked | Allocation

  function Figure(a: Amounts, column: Column): int {
    match column
    case Gross => a.gross
    case PriorList => a.existing
    case Historical => a.historical
    case Wone => a.wone
    case Contract => a.contract
    case ContractWallet => a.contractWallet
    case ContractStaked => a.contractStaked
    case InWallet => a.wallet
    case Staked => a.staked
    case Allocation => a.allocation
  }

  function FigureOf(column: Column): Row -> int {
    (row: Row) => Figure(row.amounts, column)
  }

  lemma {:induction false} ColumnSums(rows: seq<Row>, column: Column)
    ensures Figure(Tallied(rows).sums, column) == SumBy(rows, FigureOf(column))
    decreases |rows|
  {
    if rows != [] {
      ColumnSums(rows[..|rows| - 1], column);
    }
  }

  function ContractsOf(group: nat): Row -> bool {
    (row: Row) => row.classification.GenuineContract? && row.group == group
  }

  function ContractFigure(group: nat, column: Column): Row -> int {
    (row: Row) => if row.classification.GenuineContract? && row.group == group then Figure(row.amounts, column) else 0
  }

  // A group's totals are those of its genuine contracts, column by column.
  lemma {:induction false} GroupColumns(rows: seq<Row>, group: nat)
    ensures var g := GroupSum(rows, group);
            g.addresses == CountWhere(rows, ContractsOf(group))
            && g.allocation == SumBy(rows, ContractFigure(group, Allocation))
            && g.wallet == SumBy(rows, ContractFigure(group, InWallet))
            && g.staked == SumBy(rows, ContractFigure(group, Staked))
            && g.notIssued == SumBy(rows, ContractFigure(group, Contract))
            && g.notIssuedWallet == SumBy(rows, ContractFigure(group, ContractWallet))
            && g.notIssuedStaked == SumBy(rows, ContractFigure(group, ContractStaked))
    decreases |rows|
  {
    if rows != [] {
      GroupColumns(rows[..|rows| - 1], group);
    }
  }

  function InStage(stage: Stage): Row -> bool {
    (row: Row) => row.stage == Some(stage)
  }

  function WithTreatment(treatment: Treatment): Row -> bool {
    (row: Row) => row.treatment == treatment
  }

  function InitialBy(routing: Routing): Row -> bool {
    (row: Row) => row.stage == Some(INITIAL) && row.routing == routing
  }

  function InitialValidators(): Row -> bool {
    (row: Row) => row.stage == Some(INITIAL) && row.classification.ValidatorWallet?
  }

  // Wallets with an allocation that the incident deductions have taken below 1000 ONE.
  predicate TakenBelow(row: Row) {
    (row.classification.Wallet? || row.classification.ValidatorWallet?) && row.amounts.allocation > 0
    && row.qualification < 1000_000_000_000_000_000_000 + row.amounts.existing + row.amounts.historical
  }

  function Below(): Row -> bool {
    (row: Row) => TakenBelow(row)
  }

  function BelowAmount(): Row -> int {
    (row: Row) => if TakenBelow(row) then row.amounts.allocation else 0
  }

  // The counts of a tally.
  lemma {:induction false} RowsCounted(rows: seq<Row>, stage: Stage)
    ensures var t := Tallied(rows);
            t.rows == |rows| && Get(t.stageRows, stage) == CountWhere(rows, InStage(stage))
            && t.issued == CountWhere(rows, WithTreatment(Issue))
            && t.notIssued == CountWhere(rows, WithTreatment(NotIssued))
    decreases |rows|
  {
    if rows != [] {
      RowsCounted(rows[..|rows| - 1], stage);
    }
  }

  lemma {:induction false} InitialCounted(rows: seq<Row>)
    ensures var t := Tallied(rows);
            t.automatic == CountWhere(rows, InitialBy(AutomaticPolicy))
            && t.manual == CountWhere(rows, InitialBy(ExchangeOrManual))
            && t.validators == CountWhere(rows, InitialValidators())
    decreases |rows|
  {
    if rows != [] {
      InitialCounted(rows[..|rows| - 1]);
    }
  }

  lemma {:induction false} BelowCounted(rows: seq<Row>)
    ensures var t := Tallied(rows);
            t.belowRows == CountWhere(rows, Below()) && t.belowAmount == SumBy(rows, BelowAmount())
    decreases |rows|
  {
    if rows != [] {
      BelowCounted(rows[..|rows| - 1]);
    }
  }

  function AddressList(rows: seq<Row>): (all: seq<nat>)
    ensures |all| == |rows| && forall i :: 0 <= i < |rows| ==> all[i] == rows[i].address
  {
    seq(|rows|, i requires 0 <= i < |rows| => rows[i].address)
  }

  lemma AddressListMore(rows: seq<Row>)
    requires rows != []
    ensures AddressList(rows) == AddressList(rows[..|rows| - 1]) + [rows[|rows| - 1].address]
  {
  }

  lemma {:induction false} AddressesAre(rows: seq<Row>, a: nat)
    ensures a in Addresses(rows) <==> a in AddressList(rows)
    decreases |rows|
  {
    if rows != [] {
      AddressesAre(rows[..|rows| - 1], a);
      AddressListMore(rows);
    }
  }

  ghost predicate EachFits(rows: seq<Row>, since: int) {
    forall i :: 0 <= i < |rows| ==> Fits(rows[i], since)
  }

  // Accepted rows fit, and have different addresses.
  lemma {:induction false} AcceptedTable(rows: seq<Row>, since: int)
    ensures AllFit(rows, since) <==> EachFits(rows, since) && Different(AddressList(rows))
    decreases |rows|
  {
    if rows != [] {
      var front, last := rows[..|rows| - 1], rows[|rows| - 1];
      AcceptedTable(front, since);
      AddressesAre(front, last.address);
      AddressListMore(rows);
      DifferentMore(AddressList(front), last.address);
      EachFitsMore(front, last, since);
      assert rows == front + [last];
    }
  }

  lemma EachFitsMore(rows: seq<Row>, row: Row, since: int)
    ensures EachFits(rows + [row], since) <==> EachFits(rows, since) && Fits(row, since)
  {
    var more := rows + [row];
    assert more[|rows|] == row && forall i :: 0 <= i < |rows| ==> more[i] == rows[i];
  }

  // A row that fits is issued if and only if it has an allocation, and then it has a stage; a wallet
  // that was taken below the threshold can only be deferred.
  lemma IssuedRows(row: Row, since: int)
    requires Fits(row, since)
    ensures row.treatment == Issue <==> row.amounts.allocation > 0
    ensures row.treatment == NotIssued <==> row.amounts.allocation == 0
    ensures row.stage.Some? <==> row.amounts.allocation > 0
    ensures TakenBelow(row) ==> row.stage == Some(DEFERRED)
    ensures row.qualification >= 1000_000_000_000_000_000_000
    ensures forall column :: Figure(row.amounts, column) >= 0
    ensures var a := row.amounts;
            a.gross == a.existing + a.historical + a.wone + a.contract + a.allocation
            && a.allocation == a.wallet + a.staked && a.contract == a.contractWallet + a.contractStaked
  {
  }

  // Every accepted row fits on its own.
  lemma {:induction false} AcceptedRow(rows: seq<Row>, since: int, i: nat)
    requires AllFit(rows, since) && i < |rows|
    ensures Fits(rows[i], since)
    decreases |rows|
  {
    if i < |rows| - 1 {
      AcceptedRow(rows[..|rows| - 1], since, i);
    }
  }

  // A positive wallet row, a validator's or not, in one of the two wallet stages.
  predicate InWalletStage(row: Row) {
    (row.classification.Wallet? || row.classification.ValidatorWallet?) && row.amounts.allocation > 0
    && (row.stage == Some(INITIAL) || row.stage == Some(DEFERRED))
  }

  // At least 1000 ONE when the incident deductions are taken off, and activity in the window.
  predicate Qualifies(row: Row, since: int) {
    row.qualification >= 1000_000_000_000_000_000_000 + row.amounts.existing + row.amounts.historical
    && row.activity.Some? && since <= row.activity.value
  }

  // Of an accepted table, the rows in "initial" are exactly those positive wallet rows of the two
  // stages that are above the threshold after deductions and active in the window.
  lemma {:induction false} InitialExactly(rows: seq<Row>, since: int, i: nat)
    requires AllFit(rows, since) && i < |rows|
    ensures rows[i].stage == Some(INITIAL) <==> InWalletStage(rows[i]) && Qualifies(rows[i], since)
  {
    AcceptedRow(rows, since, i);
  }

  // What the wallet rows of the two stages hold that qualify, or that do not.
  function WalletSum(rows: seq<Row>, since: int, qualified: bool): int
    decreases |rows|
  {
    if rows == [] then 0
    else
      var last := rows[|rows| - 1];
      WalletSum(rows[..|rows| - 1], since, qualified)
      + if InWalletStage(last) && Qualifies(last, since) == qualified then last.amounts.allocation else 0
  }

  function DeferredWalletSum(rows: seq<Row>): int
    decreases |rows|
  {
    if rows == [] then 0
    else
      var last := rows[|rows| - 1];
      DeferredWalletSum(rows[..|rows| - 1])
      + if IsWallet(last) && last.stage == Some(DEFERRED) then last.amounts.allocation else 0
  }

  // So the initial stage holds the allocations of the wallets that qualify, and the deferred
  // wallets hold the rest.
  lemma {:induction false} InitialIsQualified(rows: seq<Row>, since: int)
    requires AllFit(rows, since)
    ensures StageSum(rows, INITIAL) == WalletSum(rows, since, true)
    ensures DeferredWalletSum(rows) == WalletSum(rows, since, false)
    decreases |rows|
  {
    if rows != [] {
      InitialIsQualified(rows[..|rows| - 1], since);
      InitialExactly(rows, since, |rows| - 1);
    }
  }
}
