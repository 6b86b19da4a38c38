/** The published holder list: its checks, its rows, and why its total is the net issue of the
    replayed events. */
module Holders {
  import opened Base
  import opened TokenEvents
  import LogFetch
  import ScanOutcome
  import ScanSystem
  import opened Totals

  datatype HolderError = NegativeBalance | TotalDiffers

  datatype Holder = Holder(address: Address, balance: nat)

  function HolderKeys(holders: seq<Holder>): seq<nat> {
    seq(|holders|, i requires 0 <= i < |holders| => holders[i].address)
  }

  ghost predicate NoDebt(balances: map<Address, int>) {
    forall a :: a in balances ==> balances[a] >= 0
  }

  // The rows are the positive balances in address order.
  ghost predicate Rows(balances: map<Address, int>, holders: seq<Holder>) {
    Increasing(HolderKeys(holders))
    && (forall i :: 0 <= i < |holders| ==>
          holders[i].balance > 0 && Get(balances, holders[i].address) == holders[i].balance)
    && (forall a :: a in balances && balances[a] > 0 ==> a in HolderKeys(holders))
  }

  // What the loop over the balances has found among those it has seen: which are positive, and
  // what all of them add up to.
  ghost predicate Seen(balances: map<Address, int>, rest: set<Address>, seen: map<Address, int>,
                       addresses: set<Address>, total: int) {
    (forall a :: a in balances <==> a in rest || a in seen) && (forall a :: a in seen ==> a !in rest)
    && (forall a :: a in seen ==> seen[a] == balances[a] >= 0)
    && (forall a :: a in addresses <==> a in seen && seen[a] > 0)
    && total == SumMap(seen)
  }

  lemma SeenNext(balances: map<Address, int>, rest: set<Address>, seen: map<Address, int>, addresses: set<Address>,
                 total: int, a: Address)
    requires Seen(balances, rest, seen, addresses, total) && a in rest && balances[a] >= 0
    ensures Seen(balances, rest - {a}, seen[a := balances[a]],
                 if balances[a] != 0 then addresses + {a} else addresses, total + balances[a])
  {
    SumMapPut(seen, a, balances[a]);
  }

  lemma SeenAll(balances: map<Address, int>, seen: map<Address, int>, addresses: set<Address>, total: int)
    requires Seen(balances, {}, seen, addresses, total)
    ensures NoDebt(balances) && total == SumMap(balances)
    ensures forall a :: a in addresses <==> a in balances && balances[a] > 0
  {
    assert seen == balances;
  }

  // The checks and rows of `writeCSV`; the addresses are visited in any order.
  method ListHolders(balances: map<Address, int>, expected: int) returns (r: Result<seq<Holder>, HolderError>)
    ensures r == Err(NegativeBalance) <==> !NoDebt(balances)
    ensures r.Ok? <==> NoDebt(balances) && SumMap(balances) == expected
    ensures r.Ok? ==> Rows(balances, r.value)
  {
    var addresses: set<Address>, total := {}, 0;
    var rest := balances.Keys;
    ghost var seen: map<Address, int> := map[];
    while rest != {}
      invariant Seen(balances, rest, seen, addresses, total)
      decreases |rest|
    {
      var address :| address in rest;
      if balances[address] < 0 {
        return Err(NegativeBalance);
      }
      SeenNext(balances, rest, seen, addresses, total, address);
      seen := seen[address := balances[address]];
      rest := rest - {address};
      if balances[address] != 0 {
        addresses := addresses + {address};
        total := total + balances[address];
      }
    }
    SeenAll(balances, seen, addresses, total);
    if total != expected {
      return Err(TotalDiffers);
    }
    var keys := Sort(addresses);
    var holders := RowsOf(balances, keys);
    return Ok(holders);
  }

  method RowsOf(balances: map<Address, int>, keys: seq<Address>) returns (holders: seq<Holder>)
    requires Increasing(keys) && forall a :: a in keys <==> a in balances && balances[a] > 0
    ensures Rows(balances, holders)
  {
    holders := [];
    for i := 0 to |keys|
      invariant |holders| == i
      invariant forall j :: 0 <= j < i ==> holders[j] == Holder(keys[j], balances[keys[j]])
    {
      holders := holders + [Holder(keys[i], balances[keys[i]])];
    }
    assert HolderKeys(holders) == keys;
  }

  // ---- net issue -------------------------------------------------------

  // What the postings add to accounts other than the zero address.
  function Net(postings: seq<Posting>): int
    decreases |postings|
  {
    if postings == [] then 0
    else (if postings[0].address == ZERO_ADDRESS then 0 else postings[0].amount) + Net(postings[1..])
  }

  // Deposits and tokens coming from the zero address, less withdrawals and tokens sent to it.
  function Issued(event: Event): int {
    match event
    case Deposit(account, amount) => if account == ZERO_ADDRESS then 0 else amount
    case Withdrawal(account, amount) => if account == ZERO_ADDRESS then 0 else 0 - amount
    case Transfer(source, destination, amount) =>
      if source == ZERO_ADDRESS && destination != ZERO_ADDRESS then amount
      else if source != ZERO_ADDRESS && destination == ZERO_ADDRESS then 0 - amount
      else 0
  }

  function IssuedBy(logs: seq<Log>, contract: Address): int
    decreases |logs|
  {
    if logs == [] then 0
    else
      (if ReadLog(logs[0], contract).Ok? then Issued(ReadLog(logs[0], contract).value) else 0)
      + IssuedBy(logs[1..], contract)
  }

  lemma {:induction false} PostingsSum(deltas: map<Address, int>, postings: seq<Posting>)
    ensures SumMap(AddPostings(deltas, postings)) == SumMap(deltas) + Net(postings)
    decreases |postings|
  {
    if postings != [] {
      var p := postings[0];
      SumMapPut(deltas, p.address, Get(deltas, p.address) + p.amount);
      PostingsSum(AddDelta(deltas, p.address, p.amount), postings[1..]);
    }
  }

  lemma NetIsIssued(event: Event)
    ensures Net(Postings(event)) == Issued(event)
  {
    match event
    case Deposit(account, amount) =>
      var p := Posting(account, amount);
      assert [p][1..] == [] && Net([p]) == (if account == ZERO_ADDRESS then 0 else amount) + Net([]);
    case Withdrawal(account, amount) =>
      var p := Posting(account, 0 - amount);
      assert [p][1..] == [] && Net([p]) == (if account == ZERO_ADDRESS then 0 else 0 - amount) + Net([]);
    case Transfer(source, destination, amount) =>
      var p, q := Posting(source, 0 - amount), Posting(destination, amount);
      assert [p, q][1..] == [q] && [q][1..] == [];
      assert Net([q]) == (if destination == ZERO_ADDRESS then 0 else amount) + Net([]);
      assert Net([p, q]) == (if source == ZERO_ADDRESS then 0 else 0 - amount) + Net([q]);
  }

  // Transfers move value without making any: the replayed balances add up to the net issue.
  lemma {:induction false} ReplayConserves(logs: seq<Log>, contract: Address, ledger: Ledger)
    requires ApplyLogs(logs, contract, ledger).Ok?
    ensures SumMap(ApplyLogs(logs, contract, ledger).value.deltas) == SumMap(ledger.deltas) + IssuedBy(logs, contract)
    decreases |logs|
  {
    if logs != [] {
      var event := ReadLog(logs[0], contract).value;
      PostingsSum(ledger.deltas, Postings(event));
      NetIsIssued(event);
      ReplayConserves(logs[1..], contract, ApplyEvent(event, ledger));
    }
  }

  // ---- one account -----------------------------------------------------

  // What an event pays to an account and takes from it.
  function PaidTo(event: Event, account: Address): nat {
    match event
    case Deposit(to_, amount) => if to_ == account then amount else 0
    case Withdrawal(_, _) => 0
    case Transfer(_, to_, amount) => if to_ == account then amount else 0
  }

  function TakenFrom(event: Event, account: Address): nat {
    match event
    case Deposit(_, _) => 0
    case Withdrawal(from, amount) => if from == account then amount else 0
    case Transfer(from, _, amount) => if from == account then amount else 0
  }

  function PaidBy(logs: seq<Log>, contract: Address, account: Address): int
    decreases |logs|
  {
    if logs == [] then 0
    else
      match ReadLog(logs[0], contract)
      case Err(_) => PaidBy(logs[1..], contract, account)
      case Ok(event) => PaidTo(event, account) - TakenFrom(event, account) + PaidBy(logs[1..], contract, account)
  }

  lemma DeltaAt(deltas: map<Address, int>, address: Address, amount: int, account: Address)
    requires account != ZERO_ADDRESS
    ensures Get(AddDelta(deltas, address, amount), account)
         == Get(deltas, account) + if address == account then amount else 0
  {
  }

  lemma EventAt(event: Event, ledger: Ledger, account: Address)
    requires account != ZERO_ADDRESS
    ensures Get(ApplyEvent(event, ledger).deltas, account)
         == Get(ledger.deltas, account) + PaidTo(event, account) - TakenFrom(event, account)
  {
    match event
    case Deposit(to_, amount) =>
      AddOne(ledger.deltas, Posting(to_, amount));
      DeltaAt(ledger.deltas, to_, amount, account);
    case Withdrawal(from, amount) =>
      AddOne(ledger.deltas, Posting(from, 0 - amount));
      DeltaAt(ledger.deltas, from, 0 - amount, account);
    case Transfer(from, to_, amount) =>
      AddTwo(ledger.deltas, Posting(from, 0 - amount), Posting(to_, amount));
      DeltaAt(ledger.deltas, from, 0 - amount, account);
      DeltaAt(AddDelta(ledger.deltas, from, 0 - amount), to_, amount, account);
  }

  // A replayed balance is what the logs paid to the account less what they took from it.
  lemma {:induction false} BalanceIsHistory(logs: seq<Log>, contract: Address, ledger: Ledger, account: Address)
    requires ApplyLogs(logs, contract, ledger).Ok? && account != ZERO_ADDRESS
    ensures Get(ApplyLogs(logs, contract, ledger).value.deltas, account)
         == Get(ledger.deltas, account) + PaidBy(logs, contract, account)
    decreases |logs|
  {
    if logs != [] {
      var event := ReadLog(logs[0], contract).value;
      EventAt(event, ledger, account);
      BalanceIsHistory(logs[1..], contract, ApplyEvent(event, ledger), account);
    }
  }

  // The zero address never has an entry.
  lemma {:induction false} NoZeroEntry(deltas: map<Address, int>, postings: seq<Posting>)
    requires ZERO_ADDRESS !in deltas
    ensures ZERO_ADDRESS !in AddPostings(deltas, postings)
    decreases |postings|
  {
    if postings != [] {
      NoZeroEntry(AddDelta(deltas, postings[0].address, postings[0].amount), postings[1..]);
    }
  }

  lemma {:induction false} ReplayNoZero(logs: seq<Log>, contract: Address, ledger: Ledger)
    requires ApplyLogs(logs, contract, ledger).Ok? && ZERO_ADDRESS !in ledger.deltas
    ensures ZERO_ADDRESS !in ApplyLogs(logs, contract, ledger).value.deltas
    decreases |logs|
  {
    if logs != [] {
      var event := ReadLog(logs[0], contract).value;
      NoZeroEntry(ledger.deltas, Postings(event));
      ReplayNoZero(logs[1..], contract, ApplyEvent(event, ledger));
    }
  }

  // How many logs carry a signature.
  function Signed(logs: seq<Log>, topic: nat): nat
    decreases |logs|
  {
    if logs == [] then 0
    else Bit(logs[0].topics != [] && logs[0].topics[0] == Word(topic)) + Signed(logs[1..], topic)
  }

  // The counters count every accepted log once, under its signature.
  lemma {:induction false} EveryLogCounted(logs: seq<Log>, contract: Address, ledger: Ledger)
    requires ApplyLogs(logs, contract, ledger).Ok?
    ensures var before, after := ledger.counts, ApplyLogs(logs, contract, ledger).value.counts;
            after.deposits == before.deposits + Signed(logs, DEPOSIT_TOPIC)
            && after.withdrawals == before.withdrawals + Signed(logs, WITHDRAW_TOPIC)
            && after.transfers == before.transfers + Signed(logs, TRANSFER_TOPIC)
            && after.deposits + after.withdrawals + after.transfers
            == before.deposits + before.withdrawals + before.transfers + |logs|
    decreases |logs|
  {
    if logs != [] {
      ReadIsWritten(logs[0], contract, ReadLog(logs[0], contract).value);
      EveryLogCounted(logs[1..], contract, ApplyEvent(ReadLog(logs[0], contract).value, ledger));
    }
  }

  // A supply that the holder list accepts after a successful scan, whatever its interleaving,
  // is the net issue of the contract's logs from its deployment to the cutoff.
  lemma AcceptedSupplyIsIssued(c: ScanSystem.Scan, actions: seq<ScanSystem.Action>, s: ScanSystem.State, ledger: Ledger,
                               expected: int)
    requires ScanSystem.ValidScan(c) && ScanSystem.Run(c, ScanSystem.Initial(c), actions) == Some(s)
    requires s.outcome == Some(Ok(ledger)) && SumMap(ledger.deltas) == expected
    ensures expected == IssuedBy(LogFetch.RangeLogs(c.history, c.deployment, c.cutoff), c.contract)
  {
    ScanOutcome.ScanIsReplay(c, actions, s, ledger);
    ReplayConserves(LogFetch.RangeLogs(c.history, c.deployment, c.cutoff), c.contract, EMPTY);
  }

  // And every balance in the result of such a scan is its account's history up to the cutoff.
  lemma ScannedBalance(c: ScanSystem.Scan, actions: seq<ScanSystem.Action>, s: ScanSystem.State, ledger: Ledger,
                       account: Address)
    requires ScanSystem.ValidScan(c) && ScanSystem.Run(c, ScanSystem.Initial(c), actions) == Some(s)
    requires s.outcome == Some(Ok(ledger)) && account != ZERO_ADDRESS
    ensures Get(ledger.deltas, account)
         == PaidBy(LogFetch.RangeLogs(c.history, c.deployment, c.cutoff), c.contract, account)
  {
    ScanOutcome.ScanIsReplay(c, actions, s, ledger);
    BalanceIsHistory(LogFetch.RangeLogs(c.history, c.deployment, c.cutoff), c.contract, EMPTY, account);
  }

  // The holder list of a successful scan, whatever its interleaving: a row for exactly those
  // accounts that were paid more than was taken from them, with the difference; never one for the
  // zero address.
  lemma ScannedHolders(c: ScanSystem.Scan, actions: seq<ScanSystem.Action>, s: ScanSystem.State, ledger: Ledger,
                       holders: seq<Holder>)
    requires ScanSystem.ValidScan(c) && ScanSystem.Run(c, ScanSystem.Initial(c), actions) == Some(s)
    requires s.outcome == Some(Ok(ledger)) && Rows(ledger.deltas, holders)
    ensures var logs := LogFetch.RangeLogs(c.history, c.deployment, c.cutoff);
            (forall i :: 0 <= i < |holders| ==>
               holders[i].address != ZERO_ADDRESS
               && holders[i].balance == PaidBy(logs, c.contract, holders[i].address) > 0)
            && forall account: Address :: account != ZERO_ADDRESS && PaidBy(logs, c.contract, account) > 0 ==>
                 account in HolderKeys(holders)
  {
    var logs := LogFetch.RangeLogs(c.history, c.deployment, c.cutoff);
    ScanOutcome.ScanIsReplay(c, actions, s, ledger);
    ReplayNoZero(logs, c.contract, EMPTY);
    forall i | 0 <= i < |holders|
      ensures holders[i].address != ZERO_ADDRESS
      ensures holders[i].balance == PaidBy(logs, c.contract, holders[i].address)
    {
      ScannedBalance(c, actions, s, ledger, holders[i].address);
    }
    forall account: Address | account != ZERO_ADDRESS && PaidBy(logs, c.contract, account) > 0
      ensures account in HolderKeys(holders)
    {
      ScannedBalance(c, actions, s, ledger, account);
    }
  }
}
