/** Wrapped-token events: what one log does to the balance deltas and the event counters. */
module TokenEvents {
  import opened Base
  import opened Binary
  import opened Totals

  type Address = nat

  const ZERO_ADDRESS: Address := 0
  const DEPOSIT_TOPIC: nat := 0xe1fffcc4923d04b559f4d29a8bfc6cda04eb5b0d3c460751c2402c5c5cc9109c
  const WITHDRAW_TOPIC: nat := 0x7fcf532c15f0a6db0bd6d0e038bea71d30d808c7d98cb3bf7268a95bf5081b65
  const TRANSFER_TOPIC: nat := 0xddf252ad1be2c89b69c2b068fc378daa952ba7f163c4a11628f55a4df523b3ef

  // A hexadecimal field: unreadable, or a byte length and a big-endian value.
  datatype Hex = Malformed | Hex(length: nat, number: nat)

  datatype Log = Log(removed: bool, address: Address, block: Option<nat>, topics: seq<Hex>, data: Hex)

  datatype LogError = RemovedLog | UnexpectedAddress | InvalidBlock | NoTopics | InvalidAmount
                    | WrongTopicCount | InvalidAddress | UnexpectedSignature

  datatype Counts = Counts(deposits: nat, withdrawals: nat, transfers: nat)

  // What a worker accumulates for a range and what the aggregator merges.
  datatype Ledger = Ledger(deltas: map<Address, int>, counts: Counts)

  const EMPTY: Ledger := Ledger(map[], Counts(0, 0, 0))

  function TopicAddress(topic: Hex): Option<Address> {
    if topic.Malformed? || topic.length != 32 then None
    else if topic.number >= 0x1_0000000000_0000000000_0000000000_0000000000 then None
    else Some(topic.number)
  }

  function LogAmount(data: Hex): Option<nat> {
    if data.Malformed? || data.length != 32 then None else Some(data.number)
  }

  function AddDelta(deltas: map<Address, int>, address: Address, amount: int): map<Address, int> {
    if address == ZERO_ADDRESS || amount == 0 then deltas
    else deltas[address := Get(deltas, address) + amount]
  }

  // What an accepted log says.
  datatype Event = Deposit(account: Address, amount: nat)
                 | Withdrawal(account: Address, amount: nat)
                 | Transfer(source: Address, destination: Address, amount: nat)

  function ReadLog(log: Log, contract: Address): Result<Event, LogError> {
    if log.removed then Err(RemovedLog)
    else if log.address != contract then Err(UnexpectedAddress)
    else if log.block.None? || log.block.value >= U64 then Err(InvalidBlock)
    else if log.topics == [] then Err(NoTopics)
    else
      match LogAmount(log.data)
      case None => Err(InvalidAmount)
      case Some(amount) =>
        var signature := log.topics[0];
        if signature == Hex(32, DEPOSIT_TOPIC) || signature == Hex(32, WITHDRAW_TOPIC) then
          if |log.topics| != 2 then Err(WrongTopicCount)
          else
            match TopicAddress(log.topics[1])
            case None => Err(InvalidAddress)
            case Some(account) =>
              if signature.number == DEPOSIT_TOPIC then Ok(Deposit(account, amount))
              else Ok(Withdrawal(account, amount))
        else if signature == Hex(32, TRANSFER_TOPIC) then
          if |log.topics| != 3 then Err(WrongTopicCount)
          else if TopicAddress(log.topics[1]).None? || TopicAddress(log.topics[2]).None? then Err(InvalidAddress)
          else Ok(Transfer(TopicAddress(log.topics[1]).value, TopicAddress(log.topics[2]).value, amount))
        else Err(UnexpectedSignature)
  }

  // How an event is written into a log: its signature and its accounts as topics, its amount as data.
  function Word(number: nat): Hex {
    Hex(32, number)
  }

  function TopicsOf(event: Event): seq<Hex> {
    match event
    case Deposit(account, _) => [Word(DEPOSIT_TOPIC), Word(account)]
    case Withdrawal(account, _) => [Word(WITHDRAW_TOPIC), Word(account)]
    case Transfer(source, destination, _) => [Word(TRANSFER_TOPIC), Word(source), Word(destination)]
  }

  function Accounts(event: Event): set<Address> {
    match event
    case Deposit(account, _) => {account}
    case Withdrawal(account, _) => {account}
    case Transfer(source, destination, _) => {source, destination}
  }

  predicate Writes(log: Log, contract: Address, event: Event) {
    !log.removed && log.address == contract && log.block.Some? && log.block.value < U64
    && log.topics == TopicsOf(event) && log.data == Word(event.amount)
    && forall account :: account in Accounts(event) ==> account < Pow2(160)
  }

  lemma AddressesFit()
    ensures Pow2(160) == 0x1_0000000000_0000000000_0000000000_0000000000
  {
    Pow2Values();
    Pow2Add(20, 20);
    Pow2Add(40, 40);
    Pow2Add(80, 80);
  }

  lemma TopicIsAddress(topic: Hex, account: Address)
    ensures TopicAddress(topic) == Some(account) <==> topic == Word(account) && account < Pow2(160)
  {
    AddressesFit();
  }

  lemma ReadAsWritten(log: Log, contract: Address)
    requires ReadLog(log, contract).Ok?
    ensures Writes(log, contract, ReadLog(log, contract).value)
  {
    var event := ReadLog(log, contract).value;
    TopicIsAddress(log.topics[1], TopicAddress(log.topics[1]).value);
    match event
    case Deposit(_, _) => assert log.topics == TopicsOf(event);
    case Withdrawal(_, _) => assert log.topics == TopicsOf(event);
    case Transfer(_, _, _) =>
      TopicIsAddress(log.topics[2], TopicAddress(log.topics[2]).value);
      assert log.topics == TopicsOf(event);
  }

  // Reading is the inverse of writing: a log is read as an event exactly when it is written that way.
  lemma ReadIsWritten(log: Log, contract: Address, event: Event)
    ensures ReadLog(log, contract) == Ok(event) <==> Writes(log, contract, event)
  {
    if ReadLog(log, contract).Ok? {
      ReadAsWritten(log, contract);
    }
    if Writes(log, contract, event) {
      forall account | account in Accounts(event) ensures TopicAddress(Word(account)) == Some(account) {
        TopicIsAddress(Word(account), account);
      }
    }
  }

  // A change of one balance.
  datatype Posting = Posting(address: Address, amount: int)

  // Wrapped tokens are minted by a deposit and burnt by a withdrawal.
  function Postings(event: Event): seq<Posting> {
    match event
    case Deposit(account, amount) => [Posting(account, amount)]
    case Withdrawal(account, amount) => [Posting(account, 0 - amount)]
    case Transfer(source, destination, amount) => [Posting(source, 0 - amount), Posting(destination, amount)]
  }

  function AddPostings(deltas: map<Address, int>, postings: seq<Posting>): map<Address, int>
    decreases |postings|
  {
    if postings == [] then deltas
    else AddPostings(AddDelta(deltas, postings[0].address, postings[0].amount), postings[1..])
  }

  lemma AddOne(deltas: map<Address, int>, p: Posting)
    ensures AddPostings(deltas, [p]) == AddDelta(deltas, p.address, p.amount)
  {
    assert [p][1..] == [];
  }

  lemma AddTwo(deltas: map<Address, int>, p: Posting, q: Posting)
    ensures AddPostings(deltas, [p, q]) == AddDelta(AddDelta(deltas, p.address, p.amount), q.address, q.amount)
  {
    assert [p, q][1..] == [q];
    AddOne(AddDelta(deltas, p.address, p.amount), q);
  }

  // What a log does, in terms of its topics and data. The zero address has no balance.
  lemma DeltaFrom(deltas: map<Address, int>, address: Address, amount: int, account: Address)
    ensures Get(AddDelta(deltas, address, amount), account)
         == Get(deltas, account) + if address == account && account != 0 then amount else 0
  {
  }

  predicate Plain(log: Log, contract: Address) {
    !log.removed && log.address == contract && log.block.Some? && log.block.value < U64
  }

  lemma DepositPays(log: Log, contract: Address, ledger: Ledger, a: Address, amount: nat, account: Address)
    requires Plain(log, contract) && log.topics == [Word(DEPOSIT_TOPIC), Word(a)] && log.data == Word(amount)
    requires a < Pow2(160)
    ensures var after := ApplyLog(log, contract, ledger);
            after.Ok? && after.value.counts == ledger.counts.(deposits := ledger.counts.deposits + 1)
            && Get(after.value.deltas, account)
            == Get(ledger.deltas, account) + if account == a && account != 0 then amount else 0
  {
    ReadIsWritten(log, contract, Deposit(a, amount));
    AddOne(ledger.deltas, Posting(a, amount));
    DeltaFrom(ledger.deltas, a, amount, account);
  }

  lemma WithdrawalTakes(log: Log, contract: Address, ledger: Ledger, a: Address, amount: nat, account: Address)
    requires Plain(log, contract) && log.topics == [Word(WITHDRAW_TOPIC), Word(a)] && log.data == Word(amount)
    requires a < Pow2(160)
    ensures var after := ApplyLog(log, contract, ledger);
            after.Ok? && after.value.counts == ledger.counts.(withdrawals := ledger.counts.withdrawals + 1)
            && Get(after.value.deltas, account)
            == Get(ledger.deltas, account) - if account == a && account != 0 then amount else 0
  {
    ReadIsWritten(log, contract, Withdrawal(a, amount));
    AddOne(ledger.deltas, Posting(a, 0 - amount));
    DeltaFrom(ledger.deltas, a, 0 - amount, account);
  }

  lemma TransferMoves(log: Log, contract: Address, ledger: Ledger, a: Address, b: Address, amount: nat,
                      account: Address)
    requires Plain(log, contract) && log.topics == [Word(TRANSFER_TOPIC), Word(a), Word(b)]
    requires log.data == Word(amount) && a < Pow2(160) && b < Pow2(160)
    ensures var after := ApplyLog(log, contract, ledger);
            after.Ok? && after.value.counts == ledger.counts.(transfers := ledger.counts.transfers + 1)
            && Get(after.value.deltas, account)
            == Get(ledger.deltas, account) - (if account == a && account != 0 then amount else 0)
               + (if account == b && account != 0 then amount else 0)
  {
    ReadIsWritten(log, contract, Transfer(a, b, amount));
    AddTwo(ledger.deltas, Posting(a, 0 - amount), Posting(b, amount));
    DeltaFrom(ledger.deltas, a, 0 - amount, account);
    DeltaFrom(AddDelta(ledger.deltas, a, 0 - amount), b, amount, account);
  }

  function EventCounts(event: Event, counts: Counts): Counts {
    match event
    case Deposit(_, _) => counts.(deposits := counts.deposits + 1)
    case Withdrawal(_, _) => counts.(withdrawals := counts.withdrawals + 1)
    case Transfer(_, _, _) => counts.(transfers := counts.transfers + 1)
  }

  function ApplyEvent(event: Event, ledger: Ledger): Ledger {
    Ledger(AddPostings(ledger.deltas, Postings(event)), EventCounts(event, ledger.counts))
  }

  function ApplyLog(log: Log, contract: Address, ledger: Ledger): Result<Ledger, LogError> {
    match ReadLog(log, contract)
    case Err(e) => Err(e)
    case Ok(event) => Ok(ApplyEvent(event, ledger))
  }

  // The sequential replay of a list of logs; the first rejected log ends it.
  function ApplyLogs(logs: seq<Log>, contract: Address, ledger: Ledger): Result<Ledger, LogError> {
    if logs == [] then Ok(ledger)
    else
      match ApplyLog(logs[0], contract, ledger)
      case Err(e) => Err(e)
      case Ok(next) => ApplyLogs(logs[1..], contract, next)
  }

  function Replay(logs: seq<Log>, contract: Address): Result<Ledger, LogError> {
    ApplyLogs(logs, contract, EMPTY)
  }

  // ---- merging ---------------------------------------------------------

  function AddCounts(a: Counts, b: Counts): Counts {
    Counts(a.deposits + b.deposits, a.withdrawals + b.withdrawals, a.transfers + b.transfers)
  }

  function Merge(a: Ledger, b: Ledger): Ledger {
    Ledger(PlusMaps(a.deltas, b.deltas), AddCounts(a.counts, b.counts))
  }

  lemma MergeEmpty(a: Ledger)
    ensures Merge(a, EMPTY) == a && Merge(EMPTY, a) == a
  {
    assert PlusMaps(a.deltas, map[]) == a.deltas;
    assert PlusMaps(map[], a.deltas) == a.deltas;
  }

  lemma MergeCommutes(a: Ledger, b: Ledger)
    ensures Merge(a, b) == Merge(b, a)
  {
    assert PlusMaps(a.deltas, b.deltas) == PlusMaps(b.deltas, a.deltas);
  }

  lemma MergeAssociates(a: Ledger, b: Ledger, c: Ledger)
    ensures Merge(Merge(a, b), c) == Merge(a, Merge(b, c))
  {
    assert PlusMaps(PlusMaps(a.deltas, b.deltas), c.deltas) == PlusMaps(a.deltas, PlusMaps(b.deltas, c.deltas));
  }

  lemma MergeSwaps(a: Ledger, b: Ledger, c: Ledger)
    ensures Merge(a, Merge(b, c)) == Merge(b, Merge(a, c))
  {
    MergeAssociates(a, b, c);
    MergeCommutes(a, b);
    MergeAssociates(b, a, c);
  }

  lemma AddDeltaMerges(a: map<Address, int>, b: map<Address, int>, address: Address, amount: int)
    ensures AddDelta(PlusMaps(a, b), address, amount) == PlusMaps(a, AddDelta(b, address, amount))
  {
  }

  lemma {:induction false} AddPostingsMerges(a: map<Address, int>, b: map<Address, int>, postings: seq<Posting>)
    ensures AddPostings(PlusMaps(a, b), postings) == PlusMaps(a, AddPostings(b, postings))
    decreases |postings|
  {
    if postings != [] {
      AddDeltaMerges(a, b, postings[0].address, postings[0].amount);
      AddPostingsMerges(a, AddDelta(b, postings[0].address, postings[0].amount), postings[1..]);
    }
  }

  // An event does the same to a merged ledger as to the part it is applied to.
  lemma ApplyEventMerges(event: Event, a: Ledger, b: Ledger)
    ensures ApplyEvent(event, Merge(a, b)) == Merge(a, ApplyEvent(event, b))
  {
    AddPostingsMerges(a.deltas, b.deltas, Postings(event));
  }

  lemma {:induction false} ApplyLogsMerges(logs: seq<Log>, contract: Address, a: Ledger, b: Ledger)
    ensures ApplyLogs(logs, contract, b).Ok? <==> ApplyLogs(logs, contract, Merge(a, b)).Ok?
    ensures ApplyLogs(logs, contract, b).Ok? ==>
              ApplyLogs(logs, contract, Merge(a, b)).value == Merge(a, ApplyLogs(logs, contract, b).value)
    decreases |logs|
  {
    if logs != [] {
      if ReadLog(logs[0], contract).Ok? {
        ApplyEventMerges(ReadLog(logs[0], contract).value, a, b);
      }
      if ApplyLog(logs[0], contract, b).Ok? {
        ApplyLogsMerges(logs[1..], contract, a, ApplyLog(logs[0], contract, b).value);
      }
    }
  }

  lemma {:induction false} ApplyLogsAppend(u: seq<Log>, v: seq<Log>, contract: Address, ledger: Ledger)
    ensures ApplyLogs(u + v, contract, ledger) ==
            match ApplyLogs(u, contract, ledger) { case Err(e) => Err(e) case Ok(next) => ApplyLogs(v, contract, next) }
    decreases |u|
  {
    if u == [] {
      assert u + v == v;
    } else {
      assert (u + v)[1..] == u[1..] + v;
      if ApplyLog(u[0], contract, ledger).Ok? {
        ApplyLogsAppend(u[1..], v, contract, ApplyLog(u[0], contract, ledger).value);
      }
    }
  }

  // Replaying two lists apart and merging is replaying them one after the other.
  lemma ReplayAppend(u: seq<Log>, v: seq<Log>, contract: Address)
    ensures Replay(u + v, contract).Ok? <==> Replay(u, contract).Ok? && Replay(v, contract).Ok?
    ensures Replay(u + v, contract).Ok? ==>
              Replay(u + v, contract).value == Merge(Replay(u, contract).value, Replay(v, contract).value)
  {
    ApplyLogsAppend(u, v, contract, EMPTY);
    if Replay(u, contract).Ok? {
      var before := Replay(u, contract).value;
      MergeEmpty(before);
      ApplyLogsMerges(v, contract, before, EMPTY);
    }
  }

  // ---- the in-place form -----------------------------------------------

  class RangeLedger {
    var deltas: map<Address, int>
    var counts: Counts

    constructor ()
      ensures deltas == EMPTY.deltas && counts == EMPTY.counts
    {
      deltas := map[];
      counts := Counts(0, 0, 0);
    }

    method Add(address: Address, amount: int)
      modifies this`deltas
      ensures deltas == AddDelta(old(deltas), address, amount)
    {
      if address == ZERO_ADDRESS || amount == 0 {
        return;
      }
      if address !in deltas {
        deltas := deltas[address := 0];
      }
      deltas := deltas[address := deltas[address] + amount];
    }

    method Record(event: Event)
      modifies this
      ensures Ledger(deltas, counts) == ApplyEvent(event, Ledger(old(deltas), old(counts)))
    {
      match event
      case Deposit(account, amount) =>
        AddOne(deltas, Posting(account, amount));
        Add(account, amount);
        counts := counts.(deposits := counts.deposits + 1);
      case Withdrawal(account, amount) =>
        AddOne(deltas, Posting(account, 0 - amount));
        Add(account, 0 - amount);
        counts := counts.(withdrawals := counts.withdrawals + 1);
      case Transfer(source, destination, amount) =>
        AddTwo(deltas, Posting(source, 0 - amount), Posting(destination, amount));
        Add(source, 0 - amount);
        Add(destination, amount);
        counts := counts.(transfers := counts.transfers + 1);
    }

    // On an error nothing has been changed.
    method Apply(log: Log, contract: Address) returns (error: Option<LogError>)
      modifies this
      ensures match ApplyLog(log, contract, Ledger(old(deltas), old(counts)))
              case Ok(next) => error == None && Ledger(deltas, counts) == next
              case Err(e) => error == Some(e) && deltas == old(deltas) && counts == old(counts)
    {
      if log.removed { return Some(RemovedLog); }
      if log.address != contract { return Some(UnexpectedAddress); }
      if log.block.None? || log.block.value >= U64 { return Some(InvalidBlock); }
      if log.topics == [] { return Some(NoTopics); }
      var amount := LogAmount(log.data);
      if amount.None? { return Some(InvalidAmount); }
      var signature := log.topics[0];
      if signature == Hex(32, DEPOSIT_TOPIC) || signature == Hex(32, WITHDRAW_TOPIC) {
        if |log.topics| != 2 { return Some(WrongTopicCount); }
        var account := TopicAddress(log.topics[1]);
        if account.None? { return Some(InvalidAddress); }
        if signature == Hex(32, DEPOSIT_TOPIC) {
          Record(Deposit(account.value, amount.value));
        } else {
          Record(Withdrawal(account.value, amount.value));
        }
      } else if signature == Hex(32, TRANSFER_TOPIC) {
        if |log.topics| != 3 { return Some(WrongTopicCount); }
        var source := TopicAddress(log.topics[1]);
        if source.None? { return Some(InvalidAddress); }
        var destination := TopicAddress(log.topics[2]);
        if destination.None? { return Some(InvalidAddress); }
        Record(Transfer(source.value, destination.value, amount.value));
      } else {
        return Some(UnexpectedSignature);
      }
      error := None;
    }

    // The worker's loop over the logs of one range.
    method ApplyAll(logs: seq<Log>, contract: Address) returns (error: Option<LogError>)
      modifies this
      ensures match ApplyLogs(logs, contract, Ledger(old(deltas), old(counts)))
              case Ok(next) => error == None && Ledger(deltas, counts) == next
              case Err(e) => error == Some(e)
    {
      for i := 0 to |logs|
        invariant ApplyLogs(logs[i..], contract, Ledger(deltas, counts))
               == ApplyLogs(logs, contract, Ledger(old(deltas), old(counts)))
      {
        assert logs[i..][1..] == logs[i + 1..];
        error := Apply(logs[i], contract);
        if error.Some? {
          return;
        }
      }
      error := None;
    }
  }
}
