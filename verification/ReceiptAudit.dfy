/** The audit over all receipt rows: classifications, totals and the use of evidence. */
module ReceiptAudit {
  import opened Base
  import opened PrecompileInput
  import opened Trace
  import opened TraceVerdict

  // The canonical identity of a receipt, which evidence must repeat in full.
  datatype Key = Key(sourceShard: nat, shard: nat, block: nat, blockHash: nat, index: nat, transaction: nat,
                     sender: Address, receiver: Address, amount: nat)

  // A selected receipt with what the node says about its source transaction: whether its debit
  // is direct, its stored status and its trace.
  datatype Row = Row(key: Key, direct: bool, status: int, root: Node)

  function IdentityOf(key: Key): Identity {
    Identity(key.sender, key.receiver, key.amount, key.shard)
  }

  type EvidenceFile = map<Key, Status>

  function EvidenceFor(evidence: EvidenceFile, key: Key): Option<Status> {
    if key in evidence then Some(evidence[key]) else None
  }

  function ReplayOf(row: Row): Replay {
    if row.direct then (if row.status == 1 then NotTraced else ReceiptInconsistent)
    else Classify(row.status, row.root, IdentityOf(row.key))
  }

  function ClassOf(row: Row, evidence: EvidenceFile): Option<Class> {
    match Resolve(row.direct && row.status == 1, ReplayOf(row), EvidenceFor(evidence, row.key))
    case None => None
    case Some(resolved) => Some(resolved.verdict)
  }

  datatype AuditError = DuplicateRows | EvidenceOnFailed | EvidenceConflict | UnusedEvidence

  datatype Totals = Totals(classes: map<Class, nat>, replays: map<Replay, nat>, evidenceCount: nat, evidenceAmount: nat)

  // The amounts of the rows that satisfy a condition.
  function SumWhere(rows: seq<Row>, holds: Row -> bool): nat
    decreases |rows|
  {
    if rows == [] then 0
    else SumWhere(rows[..|rows| - 1], holds) + if holds(rows[|rows| - 1]) then rows[|rows| - 1].key.amount else 0
  }

  function InClass(class_: Class, evidence: EvidenceFile): Row -> bool {
    row => ClassOf(row, evidence) == Some(class_)
  }

  function InReplay(replay: Replay): Row -> bool {
    row => ReplayOf(row) == replay
  }

  function Everything(): Row -> bool {
    row => true
  }

  function WithEvidence(evidence: EvidenceFile): Row -> bool {
    (row: Row) => row.key in evidence
  }

  function Keys(rows: seq<Row>): set<Key>
    decreases |rows|
  {
    if rows == [] then {} else Keys(rows[..|rows| - 1]) + {rows[|rows| - 1].key}
  }

  // No row repeats the key of an earlier one.
  predicate NoDuplicates(rows: seq<Row>)
    decreases |rows|
  {
    rows == [] || (rows[|rows| - 1].key !in Keys(rows[..|rows| - 1]) && NoDuplicates(rows[..|rows| - 1]))
  }

  lemma {:induction false} PrefixNoDuplicates(rows: seq<Row>, i: nat)
    requires i <= |rows| && NoDuplicates(rows)
    ensures NoDuplicates(rows[..i])
    decreases |rows|
  {
    if i < |rows| {
      PrefixNoDuplicates(rows[..|rows| - 1], i);
      assert rows[..|rows| - 1][..i] == rows[..i];
    } else {
      assert rows[..i] == rows;
    }
  }

  // A row is accepted when no evidence contradicts its transaction.
  predicate RowAccepted(row: Row, evidence: EvidenceFile) {
    (row.key in evidence ==> row.status == 1) && ClassOf(row, evidence).Some?
  }

  predicate AllAccepted(rows: seq<Row>, evidence: EvidenceFile)
    decreases |rows|
  {
    rows == [] || (AllAccepted(rows[..|rows| - 1], evidence) && RowAccepted(rows[|rows| - 1], evidence))
  }

  lemma {:induction false} PrefixAccepted(rows: seq<Row>, i: nat, evidence: EvidenceFile)
    requires i <= |rows| && AllAccepted(rows, evidence)
    ensures AllAccepted(rows[..i], evidence)
    decreases |rows|
  {
    if i < |rows| {
      PrefixAccepted(rows[..|rows| - 1], i, evidence);
      assert rows[..|rows| - 1][..i] == rows[..i];
    } else {
      assert rows[..i] == rows;
    }
  }

  ghost predicate Accepted(rows: seq<Row>, evidence: EvidenceFile) {
    NoDuplicates(rows)
    && AllAccepted(rows, evidence)
    && (forall key :: key in evidence ==> key in Keys(rows))
  }

  function ZeroClasses(): map<Class, nat> {
    map[Leak := 0, Absent := 0, Valid := 0, Unclassified := 0]
  }

  function ZeroReplays(): map<Replay, nat> {
    map[RollbackLeak := 0, ValidSourceDebit := 0, ReplayIncompatible := 0, ReceiptInconsistent := 0,
        ReplayUnclassified := 0, NotTraced := 0]
  }

  ghost predicate TotalsOf(rows: seq<Row>, evidence: EvidenceFile, totals: Totals) {
    (forall c: Class :: c in totals.classes && totals.classes[c] == SumWhere(rows, InClass(c, evidence)))
    && (forall r: Replay :: r in totals.replays && totals.replays[r] == SumWhere(rows, InReplay(r)))
    && totals.evidenceAmount == SumWhere(rows, WithEvidence(evidence))
  }

  function AddRow(totals: Totals, class_: Class, replay: Replay, amount: nat, supported: bool): Totals
    requires class_ in totals.classes && replay in totals.replays
  {
    Totals(totals.classes[class_ := totals.classes[class_] + amount],
           totals.replays[replay := totals.replays[replay] + amount],
           totals.evidenceCount + Bit(supported), totals.evidenceAmount + if supported then amount else 0)
  }

  lemma NoRows(evidence: EvidenceFile)
    ensures TotalsOf([], evidence, Totals(ZeroClasses(), ZeroReplays(), 0, 0))
  {
    var totals := Totals(ZeroClasses(), ZeroReplays(), 0, 0);
    forall c: Class ensures c in totals.classes && totals.classes[c] == 0 {
      match c { case Leak => case Absent => case Valid => case Unclassified => }
    }
    forall r: Replay ensures r in totals.replays && totals.replays[r] == 0 {
      match r {
        case RollbackLeak => case ValidSourceDebit => case ReplayIncompatible => case ReceiptInconsistent =>
        case ReplayUnclassified => case NotTraced =>
      }
    }
  }

  lemma OneMoreRow(rows: seq<Row>, row: Row, evidence: EvidenceFile, totals: Totals)
    requires TotalsOf(rows, evidence, totals) && ClassOf(row, evidence).Some?
    ensures TotalsOf(rows + [row], evidence,
                     AddRow(totals, ClassOf(row, evidence).value, ReplayOf(row), row.key.amount, row.key in evidence))
  {
    assert (rows + [row])[..|rows|] == rows;
  }

  lemma OneMoreKey(rows: seq<Row>, i: nat)
    requires i < |rows|
    ensures Keys(rows[..i + 1]) == Keys(rows[..i]) + {rows[i].key}
    ensures NoDuplicates(rows) ==> rows[i].key !in Keys(rows[..i])
  {
    assert rows[..i + 1][..i] == rows[..i];
    if NoDuplicates(rows) {
      PrefixNoDuplicates(rows, i + 1);
    }
  }

  // The evidence that some rows have used.
  ghost predicate Used(rows: seq<Row>, evidence: EvidenceFile, used: set<Key>) {
    forall key :: key in used <==> key in evidence && key in Keys(rows)
  }

  function Mark(used: set<Key>, key: Key, evidence: EvidenceFile): set<Key> {
    if key in evidence then used + {key} else used
  }

  lemma MarkUsed(rows: seq<Row>, row: Row, evidence: EvidenceFile, used: set<Key>)
    requires Used(rows, evidence, used) && row.key !in Keys(rows)
    ensures Used(rows + [row], evidence, Mark(used, row.key, evidence))
    ensures |Mark(used, row.key, evidence)| == |used| + Bit(row.key in evidence)
  {
    assert (rows + [row])[..|rows|] == rows;
    assert row.key !in used;
  }

  lemma AllUsed(rows: seq<Row>, evidence: EvidenceFile, used: set<Key>)
    requires Used(rows, evidence, used)
    ensures used == evidence.Keys <==> forall key :: key in evidence ==> key in Keys(rows)
  {
  }

  ghost predicate Audited(rows: seq<Row>, evidence: EvidenceFile, totals: Totals, used: set<Key>) {
    AllAccepted(rows, evidence) && TotalsOf(rows, evidence, totals) && Used(rows, evidence, used)
    && totals.evidenceCount == |used|
  }

  lemma RowAudited(rows: seq<Row>, row: Row, evidence: EvidenceFile, totals: Totals, used: set<Key>)
    requires Audited(rows, evidence, totals, used) && row.key !in Keys(rows) && RowAccepted(row, evidence)
    ensures Audited(rows + [row], evidence,
                    AddRow(totals, ClassOf(row, evidence).value, ReplayOf(row), row.key.amount, row.key in evidence),
                    Mark(used, row.key, evidence))
  {
    OneMoreRow(rows, row, evidence, totals);
    MarkUsed(rows, row, evidence, used);
    assert (rows + [row])[..|rows|] == rows;
  }

  method Audit(rows: seq<Row>, evidence: EvidenceFile) returns (r: Result<Totals, AuditError>)
    ensures r.Ok? <==> Accepted(rows, evidence)
    ensures r.Ok? ==> TotalsOf(rows, evidence, r.value) && r.value.evidenceCount == |evidence|
    ensures r == Err(DuplicateRows) <==> !NoDuplicates(rows)
    ensures r == Err(UnusedEvidence)
       <==> NoDuplicates(rows) && AllAccepted(rows, evidence) && !(forall key :: key in evidence ==> key in Keys(rows))
  {
    var unique := AllDifferent(rows);
    if !unique { return Err(DuplicateRows); }
    var totals := Totals(ZeroClasses(), ZeroReplays(), 0, 0);
    var used: set<Key> := {};
    NoRows(evidence);
    for i := 0 to |rows|
      invariant Audited(rows[..i], evidence, totals, used)
    {
      var row := rows[i];
      RowsSplit(rows, i, evidence);
      if row.key in evidence && row.status != 1 { return Err(EvidenceOnFailed); }
      var class_ := ClassOf(row, evidence);
      if class_.None? { return Err(EvidenceConflict); }
      RowAudited(rows[..i], row, evidence, totals, used);
      totals := AddRow(totals, class_.value, ReplayOf(row), row.key.amount, row.key in evidence);
      used := Mark(used, row.key, evidence);
    }
    assert rows[..|rows|] == rows;
    AllUsed(rows, evidence, used);
    r := if evidence.Keys == used then Ok(totals) else Err(UnusedEvidence);
  }

  lemma RowsSplit(rows: seq<Row>, i: nat, evidence: EvidenceFile)
    requires i < |rows| && NoDuplicates(rows)
    ensures rows[..i + 1] == rows[..i] + [rows[i]] && rows[i].key !in Keys(rows[..i])
    ensures AllAccepted(rows, evidence) ==> RowAccepted(rows[i], evidence)
  {
    PrefixNoDuplicates(rows, i + 1);
    assert rows[..i + 1][..i] == rows[..i];
    if AllAccepted(rows, evidence) {
      PrefixAccepted(rows, i + 1, evidence);
    }
  }

  method AllDifferent(rows: seq<Row>) returns (unique: bool)
    ensures unique <==> NoDuplicates(rows)
  {
    var seen: set<Key> := {};
    for i := 0 to |rows|
      invariant NoDuplicates(rows[..i])
      invariant seen == Keys(rows[..i])
    {
      OneMoreKey(rows, i);
      assert rows[..i + 1][..i] == rows[..i];
      if rows[i].key in seen { return false; }
      seen := seen + {rows[i].key};
    }
    assert rows[..|rows|] == rows;
    return true;
  }

  // The two tables are two partitions of the same receipts: both add up to the receipt amounts.
  lemma {:induction false} ClassesPartition(rows: seq<Row>, evidence: EvidenceFile)
    requires AllAccepted(rows, evidence)
    ensures SumWhere(rows, InClass(Leak, evidence)) + SumWhere(rows, InClass(Absent, evidence))
            + SumWhere(rows, InClass(Valid, evidence)) + SumWhere(rows, InClass(Unclassified, evidence))
         == SumWhere(rows, Everything())
    decreases |rows|
  {
    if rows != [] {
      ClassesPartition(rows[..|rows| - 1], evidence);
    }
  }

  lemma {:induction false} ReplaysPartition(rows: seq<Row>)
    ensures SumWhere(rows, InReplay(RollbackLeak)) + SumWhere(rows, InReplay(ValidSourceDebit))
            + SumWhere(rows, InReplay(ReplayIncompatible)) + SumWhere(rows, InReplay(ReceiptInconsistent))
            + SumWhere(rows, InReplay(ReplayUnclassified)) + SumWhere(rows, InReplay(NotTraced))
         == SumWhere(rows, Everything())
    decreases |rows|
  {
    if rows != [] {
      ReplaysPartition(rows[..|rows| - 1]);
    }
  }

  // Over an accepted audit the final totals, the replay totals and the receipt amounts agree.
  lemma AuditTotalsAgree(rows: seq<Row>, evidence: EvidenceFile, totals: Totals)
    requires Accepted(rows, evidence) && TotalsOf(rows, evidence, totals)
    ensures totals.classes[Leak] + totals.classes[Absent] + totals.classes[Valid] + totals.classes[Unclassified]
         == SumWhere(rows, Everything())
    ensures totals.replays[RollbackLeak] + totals.replays[ValidSourceDebit] + totals.replays[ReplayIncompatible]
            + totals.replays[ReceiptInconsistent] + totals.replays[ReplayUnclassified] + totals.replays[NotTraced]
         == SumWhere(rows, Everything())
  {
    ClassesPartition(rows, evidence);
    ReplaysPartition(rows);
  }

  // Whatever the evidence, the leak rows are exactly the receipts whose only debit was rolled back.
  lemma LeakRowIsRollback(row: Row, evidence: EvidenceFile)
    requires RowAccepted(row, evidence)
    ensures ClassOf(row, evidence) == Some(Leak) <==>
            !row.direct && row.status == 1 && !row.root.failed && OnlyReceipt(row.root, IdentityOf(row.key))
            && Debits(row.root, row.root.source) == []
  {
    LeakVerdict(row.status, row.root, IdentityOf(row.key));
    ResolvedAgrees(row.direct && row.status == 1, ReplayOf(row), EvidenceFor(evidence, row.key));
  }

  // The receipts of transactions whose only debit was rolled back, and those whose debit persists
  // as the transaction, the evidence or the trace says.
  ghost function RolledBack(): Row -> bool {
    (row: Row) =>
      !row.direct && row.status == 1 && !row.root.failed && OnlyReceipt(row.root, IdentityOf(row.key))
      && Debits(row.root, row.root.source) == []
  }

  ghost function Persisted(evidence: EvidenceFile): Row -> bool {
    (row: Row) =>
      (row.direct && row.status == 1)
      || (row.key in evidence && evidence[row.key] == DebitPersisted)
      || (!row.direct && row.status == 1 && !row.root.failed && OnlyReceipt(row.root, IdentityOf(row.key))
          && Debits(row.root, row.root.source) == Receipts(row.root, row.root.source))
  }

  lemma ValidRowPersists(row: Row, evidence: EvidenceFile)
    requires RowAccepted(row, evidence)
    ensures ClassOf(row, evidence) == Some(Valid) <==> Persisted(evidence)(row)
  {
    ValidVerdict(row.status, row.root, IdentityOf(row.key));
    ResolvedAgrees(row.direct && row.status == 1, ReplayOf(row), EvidenceFor(evidence, row.key));
  }

  // A replay that proves something about a row has seen its receipt, in all fields.
  lemma ProvenRow(row: Row)
    ensures Proves(ReplayOf(row))
       <==> !row.direct && row.status == 1 && !row.root.failed
            && Receipts(row.root, row.root.source)
            == [Transfer(row.key.sender, Some(Payload(row.key.amount, row.key.receiver, row.key.shard)))]
  {
    OtherVerdicts(row.status, row.root, IdentityOf(row.key));
  }

  function KeyList(rows: seq<Row>): (all: seq<Key>)
    ensures |all| == |rows| && forall i :: 0 <= i < |rows| ==> all[i] == rows[i].key
  {
    seq(|rows|, i requires 0 <= i < |rows| => rows[i].key)
  }

  lemma KeyListMore(rows: seq<Row>)
    requires rows != []
    ensures KeyList(rows) == KeyList(rows[..|rows| - 1]) + [rows[|rows| - 1].key]
  {
  }

  lemma {:induction false} KeysAre(rows: seq<Row>, key: Key)
    ensures key in Keys(rows) <==> key in KeyList(rows)
    decreases |rows|
  {
    if rows != [] {
      KeysAre(rows[..|rows| - 1], key);
      KeyListMore(rows);
    }
  }

  // No two rows have the same key, and no evidence contradicts what is known of a row.
  lemma {:induction false} DifferentKeys(rows: seq<Row>)
    ensures NoDuplicates(rows) <==> Different(KeyList(rows))
    decreases |rows|
  {
    if rows != [] {
      var front, last := rows[..|rows| - 1], rows[|rows| - 1];
      DifferentKeys(front);
      KeysAre(front, last.key);
      KeyListMore(rows);
      DifferentMore(KeyList(front), last.key);
    }
  }

  lemma {:induction false} AcceptedRows(rows: seq<Row>, evidence: EvidenceFile)
    ensures AllAccepted(rows, evidence) <==> forall i :: 0 <= i < |rows| ==> RowAccepted(rows[i], evidence)
    decreases |rows|
  {
    if rows != [] {
      var front, last := rows[..|rows| - 1], rows[|rows| - 1];
      AcceptedRows(front, evidence);
      assert forall i :: 0 <= i < |front| ==> front[i] == rows[i];
    }
  }

  lemma RowContradicted(row: Row, evidence: EvidenceFile)
    ensures RowAccepted(row, evidence)
       <==> (row.key in evidence ==>
               row.status == 1
               && (evidence[row.key] == DebitPersisted ==> !RolledBack()(row))
               && (evidence[row.key] == DebitAbsent ==>
                     !row.direct && Classify(1, row.root, IdentityOf(row.key)) != ValidSourceDebit))
  {
    LeakVerdict(row.status, row.root, IdentityOf(row.key));
    ResolvedAgrees(row.direct && row.status == 1, ReplayOf(row), EvidenceFor(evidence, row.key));
  }

  // The receipts of which only the evidence says that nothing was debited, and those of which
  // nothing is known.
  ghost function OnlyEvidence(evidence: EvidenceFile): Row -> bool {
    (row: Row) =>
      row.key in evidence && evidence[row.key] == DebitAbsent
      && (row.direct || row.root.failed || !OnlyReceipt(row.root, IdentityOf(row.key))
          || Debits(row.root, row.root.source) != [])
  }

  ghost function Unknown(evidence: EvidenceFile): Row -> bool {
    (row: Row) =>
      row.key !in evidence && !(row.direct && row.status == 1)
      && (row.direct || row.status != 1 || row.root.failed || !OnlyReceipt(row.root, IdentityOf(row.key)))
  }

  lemma OtherRows(row: Row, evidence: EvidenceFile)
    requires RowAccepted(row, evidence)
    ensures ClassOf(row, evidence) == Some(Absent) <==> OnlyEvidence(evidence)(row)
    ensures ClassOf(row, evidence) == Some(Unclassified) <==> Unknown(evidence)(row)
  {
    LeakRowIsRollback(row, evidence);
    OtherVerdicts(row.status, row.root, IdentityOf(row.key));
    ResolvedAgrees(row.direct && row.status == 1, ReplayOf(row), EvidenceFor(evidence, row.key));
  }

  lemma {:induction false} ClassesOfTraces(rows: seq<Row>, evidence: EvidenceFile)
    requires AllAccepted(rows, evidence)
    ensures SumWhere(rows, InClass(Leak, evidence)) == SumWhere(rows, RolledBack())
    ensures SumWhere(rows, InClass(Valid, evidence)) == SumWhere(rows, Persisted(evidence))
    ensures SumWhere(rows, InClass(Absent, evidence)) == SumWhere(rows, OnlyEvidence(evidence))
    ensures SumWhere(rows, InClass(Unclassified, evidence)) == SumWhere(rows, Unknown(evidence))
    decreases |rows|
  {
    if rows != [] {
      OtherRows(rows[|rows| - 1], evidence);
      ClassesOfTraces(rows[..|rows| - 1], evidence);
      LeakRowIsRollback(rows[|rows| - 1], evidence);
      ValidRowPersists(rows[|rows| - 1], evidence);
    }
  }

  // What the receipts of the rolled-back transactions credit beyond what their senders paid.
  ghost function Unpaid(rows: seq<Row>): int
    decreases |rows|
  {
    if rows == [] then 0
    else
      var last := rows[|rows| - 1];
      Unpaid(rows[..|rows| - 1])
      + if !RolledBack()(last) then 0
        else
          Taken(Receipts(last.root, last.root.source), last.key.sender)
          - Taken(Debits(last.root, last.root.source), last.key.sender)
  }

  lemma {:induction false} RolledBackUnpaid(rows: seq<Row>)
    ensures Unpaid(rows) == SumWhere(rows, RolledBack())
    decreases |rows|
  {
    if rows != [] {
      var last := rows[|rows| - 1];
      RolledBackUnpaid(rows[..|rows| - 1]);
      if RolledBack()(last) {
        LeakVerdict(last.status, last.root, IdentityOf(last.key));
        VerdictBalances(last.status, last.root, IdentityOf(last.key));
      }
    }
  }

  // The published leak total is what the receipts of rolled-back transactions credit without their
  // senders having paid it; the valid total is that of the receipts whose debit persists.
  lemma PublishedTotals(rows: seq<Row>, evidence: EvidenceFile, totals: Totals)
    requires Accepted(rows, evidence) && TotalsOf(rows, evidence, totals)
    ensures totals.classes[Leak] == SumWhere(rows, RolledBack()) == Unpaid(rows)
    ensures totals.classes[Valid] == SumWhere(rows, Persisted(evidence))
    ensures totals.classes[Absent] == SumWhere(rows, OnlyEvidence(evidence))
    ensures totals.classes[Unclassified] == SumWhere(rows, Unknown(evidence))
  {
    ClassesOfTraces(rows, evidence);
    RolledBackUnpaid(rows);
  }
}
