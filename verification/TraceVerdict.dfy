/** Verdicts about receipts: from a replayed trace, from a direct transaction, from evidence. */
module TraceVerdict {
  import opened Base
  import opened PrecompileInput
  import opened Trace

  // The replay classifications; a direct transaction is not traced.
  datatype Replay = RollbackLeak | ValidSourceDebit | ReplayIncompatible | ReceiptInconsistent | ReplayUnclassified
                  | NotTraced

  // Whether the replay agrees with the stored status is reported beside the classification.
  datatype Classified = Classified(replay: Replay, compatible: bool)

  function ClassifyReplay(status: int, root: Node, inspection: Inspection): Classified {
    if status != 1 then Classified(ReceiptInconsistent, false)
    else if root.failed then Classified(ReplayIncompatible, false)
    else if inspection.completed != 1 then Classified(ReplayUnclassified, true)
    else if inspection.completedMatches != 1 then Classified(ReplayUnclassified, true)
    else if inspection.failedMatching == 1 then Classified(RollbackLeak, true)
    else Classified(ValidSourceDebit, true)
  }

  function Classify(status: int, root: Node, identity: Identity): Replay {
    ClassifyReplay(status, root, Inspect(root, identity)).replay
  }

  // The transaction left exactly one receipt, and it is the audited one: of its sender, with its
  // amount, receiver and shard.
  ghost predicate OnlyReceipt(root: Node, identity: Identity) {
    Receipts(root, root.source)
    == [Transfer(identity.sender, Some(Payload(identity.amount, identity.receiver, identity.shard)))]
  }

  lemma MatchesExactly(t: Transfer, identity: Identity)
    ensures Matches(t, identity)
       <==> t == Transfer(identity.sender, Some(Payload(identity.amount, identity.receiver, identity.shard)))
  {
  }

  lemma RootCounters(root: Node, identity: Identity)
    requires !root.failed
    ensures var v, r, d := Inspect(root, identity), Receipts(root, root.source), Debits(root, root.source);
            v.completed == |r| && v.completedMatches == CountMatching(r, identity)
            && v.failedMatching == CountMatching(r, identity) - CountMatching(d, identity)
  {
    CountersOfReceipts(root, identity, false, root.source);
    assert Inspect(root, identity) == Visited(root, identity, false, root.source, false);
  }

  lemma CountOne(ts: seq<Transfer>, identity: Identity)
    requires |ts| == 1
    ensures ts == [ts[0]] && CountMatching(ts, identity) == Bit(Matches(ts[0], identity))
  {
    assert ts[1..] == [];
  }

  lemma OnlyReceiptCounted(root: Node, identity: Identity)
    requires !root.failed
    ensures OnlyReceipt(root, identity) <==>
            Inspect(root, identity).completed == 1 && Inspect(root, identity).completedMatches == 1
  {
    RootCounters(root, identity);
    var r := Receipts(root, root.source);
    if |r| == 1 {
      CountOne(r, identity);
      MatchesExactly(r[0], identity);
    }
  }

  // A single receipt's debit either persists as it is or has been undone.
  lemma OneDebit(root: Node, identity: Identity)
    requires !root.failed && OnlyReceipt(root, identity)
    ensures var r, d := Receipts(root, root.source), Debits(root, root.source);
            (d == [] && Inspect(root, identity).failedMatching == 1)
            || (d == r && Inspect(root, identity).failedMatching == 0)
  {
    var r, d := Receipts(root, root.source), Debits(root, root.source);
    RootCounters(root, identity);
    DebitsHaveReceipts(root, root.source);
    CountOne(r, identity);
    MatchesExactly(r[0], identity);
    if d != [] {
      assert d[0] in r;
      assert d == r;
    }
  }

  // "rollback_leak" means: one receipt, the audited one, and nothing debited in the end.
  lemma LeakVerdict(status: int, root: Node, identity: Identity)
    ensures Classify(status, root, identity) == RollbackLeak <==>
            status == 1 && !root.failed && OnlyReceipt(root, identity) && Debits(root, root.source) == []
  {
    if !root.failed {
      OnlyReceiptCounted(root, identity);
      if OnlyReceipt(root, identity) {
        OneDebit(root, identity);
      }
    }
  }

  // "valid_source_debit" means: one receipt, the audited one, and its debit persists.
  lemma ValidVerdict(status: int, root: Node, identity: Identity)
    ensures Classify(status, root, identity) == ValidSourceDebit <==>
            status == 1 && !root.failed && OnlyReceipt(root, identity)
            && Debits(root, root.source) == Receipts(root, root.source)
  {
    if !root.failed {
      OnlyReceiptCounted(root, identity);
      if OnlyReceipt(root, identity) {
        OneDebit(root, identity);
      }
    }
  }

  // What some transfers take from an account.
  function Taken(ts: seq<Transfer>, account: Address): nat
    decreases |ts|
  {
    if ts == [] then 0
    else
      (if ts[0].sender == account && ts[0].payload.Some? then ts[0].payload.value.amount else 0)
      + Taken(ts[1..], account)
  }

  // The two verdicts in terms of the sender's balance: the receipt carries the amount in both,
  // but only under the second has the sender paid it.
  lemma VerdictBalances(status: int, root: Node, identity: Identity)
    requires Classify(status, root, identity) == RollbackLeak || Classify(status, root, identity) == ValidSourceDebit
    ensures Taken(Receipts(root, root.source), identity.sender) == identity.amount
    ensures Taken(Debits(root, root.source), identity.sender)
         == if Classify(status, root, identity) == RollbackLeak then 0 else identity.amount
  {
    LeakVerdict(status, root, identity);
    ValidVerdict(status, root, identity);
    assert Receipts(root, root.source)[1..] == [];
  }

  predicate Proves(replay: Replay) {
    replay == RollbackLeak || replay == ValidSourceDebit
  }

  // A trace authenticates one identity only.
  lemma OneIdentity(root: Node, status: int, other: int, i: Identity, j: Identity)
    requires Proves(Classify(status, root, i)) && Proves(Classify(other, root, j))
    ensures i == j && Classify(status, root, i) == Classify(other, root, j)
  {
    LeakVerdict(status, root, i);
    ValidVerdict(status, root, i);
    LeakVerdict(other, root, j);
    ValidVerdict(other, root, j);
  }

  // The other classifications, and when the replay agrees with the stored status.
  lemma OtherVerdicts(status: int, root: Node, identity: Identity)
    ensures Classify(status, root, identity) == ReceiptInconsistent <==> status != 1
    ensures Classify(status, root, identity) == ReplayIncompatible <==> status == 1 && root.failed
    ensures Classify(status, root, identity) == ReplayUnclassified
       <==> status == 1 && !root.failed && !OnlyReceipt(root, identity)
    ensures ClassifyReplay(status, root, Inspect(root, identity)).compatible <==> status == 1 && !root.failed
  {
    if !root.failed {
      OnlyReceiptCounted(root, identity);
    }
  }

  // ---- with evidence ---------------------------------------------------

  datatype Class = Leak | Absent | Valid | Unclassified

  datatype Status = DebitAbsent | DebitPersisted

  datatype Source = DirectAndEvidence | ReplayAndEvidence | Evidence | Direct | CompatibleReplay | Unresolved

  datatype Resolved = Resolved(verdict: Class, source: Source, evidence: Option<Class>)

  function EvidenceClass(status: Status): Class {
    match status
    case DebitAbsent => Absent
    case DebitPersisted => Valid
  }

  // The direct classification goes before that of the replay; disagreeing evidence is an error.
  function Resolve(direct: bool, replay: Replay, evidence: Option<Status>): Option<Resolved> {
    var final := if direct then ValidSourceDebit else replay;
    match evidence
    case Some(status) =>
      if (final == ValidSourceDebit && status == DebitAbsent)
      || (final == RollbackLeak && status == DebitPersisted) then None
      else if final == RollbackLeak || final == ValidSourceDebit then
        Some(Resolved(if final == RollbackLeak then Leak else Valid,
                      if direct then DirectAndEvidence else ReplayAndEvidence, Some(EvidenceClass(status))))
      else Some(Resolved(EvidenceClass(status), Evidence, Some(EvidenceClass(status))))
    case None =>
      if final == RollbackLeak || final == ValidSourceDebit then
        Some(Resolved(if final == RollbackLeak then Leak else Valid, if direct then Direct else CompatibleReplay, None))
      else Some(Resolved(Unclassified, Unresolved, None))
  }

  // What the transaction and the evidence together say about the debit.
  predicate SaysPersisted(direct: bool, replay: Replay, evidence: Option<Status>) {
    direct || replay == ValidSourceDebit || evidence == Some(DebitPersisted)
  }

  predicate SaysAbsent(direct: bool, replay: Replay, evidence: Option<Status>) {
    (!direct && replay == RollbackLeak) || evidence == Some(DebitAbsent)
  }

  // The final class is what is said, an error when both are said, "unclassified" when neither is.
  // Evidence alone never makes a leak.
  lemma ResolvedAgrees(direct: bool, replay: Replay, evidence: Option<Status>)
    requires direct ==> replay == NotTraced
    ensures var r := Resolve(direct, replay, evidence);
            var persisted, absent := SaysPersisted(direct, replay, evidence), SaysAbsent(direct, replay, evidence);
            (r.None? <==> persisted && absent)
            && (r.Some? ==> (r.value.verdict == Valid <==> persisted)
                            && (r.value.verdict == Leak || r.value.verdict == Absent <==> absent)
                            && (r.value.verdict == Unclassified <==> !persisted && !absent)
                            && (r.value.verdict == Leak <==> !direct && replay == RollbackLeak))
  {
  }

  // Where a resolved class comes from: the published source names whatever has said something.
  lemma ResolvedSource(direct: bool, replay: Replay, evidence: Option<Status>)
    requires (direct ==> replay == NotTraced) && Resolve(direct, replay, evidence).Some?
    ensures var r := Resolve(direct, replay, evidence).value;
            (r.source == Direct || r.source == DirectAndEvidence <==> direct)
            && (r.source == CompatibleReplay || r.source == ReplayAndEvidence <==> Proves(replay))
            && (r.source == DirectAndEvidence || r.source == ReplayAndEvidence || r.source == Evidence
                <==> evidence.Some?)
            && (evidence == Some(DebitAbsent) <==> r.evidence == Some(Absent))
            && (evidence == Some(DebitPersisted) <==> r.evidence == Some(Valid))
            && (evidence.None? <==> r.evidence.None?)
  {
  }
}
