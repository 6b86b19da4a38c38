/** The concurrent token-event scan as a step system: one producer, workers, two bounded
    channels, a one-place error slot, a cancel flag and the merging aggregator. Every
    interleaving is a sequence of actions. */
module ScanSystem {
  import opened Base
  import opened TokenEvents
  import opened LogFetch

  datatype Scan = Scan(history: History, contract: Address, deployment: Uint64, cutoff: Uint64, size: Uint64,
                       workers: nat)

  predicate ValidScan(c: Scan) {
    c.deployment <= c.cutoff && c.size > 0 && c.workers > 0
  }

  datatype ScanError = FetchFailed | BadLog(error: LogError) | Incomplete

  // A worker waits for a job, scans it, offers its result, or is on its way out: first it
  // reports its error, then it cancels the others.
  datatype Worker = Waiting | Busy(job: Job) | Sending(output: Output) | Failing(error: ScanError) | Cancelling | Exited

  // The result of a range. Which range it came from is recorded for the statements below.
  datatype Output = Output(job: Job, ledger: Ledger)

  // `next` is where the producer stands, none once it has closed `jobs`; `merged` records
  // what the aggregator has received.
  datatype State = State(next: Option<Uint64>, jobs: seq<Job>, workers: seq<Worker>, results: seq<Output>, closed: bool,
                         slot: Option<ScanError>, cancelled: bool, stats: Stats,
                         ledger: Ledger, completed: Uint64, merged: seq<Output>,
                         outcome: Option<Result<Ledger, ScanError>>)

  datatype Action = Produce | StopProducing
                  | Take(worker: nat) | Leave(worker: nat) | Fetch(worker: nat, service: Service)
                  | Report(worker: nat) | Cancel(worker: nat) | Send(worker: nat) | Drop(worker: nat)
                  | CloseResults | Receive | Finish

  function Initial(c: Scan): State {
    State(Some(c.deployment), [], seq(c.workers, _ => Waiting), [], false, None, false, Stats(0, 0), EMPTY, 0, [], None)
  }

  // What a worker does with a range: fetch, then replay.
  function ScanRange(c: Scan, job: Job, service: Service, stats: Stats): (Worker, Stats)
  {
    var fetched := LogFetch.Fetch(c.history, service, stats, job.from, job.to);
    if fetched.logs.None? then (Failing(FetchFailed), fetched.stats)
    else
      match Replay(fetched.logs.value, c.contract)
      case Err(e) => (Failing(BadLog(e)), fetched.stats)
      case Ok(ledger) => (Sending(Output(job, ledger)), fetched.stats)
  }

  function Verdict(c: Scan, s: State): Result<Ledger, ScanError>
    requires ValidScan(c)
  {
    if s.slot.Some? then Err(s.slot.value)
    else if s.completed != InitialRanges(c.deployment, c.cutoff, c.size) then Err(Incomplete)
    else Ok(s.ledger)
  }

  function Put(s: State, worker: nat, w: Worker): State
    requires worker < |s.workers|
  {
    s.(workers := s.workers[worker := w])
  }

  // One step, or none when the action is not possible in the state.
  function Step(c: Scan, s: State, action: Action): Option<State>
    requires ValidScan(c)
  {
    match action
    case Produce =>
      if s.next.None? || s.next.value > c.cutoff || |s.jobs| >= 2 * c.workers then None
      else
        RangeEndIs(s.next.value, c.cutoff, c.size);
        var to := RangeEnd(s.next.value, c.cutoff, c.size);
        Some(s.(jobs := s.jobs + [Range(s.next.value, to)], next := if to == c.cutoff then None else Some(to + 1)))
    case StopProducing =>
      if s.next.None? || !s.cancelled then None else Some(s.(next := None))
    case Take(i) =>
      if i >= |s.workers| || !s.workers[i].Waiting? || s.jobs == [] then None
      else Some(Put(s, i, Busy(s.jobs[0])).(jobs := s.jobs[1..]))
    case Leave(i) =>
      if i >= |s.workers| || !s.workers[i].Waiting? || s.jobs != [] || s.next.Some? then None
      else Some(Put(s, i, Exited))
    case Fetch(i, service) =>
      if i >= |s.workers| || !s.workers[i].Busy? then None
      else
        var (w, stats) := ScanRange(c, s.workers[i].job, service, s.stats);
        Some(Put(s, i, w).(stats := stats))
    case Report(i) =>
      if i >= |s.workers| || !s.workers[i].Failing? then None
      else Some(Put(s, i, Cancelling).(slot := if s.slot.None? then Some(s.workers[i].error) else s.slot))
    case Cancel(i) =>
      if i >= |s.workers| || !s.workers[i].Cancelling? then None
      else Some(Put(s, i, Exited).(cancelled := true))
    case Send(i) =>
      if i >= |s.workers| || !s.workers[i].Sending? || |s.results| >= 2 * c.workers then None
      else Some(Put(s, i, Waiting).(results := s.results + [s.workers[i].output]))
    case Drop(i) =>
      if i >= |s.workers| || !s.workers[i].Sending? || !s.cancelled then None
      else Some(Put(s, i, Exited))
    case CloseResults =>
      if s.closed || exists i :: 0 <= i < |s.workers| && !s.workers[i].Exited? then None
      else Some(s.(closed := true))
    case Receive =>
      if s.results == [] then None
      else Some(s.(results := s.results[1..], merged := s.merged + [s.results[0]],
                   ledger := Merge(s.ledger, s.results[0].ledger), completed := Wrap(s.completed + 1)))
    case Finish =>
      if !s.closed || s.results != [] || s.outcome.Some? then None
      else Some(s.(outcome := Some(Verdict(c, s))))
  }

  // A whole run.
  function Run(c: Scan, s: State, actions: seq<Action>): Option<State>
    requires ValidScan(c)
    decreases |actions|
  {
    if actions == [] then Some(s)
    else
      match Step(c, s, actions[0])
      case None => None
      case Some(next) => Run(c, next, actions[1..])
  }

  // ---- sums over ranges ------------------------------------------------

  predicate Replayed(c: Scan, output: Output) {
    Replay(RangeLogs(c.history, output.job.from, output.job.to), c.contract) == Ok(output.ledger)
  }

  function Sum(outputs: seq<Output>): Ledger
    decreases |outputs|
  {
    if outputs == [] then EMPTY else Merge(outputs[0].ledger, Sum(outputs[1..]))
  }

  lemma {:induction false} SumAppend(u: seq<Output>, v: seq<Output>)
    ensures Sum(u + v) == Merge(Sum(u), Sum(v))
    decreases |u|
  {
    if u == [] {
      assert u + v == v;
      MergeEmpty(Sum(v));
    } else {
      assert (u + v)[1..] == u[1..] + v;
      SumAppend(u[1..], v);
      MergeAssociates(u[0].ledger, Sum(u[1..]), Sum(v));
    }
  }

  lemma SumExtend(u: seq<Output>, output: Output)
    ensures Sum(u + [output]) == Merge(Sum(u), output.ledger)
  {
    SumAppend(u, [output]);
    assert [output][1..] == [];
    MergeEmpty(output.ledger);
  }

  function Without(u: seq<Output>, k: nat): seq<Output>
    requires k < |u|
  {
    u[..k] + u[k + 1..]
  }

  lemma SumMoves(front: seq<Output>, output: Output, back: seq<Output>)
    ensures Sum(front + ([output] + back)) == Merge(output.ledger, Sum(front + back))
  {
    SumAppend(front, [output] + back);
    SumFirst(output, back);
    SumAppend(front, back);
    MergeSwaps(Sum(front), output.ledger, Sum(back));
  }

  lemma SumTakesOut(u: seq<Output>, k: nat)
    requires k < |u|
    ensures Sum(u) == Merge(u[k].ledger, Sum(Without(u, k)))
  {
    OutputApart(u, k);
    SumMoves(u[..k], u[k], u[k + 1..]);
  }

  lemma OutputApart(u: seq<Output>, k: nat)
    requires k < |u|
    ensures u == u[..k] + ([u[k]] + u[k + 1..])
  {
  }

  lemma SumFirst(output: Output, rest: seq<Output>)
    ensures Sum([output] + rest) == Merge(output.ledger, Sum(rest))
  {
    assert ([output] + rest)[1..] == rest;
  }

  // ---- what every step keeps -------------------------------------------

  predicate Shaped(c: Scan, s: State) {
    |s.workers| == c.workers && (s.next.Some? ==> c.deployment <= s.next.value <= c.cutoff)
  }

  // Every result is the replay of its range.
  predicate Honest(c: Scan, s: State) {
    forall i :: 0 <= i < |s.workers| && s.workers[i].Sending? ==> Replayed(c, s.workers[i].output)
  }

  predicate HonestResults(c: Scan, s: State) {
    (forall i :: 0 <= i < |s.results| ==> Replayed(c, s.results[i]))
    && (forall i :: 0 <= i < |s.merged| ==> Replayed(c, s.merged[i]))
  }

  // The aggregator has the sum of what it received, and has counted it.
  ghost predicate Balanced(s: State) {
    s.ledger == Sum(s.merged) && s.completed == Wrap(|s.merged|)
  }

  // Nobody is cancelled, and nobody leaves while there is work, before an error is in the slot.
  predicate Reported(s: State) {
    s.slot.None? ==> !s.cancelled && forall i :: 0 <= i < |s.workers| ==>
      !s.workers[i].Cancelling? && (s.workers[i].Exited? ==> s.next.None? && s.jobs == [])
  }

  predicate Ended(c: Scan, s: State)
    requires ValidScan(c)
  {
    (s.closed ==> forall i :: 0 <= i < |s.workers| ==> s.workers[i].Exited?)
    && (s.outcome.Some? ==> s.closed && s.results == [] && s.outcome.value == Verdict(c, s))
  }

  lemma ShapedKept(c: Scan, s: State, action: Action)
    requires ValidScan(c) && Shaped(c, s) && Step(c, s, action).Some?
    ensures Shaped(c, Step(c, s, action).value)
  {
    if action.Produce? {
      RangeEndIs(s.next.value, c.cutoff, c.size);
    }
  }

  lemma ScanReplayed(c: Scan, job: Job, service: Service, stats: Stats)
    ensures var w := ScanRange(c, job, service, stats).0;
            (w.Sending? && w.output.job == job && Replayed(c, w.output)) || w.Failing?
  {
    FetchExact(c.history, service, stats, job.from, job.to);
  }

  lemma HonestKept(c: Scan, s: State, action: Action)
    requires ValidScan(c) && Honest(c, s) && Step(c, s, action).Some?
    ensures Honest(c, Step(c, s, action).value)
  {
    if action.Fetch? {
      ScanReplayed(c, s.workers[action.worker].job, action.service, s.stats);
    }
  }

  // Only a worker that sends and the aggregator touch the results.
  lemma ResultsUntouched(c: Scan, s: State, action: Action)
    requires ValidScan(c) && Step(c, s, action).Some? && !action.Send? && !action.Receive?
    ensures var t := Step(c, s, action).value;
            t.results == s.results && t.merged == s.merged && t.ledger == s.ledger && t.completed == s.completed
  {
  }

  lemma HonestResultsKept(c: Scan, s: State, action: Action)
    requires ValidScan(c) && Honest(c, s) && HonestResults(c, s) && Step(c, s, action).Some?
    ensures HonestResults(c, Step(c, s, action).value)
  {
    if action.Send? {
      assert Replayed(c, s.workers[action.worker].output);
    } else if action.Receive? {
      assert Replayed(c, s.results[0]);
    } else {
      ResultsUntouched(c, s, action);
    }
  }

  lemma BalancedKept(c: Scan, s: State, action: Action)
    requires ValidScan(c) && Balanced(s) && Step(c, s, action).Some?
    ensures Balanced(Step(c, s, action).value)
  {
    if action.Receive? {
      SumExtend(s.merged, s.results[0]);
      WrapAdd(|s.merged|, 1);
    } else if !action.Send? {
      ResultsUntouched(c, s, action);
    }
  }

  lemma ReportedKept(c: Scan, s: State, action: Action)
    requires ValidScan(c) && Reported(s) && Step(c, s, action).Some?
    ensures Reported(Step(c, s, action).value)
  {
  }

  lemma EndedKept(c: Scan, s: State, action: Action)
    requires ValidScan(c) && Ended(c, s) && Step(c, s, action).Some?
    ensures Ended(c, Step(c, s, action).value)
  {
  }

  // ---- no range is lost or doubled -------------------------------------

  // A sum over the workers.
  function Weigh(workers: seq<Worker>, weight: Worker -> nat): nat
    decreases |workers|
  {
    if workers == [] then 0 else weight(workers[0]) + Weigh(workers[1..], weight)
  }

  lemma {:induction false} WeighPut(workers: seq<Worker>, weight: Worker -> nat, i: nat, w: Worker)
    requires i < |workers|
    ensures Weigh(workers[i := w], weight) + weight(workers[i]) == Weigh(workers, weight) + weight(w)
    decreases |workers|
  {
    if i > 0 {
      assert workers[i := w][1..] == workers[1..][i - 1 := w];
      WeighPut(workers[1..], weight, i - 1, w);
    }
  }

  lemma {:induction false} WeighNothing(workers: seq<Worker>, weight: Worker -> nat)
    requires forall i :: 0 <= i < |workers| ==> weight(workers[i]) == 0
    ensures Weigh(workers, weight) == 0
    decreases |workers|
  {
    if workers != [] {
      WeighNothing(workers[1..], weight);
    }
  }

  // How often a range is held by a worker, is among some results, is in a queue.
  function Holds(job: Job, w: Worker): nat {
    if (w.Busy? && w.job == job) || (w.Sending? && w.output.job == job) then 1 else 0
  }

  function Holding(job: Job): Worker -> nat {
    w => Holds(job, w)
  }

  function Offering(): Worker -> nat {
    (w: Worker) => if w.Sending? then 1 else 0
  }

  function Held(job: Job, workers: seq<Worker>): nat {
    Weigh(workers, Holding(job))
  }

  function Offers(workers: seq<Worker>): nat {
    Weigh(workers, Offering())
  }

  function Delivered(job: Job, outputs: seq<Output>): nat
    decreases |outputs|
  {
    if outputs == [] then 0 else (if outputs[0].job == job then 1 else 0) + Delivered(job, outputs[1..])
  }

  lemma {:induction false} DeliveredExtend(job: Job, u: seq<Output>, output: Output)
    ensures Delivered(job, u + [output]) == Delivered(job, u) + if output.job == job then 1 else 0
    decreases |u|
  {
    if u != [] {
      assert (u + [output])[1..] == u[1..] + [output];
      DeliveredExtend(job, u[1..], output);
    }
  }

  function Queued(job: Job, jobs: seq<Job>): nat
    decreases |jobs|
  {
    if jobs == [] then 0 else (if jobs[0] == job then 1 else 0) + Queued(job, jobs[1..])
  }

  lemma {:induction false} QueuedExtend(job: Job, u: seq<Job>, last: Job)
    ensures Queued(job, u + [last]) == Queued(job, u) + if last == job then 1 else 0
    decreases |u|
  {
    if u != [] {
      assert (u + [last])[1..] == u[1..] + [last];
      QueuedExtend(job, u[1..], last);
    }
  }

  // What the producer has still to send.
  function Remaining(c: Scan, next: Option<Uint64>): seq<Job>
    requires ValidScan(c) && (next.Some? ==> next.value <= c.cutoff)
  {
    if next.None? then [] else Tiles(next.value, c.cutoff, c.size)
  }

  // How often a range is anywhere in the system.
  function Places(c: Scan, s: State, job: Job): nat
    requires ValidScan(c) && Shaped(c, s)
  {
    Queued(job, Remaining(c, s.next)) + Queued(job, s.jobs) + Held(job, s.workers)
    + Delivered(job, s.results) + Delivered(job, s.merged)
  }

  predicate Clean(s: State) {
    s.slot.None? && forall i :: 0 <= i < |s.workers| ==> !s.workers[i].Failing?
  }

  // Until something fails every range is in exactly one place.
  ghost predicate Conserved(c: Scan, s: State)
    requires ValidScan(c) && Shaped(c, s)
  {
    Clean(s) ==> forall job: Job :: Places(c, s, job) == Queued(job, Tiles(c.deployment, c.cutoff, c.size))
  }

  // Until something fails the query counter has one query per scanned range and two per split.
  predicate Accounted(s: State) {
    Clean(s) ==> s.stats.queries == Offers(s.workers) + |s.results| + |s.merged| + 2 * s.stats.splits
  }

  lemma CleanBefore(c: Scan, s: State, action: Action)
    requires ValidScan(c) && Reported(s) && Step(c, s, action).Some? && Clean(Step(c, s, action).value)
    ensures Clean(s) && !action.Report? && !action.Cancel? && !action.Drop? && !action.StopProducing?
  {
    var t := Step(c, s, action).value;
    forall i | 0 <= i < |s.workers| ensures !s.workers[i].Failing? {
      assert !t.workers[i].Failing?;
    }
  }

  lemma ProduceConserves(c: Scan, s: State, job: Job)
    requires ValidScan(c) && Shaped(c, s) && Step(c, s, Produce).Some?
    requires Shaped(c, Step(c, s, Produce).value)
    ensures Places(c, Step(c, s, Produce).value, job) == Places(c, s, job)
  {
    var t := Step(c, s, Produce).value;
    RangeEndIs(s.next.value, c.cutoff, c.size);
    var sent := Range(s.next.value, RangeEnd(s.next.value, c.cutoff, c.size));
    assert Remaining(c, s.next) == [sent] + Remaining(c, t.next);
    assert ([sent] + Remaining(c, t.next))[1..] == Remaining(c, t.next);
    QueuedExtend(job, s.jobs, sent);
  }

  lemma WorkerConserves(c: Scan, s: State, action: Action, i: nat, job: Job)
    requires ValidScan(c) && Shaped(c, s) && Step(c, s, action).Some? && Shaped(c, Step(c, s, action).value)
    requires action == Take(i) || action == Send(i) || action == Leave(i) || (action.Fetch? && action.worker == i)
    requires !Step(c, s, action).value.workers[i].Failing?
    ensures Places(c, Step(c, s, action).value, job) == Places(c, s, job)
  {
    var t := Step(c, s, action).value;
    WeighPut(s.workers, Holding(job), i, t.workers[i]);
    if action.Fetch? {
      ScanReplayed(c, s.workers[i].job, action.service, s.stats);
    } else if action.Send? {
      DeliveredExtend(job, s.results, s.workers[i].output);
    }
  }

  lemma ConservedKept(c: Scan, s: State, action: Action)
    requires ValidScan(c) && Shaped(c, s) && Reported(s) && Conserved(c, s) && Step(c, s, action).Some?
    requires Shaped(c, Step(c, s, action).value)
    ensures Conserved(c, Step(c, s, action).value)
  {
    var t := Step(c, s, action).value;
    if Clean(t) {
      CleanBefore(c, s, action);
      forall job: Job ensures Places(c, t, job) == Places(c, s, job) {
        match action
        case Produce => ProduceConserves(c, s, job);
        case Take(i) => WorkerConserves(c, s, action, i, job);
        case Leave(i) => WorkerConserves(c, s, action, i, job);
        case Fetch(i, service) => WorkerConserves(c, s, action, i, job);
        case Send(i) => WorkerConserves(c, s, action, i, job);
        case Receive => DeliveredExtend(job, s.merged, s.results[0]);
        case _ =>
      }
    }
  }

  lemma AccountedKept(c: Scan, s: State, action: Action)
    requires ValidScan(c) && Reported(s) && Accounted(s) && Step(c, s, action).Some?
    ensures Accounted(Step(c, s, action).value)
  {
    var t := Step(c, s, action).value;
    if Clean(t) {
      CleanBefore(c, s, action);
      if action.Take? || action.Leave? || action.Fetch? || action.Send? {
        var i := action.worker;
        WeighPut(s.workers, Offering(), i, t.workers[i]);
        if action.Fetch? {
          ScanReplayed(c, s.workers[i].job, action.service, s.stats);
          FetchCost(c.history, action.service, s.stats, s.workers[i].job.from, s.workers[i].job.to);
        }
      }
    }
  }

  // ---- where errors come from ------------------------------------------

  predicate Inside(c: Scan, job: Job) {
    c.deployment <= job.from && job.to <= c.cutoff
  }

  predicate RejectedIn(c: Scan, job: Job, e: LogError) {
    Inside(c, job) && Replay(RangeLogs(c.history, job.from, job.to), c.contract) == Err(e)
  }

  // A reported error is a block the service would not give, or a log of the scanned blocks
  // that the replay rejects.
  ghost predicate Genuine(c: Scan, e: ScanError) {
    match e
    case FetchFailed => true
    case BadLog(x) => exists job: Job :: RejectedIn(c, job, x)
    case Incomplete => false
  }

  predicate JobsInside(c: Scan, s: State) {
    (s.next.Some? ==> c.deployment <= s.next.value)
    && (forall i :: 0 <= i < |s.jobs| ==> Inside(c, s.jobs[i]))
    && (forall i :: 0 <= i < |s.workers| && s.workers[i].Busy? ==> Inside(c, s.workers[i].job))
  }

  ghost predicate ErrorsGenuine(c: Scan, s: State) {
    (forall i :: 0 <= i < |s.workers| && s.workers[i].Failing? ==> Genuine(c, s.workers[i].error))
    && (s.slot.Some? ==> Genuine(c, s.slot.value))
  }

  ghost predicate Sound(c: Scan, s: State) {
    JobsInside(c, s) && ErrorsGenuine(c, s)
  }

  lemma ScanGenuine(c: Scan, job: Job, service: Service, stats: Stats)
    requires Inside(c, job)
    ensures var w := ScanRange(c, job, service, stats).0; w.Failing? ==> Genuine(c, w.error)
  {
    FetchExact(c.history, service, stats, job.from, job.to);
    var w := ScanRange(c, job, service, stats).0;
    if w.Failing? && w.error.BadLog? {
      assert RejectedIn(c, job, w.error.error);
    }
  }

  lemma JobsInsideKept(c: Scan, s: State, action: Action)
    requires ValidScan(c) && JobsInside(c, s) && Step(c, s, action).Some?
    ensures JobsInside(c, Step(c, s, action).value)
  {
    if action.Produce? {
      RangeEndIs(s.next.value, c.cutoff, c.size);
    } else if action.Fetch? {
      ScanReplayed(c, s.workers[action.worker].job, action.service, s.stats);
    }
  }

  lemma ErrorsGenuineKept(c: Scan, s: State, action: Action)
    requires ValidScan(c) && JobsInside(c, s) && ErrorsGenuine(c, s) && Step(c, s, action).Some?
    ensures ErrorsGenuine(c, Step(c, s, action).value)
  {
    if action.Fetch? {
      ScanGenuine(c, s.workers[action.worker].job, action.service, s.stats);
    }
  }

  lemma SoundKept(c: Scan, s: State, action: Action)
    requires ValidScan(c) && Sound(c, s) && Step(c, s, action).Some?
    ensures Sound(c, Step(c, s, action).value)
  {
    JobsInsideKept(c, s, action);
    ErrorsGenuineKept(c, s, action);
  }

  // ---- every interleaving ----------------------------------------------

  ghost predicate Invariant(c: Scan, s: State) {
    ValidScan(c) && Shaped(c, s) && Honest(c, s) && HonestResults(c, s) && Balanced(s) && Reported(s) && Ended(c, s)
    && Conserved(c, s) && Accounted(s) && Sound(c, s)
  }

  lemma InvariantAtStart(c: Scan)
    requires ValidScan(c)
    ensures Invariant(c, Initial(c))
  {
    var s := Initial(c);
    forall job: Job ensures Held(job, s.workers) == 0 {
      WeighNothing(s.workers, Holding(job));
    }
    WeighNothing(s.workers, Offering());
  }

  lemma InvariantKept(c: Scan, s: State, action: Action)
    requires Invariant(c, s) && Step(c, s, action).Some?
    ensures Invariant(c, Step(c, s, action).value)
  {
    ShapedKept(c, s, action);
    HonestKept(c, s, action);
    HonestResultsKept(c, s, action);
    BalancedKept(c, s, action);
    ReportedKept(c, s, action);
    EndedKept(c, s, action);
    ConservedKept(c, s, action);
    AccountedKept(c, s, action);
    SoundKept(c, s, action);
  }

  lemma {:induction false} InvariantHolds(c: Scan, s: State, actions: seq<Action>)
    requires Invariant(c, s) && Run(c, s, actions).Some?
    ensures Invariant(c, Run(c, s, actions).value)
    decreases |actions|
  {
    if actions != [] {
      InvariantKept(c, s, actions[0]);
      InvariantHolds(c, Step(c, s, actions[0]).value, actions[1..]);
    }
  }

  // Both channels keep to their capacity, two for every worker.
  predicate Bounded(c: Scan, s: State) {
    |s.jobs| <= 2 * c.workers && |s.results| <= 2 * c.workers
  }

  lemma {:induction false} ChannelsBounded(c: Scan, s: State, actions: seq<Action>)
    requires ValidScan(c) && Bounded(c, s) && Run(c, s, actions).Some?
    ensures Bounded(c, Run(c, s, actions).value)
    decreases |actions|
  {
    if actions != [] {
      BoundedKept(c, s, actions[0]);
      ChannelsBounded(c, Step(c, s, actions[0]).value, actions[1..]);
    }
  }

  lemma BoundedKept(c: Scan, s: State, action: Action)
    requires ValidScan(c) && Bounded(c, s) && Step(c, s, action).Some?
    ensures Bounded(c, Step(c, s, action).value)
  {
  }

  // The first error stays in the slot, and only a worker that failed with it puts one there.
  lemma SlotKept(c: Scan, s: State, action: Action)
    requires ValidScan(c) && Step(c, s, action).Some?
    ensures var t := Step(c, s, action).value;
            (s.slot.Some? ==> t.slot == s.slot)
            && (t.slot != s.slot ==> action.Report? && t.slot == Some(s.workers[action.worker].error))
  {
  }

  lemma {:induction false} FirstErrorStays(c: Scan, s: State, actions: seq<Action>)
    requires ValidScan(c) && s.slot.Some? && Run(c, s, actions).Some?
    ensures Run(c, s, actions).value.slot == s.slot
    decreases |actions|
  {
    if actions != [] {
      SlotKept(c, s, actions[0]);
      FirstErrorStays(c, Step(c, s, actions[0]).value, actions[1..]);
    }
  }

  lemma Reachable(c: Scan, actions: seq<Action>)
    requires ValidScan(c) && Run(c, Initial(c), actions).Some?
    ensures Invariant(c, Run(c, Initial(c), actions).value)
  {
    InvariantAtStart(c);
    InvariantHolds(c, Initial(c), actions);
  }
}
