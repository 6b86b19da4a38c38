/** What every interleaving of the token-event scan comes to: its result, its errors and its end. */
module ScanOutcome {
  import opened Base
  import opened TokenEvents
  import opened LogFetch
  import opened ScanSystem

  // ---- the result ------------------------------------------------------

  lemma {:induction false} FindDelivered(job: Job, outputs: seq<Output>) returns (k: nat)
    requires Delivered(job, outputs) > 0
    ensures k < |outputs| && outputs[k].job == job
    decreases |outputs|
  {
    if outputs[0].job == job {
      k := 0;
    } else {
      k := FindDelivered(job, outputs[1..]);
      k := k + 1;
    }
  }

  lemma {:induction false} DeliveredWithout(job: Job, outputs: seq<Output>, k: nat)
    requires k < |outputs|
    ensures Delivered(job, outputs) == Delivered(job, Without(outputs, k)) + if outputs[k].job == job then 1 else 0
    decreases |outputs|
  {
    if k == 0 {
      assert Without(outputs, 0) == outputs[1..];
    } else {
      assert Without(outputs, k) == [outputs[0]] + Without(outputs[1..], k - 1);
      assert ([outputs[0]] + Without(outputs[1..], k - 1))[1..] == Without(outputs[1..], k - 1);
      DeliveredWithout(job, outputs[1..], k - 1);
    }
  }

  // Results that cover a list of ranges once each, in whatever order they arrived, add up to
  // the replay of the ranges one after the other.
  lemma {:induction false} ArrivalOrder(c: Scan, outputs: seq<Output>, tiles: seq<Job>)
    requires forall i :: 0 <= i < |outputs| ==> Replayed(c, outputs[i])
    requires forall job: Job :: Delivered(job, outputs) == Queued(job, tiles)
    ensures |outputs| == |tiles| && Replay(TileLogs(c.history, tiles), c.contract) == Ok(Sum(outputs))
    decreases |tiles|
  {
    if tiles == [] {
      assert outputs != [] ==> Delivered(outputs[0].job, outputs) > 0;
    } else {
      var k := FindDelivered(tiles[0], outputs);
      var rest := Without(outputs, k);
      forall job: Job ensures Delivered(job, rest) == Queued(job, tiles[1..]) {
        DeliveredWithout(job, outputs, k);
      }
      ArrivalOrder(c, rest, tiles[1..]);
      SumTakesOut(outputs, k);
      ReplayAppend(RangeLogs(c.history, tiles[0].from, tiles[0].to), TileLogs(c.history, tiles[1..]), c.contract);
    }
  }

  // At the end of a clean run nothing is left on the way.
  lemma CleanEnd(c: Scan, s: State)
    requires Invariant(c, s) && s.closed && s.results == [] && s.slot.None?
    ensures forall job: Job :: Delivered(job, s.merged) == Queued(job, Tiles(c.deployment, c.cutoff, c.size))
    ensures s.stats.queries == |s.merged| + 2 * s.stats.splits
  {
    assert s.workers[0].Exited?;
    WeighNothing(s.workers, Offering());
    forall job: Job ensures Delivered(job, s.merged) == Queued(job, Tiles(c.deployment, c.cutoff, c.size)) {
      WeighNothing(s.workers, Holding(job));
      assert Places(c, s, job) == Delivered(job, s.merged);
    }
  }

  lemma CleanEndReplays(c: Scan, s: State)
    requires Invariant(c, s) && s.closed && s.results == [] && s.slot.None?
    ensures Verdict(c, s) == Ok(s.ledger)
    ensures Replay(RangeLogs(c.history, c.deployment, c.cutoff), c.contract) == Ok(s.ledger)
    ensures s.stats.queries == |Tiles(c.deployment, c.cutoff, c.size)| + 2 * s.stats.splits
  {
    var tiles := Tiles(c.deployment, c.cutoff, c.size);
    CleanEnd(c, s);
    ArrivalOrder(c, s.merged, tiles);
    TilesHoldEveryLog(c.history, c.deployment, c.cutoff, c.size);
    InitialRangesIsCount(c.deployment, c.cutoff, c.size);
  }

  // A range is sent once: the ranges of the producer are pairwise different.
  lemma {:induction false} TilesOnce(job: Job, from: Uint64, cutoff: Uint64, size: Uint64)
    requires from <= cutoff && size > 0
    ensures Queued(job, Tiles(from, cutoff, size)) <= 1
    ensures job.from < from ==> Queued(job, Tiles(from, cutoff, size)) == 0
    ensures Queued(job, Tiles(from, cutoff, size)) == 1 <==> job in Tiles(from, cutoff, size)
    decreases Gap(from, cutoff)
  {
    RangeEndIs(from, cutoff, size);
    var to := RangeEnd(from, cutoff, size);
    if to == cutoff {
      assert [Range(from, to)][1..] == [];
    } else {
      TilesOnce(job, to + 1, cutoff, size);
      assert ([Range(from, to)] + Tiles(to + 1, cutoff, size))[1..] == Tiles(to + 1, cutoff, size);
    }
  }

  // Every interleaving that ends well gives the ledger of one sequential replay of all logs of
  // deployment..cutoff; each range has been merged once; the counters account for every query.
  lemma ScanIsReplay(c: Scan, actions: seq<Action>, s: State, ledger: Ledger)
    requires ValidScan(c) && Run(c, Initial(c), actions) == Some(s) && s.outcome == Some(Ok(ledger))
    ensures Replay(RangeLogs(c.history, c.deployment, c.cutoff), c.contract) == Ok(ledger)
    ensures forall job: Job :: Delivered(job, s.merged) == if job in Tiles(c.deployment, c.cutoff, c.size) then 1 else 0
    ensures s.stats.queries == |Tiles(c.deployment, c.cutoff, c.size)| + 2 * s.stats.splits
  {
    Reachable(c, actions);
    CleanEnd(c, s);
    CleanEndReplays(c, s);
    forall job: Job ensures Delivered(job, s.merged) == if job in Tiles(c.deployment, c.cutoff, c.size) then 1 else 0 {
      TilesOnce(job, c.deployment, c.cutoff, c.size);
    }
  }

  // The final count never disagrees: a scan that fails has an error in the slot and returns it.
  // In particular a cancelled scan, hence one that has dropped a result, fails.
  lemma FailureIsReported(c: Scan, actions: seq<Action>, s: State)
    requires ValidScan(c) && Run(c, Initial(c), actions) == Some(s) && s.outcome.Some?
    ensures s.outcome.value.Err? <==> s.slot.Some?
    ensures s.slot.Some? ==> s.outcome.value == Err(s.slot.value)
    ensures s.outcome.value != Err(Incomplete)
    ensures s.cancelled ==> s.outcome.value.Err?
  {
    Reachable(c, actions);
    if s.slot.None? {
      CleanEndReplays(c, s);
    }
  }

  lemma {:induction false} StaysCancelled(c: Scan, s: State, actions: seq<Action>)
    requires ValidScan(c) && Run(c, s, actions).Some?
    requires s.cancelled || exists k :: 0 <= k < |actions| && (actions[k].Drop? || actions[k].Cancel?)
    ensures Run(c, s, actions).value.cancelled
    decreases |actions|
  {
    if actions != [] {
      var t := Step(c, s, actions[0]).value;
      if !t.cancelled {
        var k :| 0 <= k < |actions| && (actions[k].Drop? || actions[k].Cancel?);
        assert actions[1..][k - 1] == actions[k];
      }
      StaysCancelled(c, t, actions[1..]);
    }
  }

  lemma DroppedResultFails(c: Scan, actions: seq<Action>, s: State, k: nat)
    requires ValidScan(c) && Run(c, Initial(c), actions) == Some(s) && s.outcome.Some?
    requires k < |actions| && (actions[k].Drop? || actions[k].Cancel?)
    ensures s.slot.Some? && s.outcome.value == Err(s.slot.value)
  {
    StaysCancelled(c, Initial(c), actions);
    FailureIsReported(c, actions, s);
  }

  // ---- no deadlock, no endless run -------------------------------------

  // In every state without an outcome some step is possible.
  lemma NeverStuck(c: Scan, s: State) returns (action: Action)
    requires ValidScan(c) && Shaped(c, s) && s.outcome.None?
    ensures Step(c, s, action).Some?
  {
    if i :| 0 <= i < |s.workers| && s.workers[i].Busy? {
      action := Action.Fetch(i, (query, from, to) => true);
    } else if i :| 0 <= i < |s.workers| && s.workers[i].Failing? {
      action := Report(i);
    } else if i :| 0 <= i < |s.workers| && s.workers[i].Cancelling? {
      action := Cancel(i);
    } else if s.results != [] {
      action := Receive;
    } else if i :| 0 <= i < |s.workers| && s.workers[i].Sending? {
      action := Send(i);
    } else if i :| 0 <= i < |s.workers| && s.workers[i].Waiting? {
      action := if s.jobs != [] then Take(i) else if s.next.None? then Leave(i) else Produce;
    } else {
      action := if s.closed then Finish else CloseResults;
    }
  }

  function Weight(w: Worker): nat {
    match w
    case Waiting => 1
    case Busy(_) => 9
    case Sending(_) => 8
    case Failing(_) => 3
    case Cancelling => 2
    case Exited => 0
  }

  function Weighing(): Worker -> nat {
    w => Weight(w)
  }

  // The work that is left.
  function Effort(c: Scan, s: State): nat
    requires Shaped(c, s)
  {
    (if s.next.Some? then 10 * (c.cutoff - s.next.value + 1) else 0) + 9 * |s.jobs| + Weigh(s.workers, Weighing())
    + 2 * |s.results| + (if s.closed then 0 else 1) + (if s.outcome.Some? then 0 else 1)
  }

  predicate ByWorker(action: Action) {
    !action.Produce? && !action.StopProducing? && !action.CloseResults? && !action.Receive? && !action.Finish?
  }

  lemma WorkerTakesEffort(c: Scan, s: State, action: Action)
    requires ValidScan(c) && ByWorker(action) && Step(c, s, action).Some?
    ensures var t := Step(c, s, action).value;
            t.next == s.next && t.closed == s.closed && t.outcome == s.outcome
            && 9 * |t.jobs| + Weigh(t.workers, Weighing()) + 2 * |t.results|
             < 9 * |s.jobs| + Weigh(s.workers, Weighing()) + 2 * |s.results|
  {
    var i := action.worker;
    var w := Step(c, s, action).value.workers[i];
    WeighPut(s.workers, Weighing(), i, w);
    if action.Fetch? {
      ScanReplayed(c, s.workers[i].job, action.service, s.stats);
    }
  }

  lemma StepTakesEffort(c: Scan, s: State, action: Action)
    requires ValidScan(c) && Shaped(c, s) && Step(c, s, action).Some? && Shaped(c, Step(c, s, action).value)
    ensures Effort(c, Step(c, s, action).value) < Effort(c, s)
  {
    if ByWorker(action) {
      WorkerTakesEffort(c, s, action);
    } else if action.Produce? {
      RangeEndIs(s.next.value, c.cutoff, c.size);
    }
  }

  lemma {:induction false} EffortBoundsRun(c: Scan, s: State, actions: seq<Action>)
    requires ValidScan(c) && Shaped(c, s) && Run(c, s, actions).Some?
    ensures |actions| <= Effort(c, s)
    decreases |actions|
  {
    if actions != [] {
      ShapedKept(c, s, actions[0]);
      StepTakesEffort(c, s, actions[0]);
      EffortBoundsRun(c, Step(c, s, actions[0]).value, actions[1..]);
    }
  }

  lemma {:induction false} IdleWeight(workers: seq<Worker>)
    requires forall i :: 0 <= i < |workers| ==> workers[i] == Waiting
    ensures Weigh(workers, Weighing()) == |workers|
    decreases |workers|
  {
    if workers != [] {
      IdleWeight(workers[1..]);
    }
  }

  // No interleaving goes on for ever, whatever the service does.
  lemma EveryRunEnds(c: Scan, actions: seq<Action>)
    requires ValidScan(c) && Run(c, Initial(c), actions).Some?
    ensures |actions| <= 10 * (c.cutoff - c.deployment + 1) + c.workers + 2
  {
    EffortBoundsRun(c, Initial(c), actions);
    IdleWeight(Initial(c).workers);
  }

  // A run that cannot be continued has an outcome.
  lemma StuckRunHasOutcome(c: Scan, actions: seq<Action>, s: State)
    requires ValidScan(c) && Run(c, Initial(c), actions) == Some(s)
    requires forall action :: Step(c, s, action).None?
    ensures s.outcome.Some?
  {
    Reachable(c, actions);
    if s.outcome.None? {
      var action := NeverStuck(c, s);
      assert false;
    }
  }

  // ---- what decides the outcome ----------------------------------------

  // No range inside scanned blocks that replay well is rejected.
  lemma PartReplays(c: Scan, job: Job)
    requires Inside(c, job) && Replay(RangeLogs(c.history, c.deployment, c.cutoff), c.contract).Ok?
    ensures Replay(RangeLogs(c.history, job.from, job.to), c.contract).Ok?
  {
    TailReplays(c.history, c.contract, c.deployment, job.from, c.cutoff);
    HeadReplays(c.history, c.contract, job.from, job.to, c.cutoff);
  }

  lemma TailReplays(history: History, contract: Address, from: nat, middle: nat, to: nat)
    requires from <= middle <= to && Replay(RangeLogs(history, from, to), contract).Ok?
    ensures Replay(RangeLogs(history, middle, to), contract).Ok?
  {
    if middle > from {
      RangeLogsSplit(history, from, middle - 1, to);
      ReplayAppend(RangeLogs(history, from, middle - 1), RangeLogs(history, middle, to), contract);
    }
  }

  lemma HeadReplays(history: History, contract: Address, from: nat, middle: nat, to: nat)
    requires from <= middle <= to && Replay(RangeLogs(history, from, to), contract).Ok?
    ensures Replay(RangeLogs(history, from, middle), contract).Ok?
  {
    RangeLogsSplit(history, from, middle, to);
    ReplayAppend(RangeLogs(history, from, middle), RangeLogs(history, middle + 1, to), contract);
  }

  // The service gives every single block it is asked for.
  ghost predicate ServesBlocks(action: Action) {
    action.Fetch? ==> forall query, block :: action.service(query, block, block)
  }

  // It does so for as long as the shared context is alive. Queries on a cancelled context may fail.
  ghost predicate ServesUntilCancel(c: Scan, s: State, actions: seq<Action>)
    requires ValidScan(c)
    decreases |actions|
  {
    if actions == [] then true
    else
      (s.cancelled || ServesBlocks(actions[0]))
      && match Step(c, s, actions[0])
         case None => true
         case Some(next) => ServesUntilCancel(c, next, actions[1..])
  }

  // No failed query has reached the slot, and before cancellation no worker carries one.
  predicate NoFetchReported(s: State) {
    s.slot != Some(FetchFailed)
    && (s.cancelled || forall i :: 0 <= i < |s.workers| ==> s.workers[i] != Failing(FetchFailed))
  }

  lemma NoFetchReportedKept(c: Scan, s: State, action: Action)
    requires ValidScan(c) && Reported(s) && NoFetchReported(s) && Step(c, s, action).Some?
    requires s.cancelled || ServesBlocks(action)
    ensures NoFetchReported(Step(c, s, action).value)
  {
    if action.Fetch? && !s.cancelled {
      var job := s.workers[action.worker].job;
      FetchSucceeds(c.history, action.service, s.stats, job.from, job.to);
    }
  }

  lemma {:induction false} NoFetchReportedHolds(c: Scan, s: State, actions: seq<Action>)
    requires ValidScan(c) && Reported(s) && NoFetchReported(s) && Run(c, s, actions).Some?
    requires ServesUntilCancel(c, s, actions)
    ensures NoFetchReported(Run(c, s, actions).value)
    decreases |actions|
  {
    if actions != [] {
      NoFetchReportedKept(c, s, actions[0]);
      ReportedKept(c, s, actions[0]);
      NoFetchReportedHolds(c, Step(c, s, actions[0]).value, actions[1..]);
    }
  }

  // With a service that gives every single block until the scan is cancelled, whatever it refuses
  // above that or afterwards and however the steps interleave, a finished scan succeeds exactly
  // when the sequential replay does.
  lemma OutcomeIsReplay(c: Scan, actions: seq<Action>, s: State)
    requires ValidScan(c) && Run(c, Initial(c), actions) == Some(s) && s.outcome.Some?
    requires ServesUntilCancel(c, Initial(c), actions)
    ensures s.outcome.value.Ok? <==> Replay(RangeLogs(c.history, c.deployment, c.cutoff), c.contract).Ok?
    ensures s.outcome.value.Ok? ==>
              s.outcome.value.value == Replay(RangeLogs(c.history, c.deployment, c.cutoff), c.contract).value
  {
    Reachable(c, actions);
    FailureIsReported(c, actions, s);
    if s.outcome.value.Ok? {
      ScanIsReplay(c, actions, s, s.outcome.value.value);
    } else {
      NoFetchReportedHolds(c, Initial(c), actions);
      var x := s.slot.value.error;
      var job: Job :| RejectedIn(c, job, x);
      if Replay(RangeLogs(c.history, c.deployment, c.cutoff), c.contract).Ok? {
        PartReplays(c, job);
      }
    }
  }
}
