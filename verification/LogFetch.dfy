/** Block ranges, the adaptive range fetch and the deployment search of the token-holder scan. */
module LogFetch {
  import opened Base
  import opened Binary
  import opened TokenEvents

  // The logs of every block, in order.
  type History = nat -> seq<Log>

  // Distance from one block to a later one; the termination measure of everything below.
  function Gap(from: int, to: int): nat {
    if from <= to then to - from else 0
  }

  function RangeLogs(history: History, from: nat, to: nat): seq<Log>
    decreases Gap(from, to + 1)
  {
    if from > to then [] else history(from) + RangeLogs(history, from + 1, to)
  }

  lemma {:induction false} RangeLogsSplit(history: History, from: nat, middle: nat, to: nat)
    requires from <= middle + 1 && middle <= to
    ensures RangeLogs(history, from, to) == RangeLogs(history, from, middle) + RangeLogs(history, middle + 1, to)
    decreases middle + 1 - from
  {
    if from <= middle {
      RangeLogsSplit(history, from + 1, middle, to);
    }
  }

  // A block's logs come after those of the range's blocks before it and before those of the blocks
  // after it.
  lemma RangeLogsAt(history: History, from: nat, block: nat, to: nat)
    requires from <= block <= to
    ensures RangeLogs(history, from, to)
         == (if from < block then RangeLogs(history, from, block - 1) else []) + history(block)
            + RangeLogs(history, block + 1, to)
  {
    if from < block {
      RangeLogsSplit(history, from, block - 1, to);
    }
  }

  // ---- adaptive fetch --------------------------------------------------

  // The counters that all workers share.
  datatype Stats = Stats(queries: nat, splits: nat)

  // Outcome of a fetch: its logs unless it gave up, and the counters after it.
  datatype Fetched = Fetched(logs: Option<seq<Log>>, stats: Stats)

  // No step overflows 64 bits: the difference and the sum stay between `from` and `to`.
  function Middle(from: Uint64, to: Uint64): (m: Uint64)
    requires from < to
    ensures from <= m < to
  {
    from + (to - from) / 2
  }

  // Whether the log service answers the query for a range that follows that many other queries.
  type Service = (nat, Uint64, Uint64) -> bool

  // An answered query returns exactly the logs of its range. The left half goes first.
  function Fetch(history: History, service: Service, stats: Stats, from: Uint64, to: Uint64): Fetched
    requires from <= to
    decreases Gap(from, to)
  {
    var asked := stats.(queries := stats.queries + 1);
    if service(stats.queries, from, to) then Fetched(Some(RangeLogs(history, from, to)), asked)
    else if from == to then Fetched(None, asked)
    else
      var middle := Middle(from, to);
      var left := Fetch(history, service, asked.(splits := asked.splits + 1), from, middle);
      if left.logs.None? then left
      else
        var right := Fetch(history, service, left.stats, middle + 1, to);
        if right.logs.None? then right
        else Fetched(Some(left.logs.value + right.logs.value), right.stats)
  }

  // Whatever queries failed on the way, a fetch that ends well has every log of its range
  // once and in order.
  lemma {:induction false} FetchExact(history: History, service: Service, stats: Stats, from: Uint64, to: Uint64)
    requires from <= to
    ensures var logs := Fetch(history, service, stats, from, to).logs;
            logs.Some? ==> logs.value == RangeLogs(history, from, to)
    decreases Gap(from, to)
  {
    if !service(stats.queries, from, to) && from < to {
      var middle := Middle(from, to);
      var split := Stats(stats.queries + 1, stats.splits + 1);
      FetchExact(history, service, split, from, middle);
      FetchExact(history, service, Fetch(history, service, split, from, middle).stats, middle + 1, to);
      RangeLogsSplit(history, from, middle, to);
    }
  }

  // A fetch that ends well has paid two queries for every split; none pays more, and no
  // range splits more often than it has blocks to separate.
  lemma {:induction false} FetchCost(history: History, service: Service, stats: Stats, from: Uint64, to: Uint64)
    requires from <= to
    ensures var r := Fetch(history, service, stats, from, to);
            (r.logs.Some? ==> Asked(stats, r.stats) == 1 + 2 * Splits(stats, r.stats))
            && 0 < Asked(stats, r.stats) <= 1 + 2 * Splits(stats, r.stats)
            && Splits(stats, r.stats) <= to - from
    decreases Gap(from, to)
  {
    if !service(stats.queries, from, to) && from < to {
      var middle := Middle(from, to);
      var split := Stats(stats.queries + 1, stats.splits + 1);
      FetchCost(history, service, split, from, middle);
      FetchCost(history, service, Fetch(history, service, split, from, middle).stats, middle + 1, to);
    }
  }

  function Asked(before: Stats, after: Stats): int {
    after.queries - before.queries
  }

  function Splits(before: Stats, after: Stats): int {
    after.splits - before.splits
  }

  // Splitting overcomes every failure but that of a single block.
  lemma {:induction false} FetchSucceeds(history: History, service: Service, stats: Stats, from: Uint64, to: Uint64)
    requires from <= to
    requires forall query, block :: from <= block <= to ==> service(query, block, block)
    ensures Fetch(history, service, stats, from, to).logs.Some?
    decreases Gap(from, to)
  {
    if !service(stats.queries, from, to) && from < to {
      var middle := Middle(from, to);
      var split := Stats(stats.queries + 1, stats.splits + 1);
      FetchSucceeds(history, service, split, from, middle);
      FetchSucceeds(history, service, Fetch(history, service, split, from, middle).stats, middle + 1, to);
    }
  }

  class ScanStats {
    var queries: nat
    var splits: nat

    constructor ()
      ensures queries == 0 && splits == 0
    {
      queries, splits := 0, 0;
    }

    function Counters(): Stats
      reads this
    {
      Stats(queries, splits)
    }

    method FetchLogs(history: History, service: Service, from: Uint64, to: Uint64) returns (logs: Option<seq<Log>>)
      requires from <= to
      modifies this
      ensures Fetched(logs, Counters()) == Fetch(history, service, old(Counters()), from, to)
      decreases Gap(from, to)
    {
      var answered := service(queries, from, to);
      queries := queries + 1;
      if answered {
        return Some(RangeLogs(history, from, to));
      }
      if from == to {
        return None;
      }
      splits := splits + 1;
      var middle := Middle(from, to);
      var left := FetchLogs(history, service, from, middle);
      if left.None? {
        return None;
      }
      var right := FetchLogs(history, service, middle + 1, to);
      if right.None? {
        return None;
      }
      return Some(left.value + right.value);
    }
  }

  // ---- initial ranges --------------------------------------------------

  datatype Range = Range(from: Uint64, to: Uint64)

  type Job = r: Range | r.from <= r.to witness Range(0, 0)

  // The end of the range that starts at `from`, with the 64-bit overflow test of the producer.
  function RangeEnd(from: Uint64, cutoff: Uint64, size: Uint64): Uint64 {
    var to := Wrap(from + size - 1);
    if to < from || to > cutoff then cutoff else to
  }

  lemma RangeEndIs(from: Uint64, cutoff: Uint64, size: Uint64)
    requires from <= cutoff && size > 0
    ensures RangeEnd(from, cutoff, size) == if from + size - 1 <= cutoff then from + size - 1 else cutoff
    ensures from <= RangeEnd(from, cutoff, size) <= cutoff
  {
    if from + size - 1 >= U64 {
      DivUnique(from + size - 1, U64, 1, from + size - 1 - U64);
    }
  }

  // Every range the producer sends, from its loop variable on.
  function Tiles(from: Uint64, cutoff: Uint64, size: Uint64): seq<Job>
    requires from <= cutoff && size > 0
    decreases Gap(from, cutoff)
  {
    RangeEndIs(from, cutoff, size);
    var to := RangeEnd(from, cutoff, size);
    if to == cutoff then [Range(from, to)] else [Range(from, to)] + Tiles(to + 1, cutoff, size)
  }

  // (cutoff - deployment) / rangeSize + 1, the count the aggregator expects
  function InitialRanges(deployment: Uint64, cutoff: Uint64, size: Uint64): Uint64
    requires size > 0
  {
    Wrap(Wrap(cutoff - deployment) / size + 1)
  }

  lemma {:induction false} TileCount(from: Uint64, cutoff: Uint64, size: Uint64)
    requires from <= cutoff && size > 0
    ensures |Tiles(from, cutoff, size)| == (cutoff - from) / size + 1
    decreases Gap(from, cutoff)
  {
    RangeEndIs(from, cutoff, size);
    if RangeEnd(from, cutoff, size) == cutoff {
      DivUnique(cutoff - from, size, 0, cutoff - from);
    } else {
      TileCount(from + size, cutoff, size);
      OneMore(cutoff - (from + size), size);
    }
  }

  lemma OneMore(n: nat, size: nat)
    requires size > 0
    ensures (n + size) / size == n / size + 1
  {
    DivUnique(n + size, size, n / size + 1, n % size);
  }

  // The ranges follow each other without gap or overlap from the deployment to the cutoff.
  predicate Covers(tiles: seq<Job>, from: Uint64, cutoff: Uint64, size: Uint64) {
    |tiles| > 0 && tiles[0].from == from && tiles[|tiles| - 1].to == cutoff
    && (forall i :: 0 <= i < |tiles| ==> tiles[i].to <= cutoff)
    && (forall i :: 0 <= i < |tiles| - 1 ==> tiles[i + 1].from == tiles[i].to + 1
                                             && tiles[i].to - tiles[i].from == size - 1)
  }

  lemma CoversMore(first: Job, rest: seq<Job>, cutoff: Uint64, size: Uint64)
    requires first.to < cutoff && first.to - first.from == size - 1 && Covers(rest, first.to + 1, cutoff, size)
    ensures Covers([first] + rest, first.from, cutoff, size)
  {
    var tiles := [first] + rest;
    forall i | 0 <= i < |tiles| - 1
      ensures tiles[i + 1].from == tiles[i].to + 1 && tiles[i].to - tiles[i].from == size - 1
    {
      assert tiles[i + 1] == rest[i];
      assert i > 0 ==> tiles[i] == rest[i - 1];
    }
  }

  lemma {:induction false} TilesCover(from: Uint64, cutoff: Uint64, size: Uint64)
    requires from <= cutoff && size > 0
    ensures Covers(Tiles(from, cutoff, size), from, cutoff, size)
    decreases Gap(from, cutoff)
  {
    RangeEndIs(from, cutoff, size);
    var to := RangeEnd(from, cutoff, size);
    if to != cutoff {
      TilesCover(to + 1, cutoff, size);
      CoversMore(Range(from, to), Tiles(to + 1, cutoff, size), cutoff, size);
    }
  }

  // The producer's expected count is the number of ranges, cut to 64 bits.
  lemma InitialRangesIsCount(deployment: Uint64, cutoff: Uint64, size: Uint64)
    requires deployment <= cutoff && size > 0
    ensures InitialRanges(deployment, cutoff, size) == Wrap(|Tiles(deployment, cutoff, size)|)
  {
    TileCount(deployment, cutoff, size);
    WrapIdentity(cutoff - deployment);
  }

  // The count is exact but for one input: every block of the 64-bit range, one at a time.
  lemma InitialRangesExact(deployment: Uint64, cutoff: Uint64, size: Uint64)
    requires deployment <= cutoff && size > 0
    ensures InitialRanges(deployment, cutoff, size) == |Tiles(deployment, cutoff, size)|
       <==> !(size == 1 && deployment == 0 && cutoff == U64 - 1)
  {
    TileCount(deployment, cutoff, size);
    InitialRangesIsCount(deployment, cutoff, size);
    var width := cutoff - deployment;
    if size == 1 {
      DivUnique(width, 1, width, 0);
    } else {
      HalfAtMost(width, size);
    }
    if width / size + 1 < U64 {
      WrapIdentity(width / size + 1);
    }
  }

  lemma HalfAtMost(width: nat, size: nat)
    requires size >= 2
    ensures width / size <= width / 2
  {
    MulAtLeast2(width / size, size);
  }

  lemma MulAtLeast2(q: int, d: int)
    requires d >= 2 && q >= 0
    ensures q * d >= 2 * q
  {
  }

  function TileLogs(history: History, tiles: seq<Job>): seq<Log>
    decreases |tiles|
  {
    if tiles == [] then [] else RangeLogs(history, tiles[0].from, tiles[0].to) + TileLogs(history, tiles[1..])
  }

  // The logs of the ranges, taken in order, are the logs of deployment..cutoff.
  lemma {:induction false} TilesHoldEveryLog(history: History, from: Uint64, cutoff: Uint64, size: Uint64)
    requires from <= cutoff && size > 0
    ensures TileLogs(history, Tiles(from, cutoff, size)) == RangeLogs(history, from, cutoff)
    decreases Gap(from, cutoff)
  {
    RangeEndIs(from, cutoff, size);
    var to := RangeEnd(from, cutoff, size);
    if to != cutoff {
      var rest := Tiles(to + 1, cutoff, size);
      assert ([Range(from, to)] + rest)[1..] == rest;
      TilesHoldEveryLog(history, to + 1, cutoff, size);
      RangeLogsSplit(history, from, to, cutoff);
    }
  }

  // ---- deployment search -----------------------------------------------

  datatype DeploymentError = ReadFailed | NoCodeAtCutoff

  // What the archive says about a block: whether the contract has code, unless reading fails.
  type Archive = nat -> Option<bool>

  predicate HasCode(archive: Archive, block: nat) {
    archive(block) == Some(true)
  }

  // The contract has code at `block` and had none one block before.
  predicate Deployed(archive: Archive, block: nat) {
    HasCode(archive, block) && (block > 0 ==> archive(block - 1) == Some(false))
  }

  // One turn of the search halves what is left.
  lemma TurnHalves(low: Uint64, high: Uint64)
    requires low < high
    ensures low <= Middle(low, high) < high
    ensures 1 + Bits(Middle(low, high) - low) <= Bits(high - low)
    ensures 1 + Bits(high - (Middle(low, high) + 1)) <= Bits(high - low)
  {
    BitsMonotone(Middle(low, high) - low, (high - low) / 2);
    BitsMonotone(high - (Middle(low, high) + 1), (high - low) / 2);
  }

  // `count` is the number of reads of the archive.
  method FindDeploymentBlock(archive: Archive, cutoff: Uint64)
    returns (r: Result<Uint64, DeploymentError>, count: nat)
    ensures r.Ok? ==> r.value <= cutoff && Deployed(archive, r.value) && (r.value == 0 || archive(0) == Some(false))
    ensures r == Err(NoCodeAtCutoff) <==> archive(cutoff) == Some(false)
    ensures r == Err(ReadFailed) ==> exists block: nat :: block <= cutoff && archive(block) == None
    ensures count <= 2 + if cutoff == 0 then 0 else Bits(cutoff - 1)
  {
    count := 1;
    if archive(cutoff) == None { return Err(ReadFailed), count; }
    if !archive(cutoff).value { return Err(NoCodeAtCutoff), count; }
    count := 2;
    if archive(0) == None { return Err(ReadFailed), count; }
    if archive(0).value { return Ok(0), count; }
    var low: Uint64, high: Uint64 := 1, cutoff;
    while low < high
      invariant 1 <= low <= high <= cutoff
      invariant archive(low - 1) == Some(false) && HasCode(archive, high)
      invariant count + Bits(high - low) <= 2 + Bits(cutoff - 1)
    {
      TurnHalves(low, high);
      var middle := Middle(low, high);
      count := count + 1;
      if archive(middle) == None { return Err(ReadFailed), count; }
      if archive(middle).value {
        high := middle;
      } else {
        low := middle + 1;
      }
    }
    return Ok(low), count;
  }

  // When code never disappears again the transition found is the first block with code.
  lemma DeploymentIsFirst(archive: Archive, cutoff: nat, deployment: nat, block: nat)
    requires Deployed(archive, deployment)
    requires forall b: nat, c: nat :: b <= c <= cutoff && HasCode(archive, b) ==> HasCode(archive, c)
    requires deployment <= cutoff && block <= cutoff && HasCode(archive, block)
    ensures deployment <= block
  {
    assert block < deployment ==> HasCode(archive, deployment - 1);
  }
}
