/** The HIP-30 recovery issuance: reward groups of 64 headers, and the crosslinks they pay for. */
module RecoveryIssuance {
  import opened Base
  import opened Totals

  const HIP30_EPOCH: nat := 1673
  const REJECT_SHARD0_CROSSLINK: nat := 2964

  // 35 * 10^17 atto for every crosslink.
  function Price(links: nat): nat {
    links * 3_500_000_000_000_000_000
  }

  // ---- window arithmetic: reward groups have 64 headers -----------------

  // The last header of a number's reward group.
  function NextRewardBlock(number: Uint64): Uint64 {
    Wrap(number + (63 - number % 64))
  }

  // The last header of the last group that is complete at a number.
  function PreviousRewardBlock(number: Uint64): Uint64 {
    var remainder := number % 64;
    if remainder >= 63 then Wrap(number - (remainder - 63))
    else Wrap(number - (remainder + 1))
  }

  datatype Window = Window(first: Uint64, last: Uint64)

  // The checks on a requested range; its first and last reward block.
  function Accept(start: Uint64, end: Uint64): Option<Window> {
    if start == 0 || end < start then None
    else
      var first := NextRewardBlock(start);
      if first < 63 then None
      else
        var last := PreviousRewardBlock(end);
        if last < first || Wrap(first - 63) != start then None else Some(Window(first, last))
  }

  // The next reward block never wraps; the previous one does, below the first complete group.
  lemma RewardBlocks(number: Uint64)
    ensures NextRewardBlock(number) == 64 * (number / 64) + 63
    ensures number >= 63 ==> PreviousRewardBlock(number) == 64 * ((number + 1) / 64) - 1
    ensures number < 63 ==> PreviousRewardBlock(number) == U64 - 1
  {
    var q, r := number / 64, number % 64;
    assert number == 64 * q + r;
    assert number + (63 - r) == 64 * q + 63 && 64 * q + 63 < U64;
    if r == 63 {
      assert number + 1 == 64 * (q + 1);
    } else {
      assert (number + 1) / 64 == q;
    }
  }

  // Exactly the ranges that start on a group and hold at least one whole group are accepted.
  lemma AcceptedRanges(start: Uint64, end: Uint64)
    ensures Accept(start, end).Some? <==> start % 64 == 0 && 0 < start && start + 63 <= end
  {
    RewardBlocks(start);
    RewardBlocks(end);
    var s, e := start / 64, (end + 1) / 64;
    assert start == 64 * s + start % 64 && end + 1 == 64 * e + (end + 1) % 64;
    if start > 0 && end >= start {
      assert Wrap(64 * s + 63 - 63) == 64 * s;
      if end >= 63 {
        RangesOfGroups(start, end, s, e);
      } else {
        assert s == 0;
      }
    }
  }

  lemma RangesOfGroups(start: int, end: int, s: int, e: int)
    requires 64 * s <= start < 64 * s + 64 && 64 * e <= end + 1 < 64 * e + 64
    ensures start == 64 * s ==> (64 * e - 1 >= 64 * s + 63 <==> start + 63 <= end)
    ensures start == 64 * s <==> start % 64 == 0
  {
  }

  // An accepted range has whole groups only, and leaves a tail shorter than a group; no step of
  // the arithmetic has wrapped.
  lemma AcceptedWindow(start: Uint64, end: Uint64)
    requires Accept(start, end).Some?
    ensures var w := Accept(start, end).value;
            w.first == start + 63 && w.first <= w.last <= end < w.last + 64 && w.last % 64 == 63 && start % 64 == 0
  {
    AcceptedRanges(start, end);
    RewardBlocks(start);
    RewardBlocks(end);
    var e := (end + 1) / 64;
    assert end + 1 == 64 * e + (end + 1) % 64;
    assert 64 * e - 1 == 64 * (e - 1) + 63;
  }

  // ---- headers ---------------------------------------------------------

  // A header as decoded: the low 64 bits of its own number, its epoch and shard, and the shards
  // of its crosslinks.
  datatype Header = Header(number: Uint64, epoch: nat, shard: nat, crosslinks: seq<nat>)

  // The canonical header of every block.
  type Chain = nat -> Header

  predicate HeaderFits(chain: Chain, number: nat) {
    chain(number).number == number && chain(number).shard == 0
  }

  predicate RewardFits(chain: Chain, number: nat) {
    HeaderFits(chain, number) && HIP30_EPOCH <= chain(number).epoch < U64
  }

  // Links from shard 0 are refused from an epoch on.
  predicate Refused(header: Header, shard: nat) {
    REJECT_SHARD0_CROSSLINK <= header.epoch < U64 && shard == 0
  }

  datatype Counts = Counts(headers: nat, encoded: nat, filtered: nat, included: nat, byShard: map<nat, int>)

  function NoCounts(): Counts {
    Counts(0, 0, 0, 0, map[])
  }

  function CountOne(byShard: map<nat, int>, shard: nat): map<nat, int> {
    byShard[shard := Get(byShard, shard) + 1]
  }

  function AddLink(c: Counts, header: Header, shard: nat): Counts {
    if Refused(header, shard) then c.(filtered := c.filtered + 1)
    else c.(included := c.included + 1, byShard := CountOne(c.byShard, shard))
  }

  function AddLinks(c: Counts, header: Header, links: seq<nat>): Counts
    decreases |links|
  {
    if links == [] then c else AddLink(AddLinks(c, header, links[..|links| - 1]), header, links[|links| - 1])
  }

  function Headed(c: Counts, header: Header): Counts {
    c.(headers := c.headers + 1, encoded := c.encoded + |header.crosslinks|)
  }

  function AddHeader(c: Counts, header: Header): Counts {
    AddLinks(Headed(c, header), header, header.crosslinks)
  }

  // The headers from one number up to, but not including, another.
  function Collect(chain: Chain, c: Counts, from: nat, stop: nat): Counts
    decreases stop
  {
    if stop <= from then c else AddHeader(Collect(chain, c, from, stop - 1), chain(stop - 1))
  }

  // What every header keeps: a link is filtered or included, and an included one is counted for
  // exactly one shard.
  predicate Settled(c: Counts) {
    c.encoded == c.filtered + c.included
  }

  ghost predicate ByShard(c: Counts) {
    SumMap(c.byShard) == c.included
  }

  lemma {:induction false} LinksSettle(c: Counts, header: Header, links: seq<nat>)
    requires ByShard(c)
    ensures var d := AddLinks(c, header, links);
            ByShard(d) && d.filtered + d.included == c.filtered + c.included + |links| && d.encoded == c.encoded
            && d.headers == c.headers
    decreases |links|
  {
    if links != [] {
      var front, last := links[..|links| - 1], links[|links| - 1];
      LinksSettle(c, header, front);
      var d := AddLinks(c, header, front);
      SumMapPut(d.byShard, last, Get(d.byShard, last) + 1);
    }
  }

  lemma {:induction false} CollectSettles(chain: Chain, c: Counts, from: nat, stop: nat)
    requires Settled(c) && ByShard(c)
    ensures var d := Collect(chain, c, from, stop);
            Settled(d) && ByShard(d) && d.headers == c.headers + (if from < stop then stop - from else 0)
    decreases stop
  {
    if from < stop {
      CollectSettles(chain, c, from, stop - 1);
      var d := Collect(chain, c, from, stop - 1);
      var header := chain(stop - 1);
      LinksSettle(Headed(d, header), header, header.crosslinks);
    }
  }

  // How many of a header's links name a shard, how many are refused, and how many are paid for: from
  // epoch 2964 on links of shard 0 are refused, unless the epoch does not fit into 64 bits.
  function Links(header: Header, shard: nat): nat {
    multiset(header.crosslinks)[shard]
  }

  function RefusedLinks(header: Header): nat {
    if 2964 <= header.epoch < 0x1_0000_0000_0000_0000 then Links(header, 0) else 0
  }

  function PaidLinks(header: Header, shard: nat): nat {
    Links(header, shard) - if shard == 0 then RefusedLinks(header) else 0
  }

  function SumOver(chain: Chain, from: nat, stop: nat, figure: Header -> nat): nat
    decreases stop
  {
    if stop <= from then 0 else SumOver(chain, from, stop - 1, figure) + figure(chain(stop - 1))
  }

  function Refusals(): Header -> nat {
    (header: Header) => RefusedLinks(header)
  }

  function Payments(shard: nat): Header -> nat {
    (header: Header) => PaidLinks(header, shard)
  }

  function Encoded(): Header -> nat {
    (header: Header) => |header.crosslinks|
  }

  lemma {:induction false} LinksCounted(c: Counts, header: Header, links: seq<nat>, shard: nat)
    ensures var d := AddLinks(c, header, links);
            var refused := 2964 <= header.epoch < 0x1_0000_0000_0000_0000;
            d.filtered == c.filtered + (if refused then multiset(links)[0] else 0)
            && Get(d.byShard, shard)
            == Get(c.byShard, shard) + (if shard == 0 && refused then 0 else multiset(links)[shard])
    decreases |links|
  {
    if links != [] {
      var front, last := links[..|links| - 1], links[|links| - 1];
      LinksCounted(c, header, front, shard);
      assert links == front + [last];
      assert multiset(links) == multiset(front) + multiset{last};
    }
  }

  // Which links are filtered and which are counted for which shard.
  lemma {:induction false} CollectCounts(chain: Chain, c: Counts, from: nat, stop: nat, shard: nat)
    ensures var d := Collect(chain, c, from, stop);
            d.encoded == c.encoded + SumOver(chain, from, stop, Encoded())
            && d.filtered == c.filtered + SumOver(chain, from, stop, Refusals())
            && Get(d.byShard, shard) == Get(c.byShard, shard) + SumOver(chain, from, stop, Payments(shard))
    decreases stop
  {
    if from < stop {
      CollectCounts(chain, c, from, stop - 1, shard);
      var d, header := Collect(chain, c, from, stop - 1), chain(stop - 1);
      LinksCounted(Headed(d, header), header, header.crosslinks, shard);
      EncodedKept(Headed(d, header), header, header.crosslinks);
    }
  }

  lemma {:induction false} EncodedKept(c: Counts, header: Header, links: seq<nat>)
    ensures AddLinks(c, header, links).encoded == c.encoded
    decreases |links|
  {
    if links != [] {
      EncodedKept(c, header, links[..|links| - 1]);
    }
  }

  lemma {:induction false} CollectOn(chain: Chain, c: Counts, from: nat, middle: nat, stop: nat)
    requires from <= middle <= stop
    ensures Collect(chain, c, from, stop) == Collect(chain, Collect(chain, c, from, middle), middle, stop)
    decreases stop
  {
    if middle < stop {
      CollectOn(chain, c, from, middle, stop - 1);
    }
  }

  // ---- the scan --------------------------------------------------------

  datatype Issuance = Issuance(groups: nat, counts: Counts, total: nat, atto: nat)

  // Headers as they should be in every group of a window.
  ghost predicate GroupFits(chain: Chain, reward: nat)
    requires reward >= 63
  {
    RewardFits(chain, reward) && forall n: nat :: reward - 63 <= n <= reward ==> HeaderFits(chain, n)
  }

  method CountLinks(header: Header, counts: Counts) returns (r: Counts, links: nat)
    requires ByShard(counts)
    ensures r == AddHeader(counts, header) && links == r.included - counts.included
  {
    r := counts.(headers := counts.headers + 1, encoded := counts.encoded + |header.crosslinks|);
    links := 0;
    ghost var begun := r;
    for i := 0 to |header.crosslinks|
      invariant r == AddLinks(begun, header, header.crosslinks[..i]) && links == r.included - counts.included
    {
      assert header.crosslinks[..i + 1][..i] == header.crosslinks[..i];
      var shard := header.crosslinks[i];
      if Refused(header, shard) {
        r := r.(filtered := r.filtered + 1);
        continue;
      }
      r := r.(included := r.included + 1, byShard := r.byShard[shard := Get(r.byShard, shard) + 1]);
      links := links + 1;
    }
    assert header.crosslinks[..|header.crosslinks|] == header.crosslinks;
  }

  // What the inner loop has counted of a group when it stands at a number.
  ghost predicate Counting(chain: Chain, groupStart: nat, number: nat, counts: Counts, c: Counts, links: int) {
    groupStart <= number <= groupStart + 64 && ByShard(c)
    && (forall n: nat :: groupStart <= n < number ==> HeaderFits(chain, n))
    && c == Collect(chain, counts, groupStart, number) && links == number - groupStart + c.included - counts.included
  }

  lemma CountingNext(chain: Chain, groupStart: nat, number: nat, counts: Counts, c: Counts, links: int)
    requires Settled(counts) && ByShard(counts) && Counting(chain, groupStart, number, counts, c, links)
    requires number < groupStart + 64 && HeaderFits(chain, number)
    ensures var next := AddHeader(c, chain(number));
            Counting(chain, groupStart, number + 1, counts, next, links + 1 + next.included - c.included)
  {
    CollectSettles(chain, counts, groupStart, number + 1);
  }

  // The inner loop over a group. `number` is a 64-bit counter that must not reach the top.
  method CountGroup(chain: Chain, reward: Uint64, ghost groupStart: nat, counts: Counts)
    returns (r: Option<Counts>, links: nat)
    requires reward == groupStart + 63 && groupStart + 64 < U64 && RewardFits(chain, reward) && Settled(counts)
    requires ByShard(counts)
    ensures r.Some? <==> GroupFits(chain, reward)
    ensures r.Some? ==>
              r.value == Collect(chain, counts, groupStart, groupStart + 64)
              && links == 64 + r.value.included - counts.included
  {
    var number: Uint64, c := reward - 63, counts;
    links := 0;
    while number <= reward
      invariant Counting(chain, groupStart, number, counts, c, links)
      decreases groupStart + 64 - number
    {
      if !HeaderFits(chain, number) {
        return None, links;
      }
      CountingNext(chain, groupStart, number, counts, c, links);
      var next, added := CountLinks(chain(number), c);
      c, links := next, links + 1 + added;
      number := number + 1;
    }
    r := Some(c);
  }

  // One turn of the inner loop, whose 64-bit counter wraps around: it goes on at a number, has been
  // left, or was stopped by a header.
  datatype Turn = Going(number: Uint64) | Left | Stopped

  function Turned(chain: Chain, reward: Uint64, turn: Turn): Turn {
    match turn
    case Going(number) =>
      if number > reward then Left
      else if !HeaderFits(chain, number) then Stopped
      else Going(Wrap(number + 1))
    case _ => turn
  }

  function After(chain: Chain, reward: Uint64, number: Uint64, turns: nat): Turn {
    if turns == 0 then Going(number) else Turned(chain, reward, After(chain, reward, number, turns - 1))
  }

  ghost predicate AllFit(chain: Chain) {
    forall number: Uint64 :: HeaderFits(chain, number)
  }

  lemma {:induction false} TopLoopGoesOn(chain: Chain, number: Uint64, turns: nat)
    requires AllFit(chain)
    ensures After(chain, U64 - 1, number, turns) == Going(Wrap(number + turns))
  {
    if turns == 0 {
      WrapIdentity(number);
    } else {
      TopLoopGoesOn(chain, number, turns - 1);
      WrapAdd(number + turns - 1, 1);
    }
  }

  lemma {:induction false} LoopCountsUp(chain: Chain, reward: Uint64, number: Uint64, turns: nat)
    requires AllFit(chain) && reward < U64 - 1 && number + turns <= reward + 1
    ensures After(chain, reward, number, turns) == Going(number + turns)
  {
    if turns > 0 {
      LoopCountsUp(chain, reward, number, turns - 1);
      WrapIdentity(number + turns);
    }
  }

  // Over fitting headers the inner loop is left if and only if its group does not end at the top
  // of the 64-bit range. There the counter wraps to 0 and the loop's condition never fails.
  lemma InnerLoopLeaves(chain: Chain, reward: Uint64, number: Uint64)
    requires AllFit(chain) && number <= reward
    ensures (exists turns :: After(chain, reward, number, turns) == Left) <==> reward < U64 - 1
  {
    if reward < U64 - 1 {
      var turns := reward + 1 - number;
      LoopCountsUp(chain, reward, number, turns);
      assert After(chain, reward, number, turns + 1) == Left;
    } else {
      forall turns: nat ensures After(chain, reward, number, turns) != Left {
        TopLoopGoesOn(chain, number, turns);
      }
    }
  }

  // An accepted range that ends at the top has its last group there.
  lemma TopRangeNeverEnds(chain: Chain, start: Uint64, turns: nat)
    requires Accept(start, U64 - 1).Some? && AllFit(chain)
    ensures var last := Accept(start, U64 - 1).value.last;
            last == U64 - 1 && After(chain, last, last - 63, turns) == Going(Wrap(last - 63 + turns))
  {
    RewardBlocks(U64 - 1);
    assert (U64 - 1) % 64 == 63;
    TopLoopGoesOn(chain, U64 - 64, turns);
  }

  // The last header of a window's k-th group.
  function GroupEnd(start: nat, k: nat): nat {
    start + 64 * k + 63
  }

  ghost predicate AllGroupsFit(chain: Chain, start: nat, groups: nat)
    decreases groups
  {
    groups == 0 || (AllGroupsFit(chain, start, groups - 1) && GroupFits(chain, GroupEnd(start, groups - 1)))
  }

  lemma {:induction false} BadGroup(chain: Chain, start: nat, k: nat, groups: nat)
    requires k < groups && !GroupFits(chain, GroupEnd(start, k))
    ensures !AllGroupsFit(chain, start, groups)
    decreases groups
  {
    if k < groups - 1 {
      BadGroup(chain, start, k, groups - 1);
    }
  }

  // How the figures of a window hang together.
  ghost predicate Figures(i: Issuance, width: int) {
    Settled(i.counts) && ByShard(i.counts) && 64 * i.groups == width
    && i.total == width + i.counts.included && i.atto == Price(i.total)
  }

  // What the scan has when it has counted the headers from `start` up to `next`.
  ghost predicate Counted(chain: Chain, start: nat, next: nat, i: Issuance) {
    i.counts == Collect(chain, NoCounts(), start, next) && Figures(i, next - start)
  }

  // The links of a window's headers, all of them, those refused, and those paid for of a shard.
  predicate LinksPaid(chain: Chain, start: nat, next: nat, counts: Counts, shard: nat) {
    counts.encoded == SumOver(chain, start, next, Encoded())
    && counts.filtered == SumOver(chain, start, next, Refusals())
    && Get(counts.byShard, shard) == SumOver(chain, start, next, Payments(shard))
  }

  lemma LinksPaidFor(chain: Chain, none: Counts, start: nat, next: nat, shard: nat)
    requires none.encoded == none.filtered == 0 && none.byShard == map[]
    ensures LinksPaid(chain, start, next, Collect(chain, none, start, next), shard)
  {
    CollectCounts(chain, none, start, next, shard);
  }

  // What a scanned window pays for: its headers and, of the links they encode, those not refused,
  // at 3.5 ONE (35 times 10^17 atto) each.
  lemma WindowPays(chain: Chain, start: nat, next: nat, i: Issuance, shard: nat)
    requires Counted(chain, start, next, i)
    ensures LinksPaid(chain, start, next, i.counts, shard)
    ensures i.total == (next - start) + SumOver(chain, start, next, Encoded()) - SumOver(chain, start, next, Refusals())
    ensures i.atto == i.total * 35 * 100_000_000_000_000_000
  {
    var none := NoCounts();
    LinksPaidFor(chain, none, start, next, shard);
  }

  // The headers that let a window through, block by block.
  lemma {:induction false} FittingHeaders(chain: Chain, start: nat, groups: nat)
    ensures AllGroupsFit(chain, start, groups)
       <==> (forall n: nat :: start <= n < start + 64 * groups ==> chain(n).number == n && chain(n).shard == 0)
            && (forall k: nat :: k < groups ==>
                  1673 <= chain(GroupEnd(start, k)).epoch < 0x1_0000_0000_0000_0000)
    decreases groups
  {
    if groups > 0 {
      FittingHeaders(chain, start, groups - 1);
      var reward := GroupEnd(start, groups - 1);
      assert reward == start + 64 * (groups - 1) + 63;
      if AllGroupsFit(chain, start, groups) {
        forall n: nat | start <= n < start + 64 * groups ensures chain(n).number == n && chain(n).shard == 0 {
          assert n >= start + 64 * (groups - 1) ==> HeaderFits(chain, n);
        }
      }
    }
  }

  lemma GroupCounted(chain: Chain, start: nat, next: nat, i: Issuance, counts: Counts, links: nat)
    requires start <= next && Counted(chain, start, next, i)
    requires counts == Collect(chain, i.counts, next, next + 64)
    requires links == 64 + counts.included - i.counts.included
    ensures Counted(chain, start, next + 64, Issuance(i.groups + 1, counts, i.total + links, i.atto + Price(links)))
  {
    CollectOn(chain, NoCounts(), start, next, next + 64);
    CollectSettles(chain, NoCounts(), start, next + 64);
  }

  // One turn of the outer loop: the group of 64 headers from `next` on.
  method ScanGroup(chain: Chain, ghost start: nat, reward: Uint64, ghost next: nat, i: Issuance)
    returns (r: Option<Issuance>)
    requires reward == next + 63 && start <= next && next + 64 < U64 && Counted(chain, start, next, i)
    ensures r.Some? <==> GroupFits(chain, reward)
    ensures r.Some? ==> Counted(chain, start, next + 64, r.value)
  {
    if !RewardFits(chain, reward) {
      return None;
    }
    var counts, links := CountGroup(chain, reward, next, i.counts);
    if counts.None? {
      return None;
    }
    GroupCounted(chain, start, next, i, counts.value, links);
    r := Some(Issuance(i.groups + 1, counts.value, i.total + links, i.atto + Price(links)));
  }

  lemma NothingCounted(chain: Chain, start: nat, i: Issuance)
    requires i == Issuance(0, NoCounts(), 0, 0)
    ensures Counted(chain, start, start, i) && AllGroupsFit(chain, start, 0)
  {
  }

  // What one turn of the outer loop keeps.
  ghost predicate Scanned(chain: Chain, start: nat, k: nat, next: nat, i: Issuance) {
    next == start + 64 * k && AllGroupsFit(chain, start, k) && Counted(chain, start, next, i)
  }

  lemma ScannedNext(chain: Chain, start: nat, k: nat, next: nat, i: Issuance, more: Issuance)
    requires Scanned(chain, start, k, next, i) && GroupFits(chain, next + 63) && Counted(chain, start, next + 64, more)
    ensures Scanned(chain, start, k + 1, next + 64, more)
  {
    assert GroupEnd(start, k) == next + 63;
  }

  // How many groups an accepted range has.
  function GroupsIn(start: Uint64, end: Uint64): nat
    requires Accept(start, end).Some?
  {
    AcceptedWindow(start, end);
    (Accept(start, end).value.last + 1 - start) / 64
  }

  lemma LastGroup(start: Uint64, end: Uint64)
    requires Accept(start, end).Some? && end < U64 - 1
    ensures var last := Accept(start, end).value.last;
            GroupsIn(start, end) > 0 && last + 1 == start + 64 * GroupsIn(start, end) && last + 64 < U64
    ensures Accept(start, end).value.first == start + 63
  {
    AcceptedWindow(start, end);
    var last := Accept(start, end).value.last;
    var q := last / 64;
    assert last == 64 * q + 63 && last < U64 - 1;
  }

  // The scan of an accepted range that ends below the top of the 64-bit range. Every block number
  // stays within 64 bits, and the guard against wrapping is never needed.
  method Scan(chain: Chain, start: Uint64, end: Uint64) returns (r: Option<Issuance>)
    requires end < U64 - 1
    ensures r.Some? <==> Accept(start, end).Some? && AllGroupsFit(chain, start, GroupsIn(start, end))
    ensures r.Some? ==> Counted(chain, start, Accept(start, end).value.last + 1, r.value)
  {
    var window := Accept(start, end);
    if window.None? { return None; }
    LastGroup(start, end);
    ghost var next;
    r, next := ScanWindow(chain, start, window.value.first, window.value.last, GroupsIn(start, end));
    if r.Some? {
      WindowDone(chain, start, next, window.value.last + 1, r.value);
    }
  }

  lemma WindowDone(chain: Chain, start: nat, next: nat, stop: nat, i: Issuance)
    requires next == stop && Counted(chain, start, next, i)
    ensures Counted(chain, start, stop, i)
  {
  }

  // The outer loop, over the reward blocks of a window.
  method ScanWindow(chain: Chain, start: Uint64, first: Uint64, last: Uint64, ghost groups: nat)
    returns (r: Option<Issuance>, ghost next: nat)
    requires groups > 0 && first == start + 63 && last + 1 == start + 64 * groups && last + 64 < U64
    ensures r.Some? <==> AllGroupsFit(chain, start, groups)
    ensures r.Some? ==> next == last + 1 && Counted(chain, start, next, r.value)
  {
    var issuance := Issuance(0, NoCounts(), 0, 0);
    var reward: Uint64 := first;
    ghost var k: nat := 0;
    next := start;
    NothingCounted(chain, start, issuance);
    while reward <= last
      invariant k <= groups && next == start + 64 * k && reward == next + 63
      invariant Scanned(chain, start, k, next, issuance)
      decreases groups - k
    {
      var group := ScanGroup(chain, start, reward, next, issuance);
      if group.None? {
        assert reward == GroupEnd(start, k);
        BadGroup(chain, start, k, groups);
        return None, next;
      }
      ScannedNext(chain, start, k, next, issuance, group.value);
      issuance := group.value;
      if reward > U64 - 1 - 64 {
        assert false;
      }
      reward, next, k := reward + 64, next + 64, k + 1;
    }
    r := Some(issuance);
  }

  // ---- windows put together --------------------------------------------

  function PlusCounts(a: Counts, b: Counts): Counts {
    Counts(a.headers + b.headers, a.encoded + b.encoded, a.filtered + b.filtered, a.included + b.included,
           PlusMaps(a.byShard, b.byShard))
  }

  lemma PlusPut(a: map<nat, int>, b: map<nat, int>, shard: nat)
    ensures PlusMaps(a, CountOne(b, shard)) == CountOne(PlusMaps(a, b), shard)
  {
  }

  lemma LinkAdds(a: Counts, b: Counts, header: Header, shard: nat)
    ensures AddLink(PlusCounts(a, b), header, shard) == PlusCounts(a, AddLink(b, header, shard))
  {
    if !Refused(header, shard) {
      PlusPut(a.byShard, b.byShard, shard);
    }
  }

  lemma {:induction false} LinksAdd(a: Counts, b: Counts, header: Header, links: seq<nat>)
    ensures AddLinks(PlusCounts(a, b), header, links) == PlusCounts(a, AddLinks(b, header, links))
    decreases |links|
  {
    if links != [] {
      var front, last := links[..|links| - 1], links[|links| - 1];
      LinksAdd(a, b, header, front);
      LinkAdds(a, AddLinks(b, header, front), header, last);
    }
  }

  lemma HeadedAdds(a: Counts, b: Counts, header: Header)
    ensures Headed(PlusCounts(a, b), header) == PlusCounts(a, Headed(b, header))
  {
  }

  lemma {:induction false} CountsAdd(chain: Chain, a: Counts, b: Counts, from: nat, stop: nat)
    ensures Collect(chain, PlusCounts(a, b), from, stop) == PlusCounts(a, Collect(chain, b, from, stop))
    decreases stop
  {
    if from < stop {
      CountsAdd(chain, a, b, from, stop - 1);
      var header := chain(stop - 1);
      var d := Collect(chain, b, from, stop - 1);
      HeadedAdds(a, d, header);
      LinksAdd(a, Headed(d, header), header, header.crosslinks);
    }
  }

  lemma PlusNone(a: Counts)
    ensures PlusCounts(a, NoCounts()) == a
  {
    assert PlusMaps(a.byShard, map[]) == a.byShard;
  }

  lemma CollectAdds(chain: Chain, start: nat, middle: nat, stop: nat)
    requires start <= middle <= stop
    ensures Collect(chain, NoCounts(), start, stop)
         == PlusCounts(Collect(chain, NoCounts(), start, middle), Collect(chain, NoCounts(), middle, stop))
  {
    var first := Collect(chain, NoCounts(), start, middle);
    CollectOn(chain, NoCounts(), start, middle, stop);
    PlusNone(first);
    CountsAdd(chain, first, NoCounts(), middle, stop);
  }

  // Two windows that touch at a group boundary add up, in every figure, to the window of both.
  lemma WindowsAdd(chain: Chain, start: nat, middle: nat, stop: nat, x: Issuance, y: Issuance, both: Issuance)
    requires start <= middle <= stop
    requires Counted(chain, start, middle, x) && Counted(chain, middle, stop, y) && Counted(chain, start, stop, both)
    ensures both.counts == PlusCounts(x.counts, y.counts)
    ensures both.groups == x.groups + y.groups && both.total == x.total + y.total && both.atto == x.atto + y.atto
  {
    CollectAdds(chain, start, middle, stop);
    assert both.counts.included == x.counts.included + y.counts.included;
  }
}
