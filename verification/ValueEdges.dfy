/** Value moved by a call trace: the walk that lists its edges, and the summary of what the
    recipients of a distribution still hold. */
module ValueEdges {
  import opened Base
  import opened Totals

  type Address = nat

  datatype Call = Call(selfDestruct: bool, source: Address, target: Address, value: nat, failed: bool, calls: seq<Call>)

  // A frame as the walk meets it: at its depth, effective unless it or a frame above it failed.
  datatype Frame = Frame(selfDestruct: bool, source: Address, target: Address, value: nat, depth: nat, error: bool,
                         effective: bool)

  // A frame that moves value, with its place in the walk.
  datatype Edge = Edge(index: nat, frame: Frame)

  function Frames(call: Call, failedAncestor: bool, depth: nat): (frames: seq<Frame>)
    ensures frames != []
    decreases call
  {
    var failed := failedAncestor || call.failed;
    [Frame(call.selfDestruct, call.source, call.target, call.value, depth, call.failed, !failed)]
    + AllFrames(call.calls, failed, depth + 1)
  }

  function AllFrames(calls: seq<Call>, failedAncestor: bool, depth: nat): seq<Frame>
    decreases calls
  {
    if calls == [] then [] else Frames(calls[0], failedAncestor, depth) + AllFrames(calls[1..], failedAncestor, depth)
  }

  // The record of one transaction.
  datatype Record = Record(calls: nat, failedCalls: nat, positive: nat, effective: nat, effectiveValue: nat,
                           destructs: nat, destructValue: nat, edges: seq<Edge>)

  const NO_RECORD := Record(0, 0, 0, 0, 0, 0, 0, [])

  function AddFrame(r: Record, f: Frame): Record {
    var counted := r.(calls := r.calls + 1, failedCalls := r.failedCalls + if f.error then 1 else 0);
    if f.value == 0 then counted
    else
      var listed := counted.(positive := counted.positive + 1, edges := counted.edges + [Edge(counted.calls, f)]);
      if !f.effective then listed
      else
        var moved := listed.(effective := listed.effective + 1, effectiveValue := listed.effectiveValue + f.value);
        if f.selfDestruct then moved.(destructs := moved.destructs + 1, destructValue := moved.destructValue + f.value)
        else moved
  }

  function AddFrames(r: Record, frames: seq<Frame>): Record
    decreases |frames|
  {
    if frames == [] then r else AddFrame(AddFrames(r, frames[..|frames| - 1]), frames[|frames| - 1])
  }

  lemma {:induction false} AddFramesJoined(r: Record, u: seq<Frame>, v: seq<Frame>)
    ensures AddFrames(r, u + v) == AddFrames(AddFrames(r, u), v)
    decreases |v|
  {
    if v == [] {
      assert u + v == u;
    } else {
      assert (u + v)[..|u + v| - 1] == u + v[..|v| - 1];
      AddFramesJoined(r, u, v[..|v| - 1]);
    }
  }

  lemma AddFramesFirst(r: Record, f: Frame)
    ensures AddFrames(r, [f]) == AddFrame(r, f)
  {
    assert [f][..0] == [];
  }

  class Walker {
    var record: Record

    constructor ()
      ensures record == NO_RECORD
    {
      record := NO_RECORD;
    }

    // `walk`: the record is updated before the calls below are walked.
    method Walk(call: Call, failedAncestor: bool, depth: nat)
      modifies this
      ensures record == AddFrames(old(record), Frames(call, failedAncestor, depth))
      decreases call
    {
      var failed := failedAncestor || call.failed;
      var own := Frame(call.selfDestruct, call.source, call.target, call.value, depth, call.failed, !failed);
      AddFramesFirst(record, own);
      AddFramesJoined(record, [own], AllFrames(call.calls, failed, depth + 1));
      Visit(own);
      WalkAll(call.calls, failed, depth + 1);
    }

    method WalkAll(calls: seq<Call>, failedAncestor: bool, depth: nat)
      modifies this
      ensures record == AddFrames(old(record), AllFrames(calls, failedAncestor, depth))
      decreases calls
    {
      ghost var goal := AddFrames(record, AllFrames(calls, failedAncestor, depth));
      for i := 0 to |calls|
        invariant AddFrames(record, AllFrames(calls[i..], failedAncestor, depth)) == goal
      {
        assert calls[i..][1..] == calls[i + 1..];
        AddFramesJoined(record, Frames(calls[i], failedAncestor, depth),
                        AllFrames(calls[i + 1..], failedAncestor, depth));
        Walk(calls[i], failedAncestor, depth);
      }
    }

    method Visit(frame: Frame)
      modifies this
      ensures record == AddFrame(old(record), frame)
    {
      record := record.(calls := record.calls + 1);
      if frame.error {
        record := record.(failedCalls := record.failedCalls + 1);
      }
      if frame.value > 0 {
        record := record.(positive := record.positive + 1);
        if frame.effective {
          record := record.(effective := record.effective + 1, effectiveValue := record.effectiveValue + frame.value);
        }
        if frame.effective && frame.selfDestruct {
          record := record.(destructs := record.destructs + 1, destructValue := record.destructValue + frame.value);
        }
        record := record.(edges := record.edges + [Edge(record.calls, frame)]);
      }
    }
  }

  // ---- what value a trace moves ----------------------------------------

  datatype Payment = Payment(source: Address, target: Address, value: nat)

  // A frame that fails undoes what it and the frames below it paid.
  function Settled(call: Call): seq<Payment>
    decreases call
  {
    if call.failed then []
    else (if call.value > 0 then [Payment(call.source, call.target, call.value)] else []) + AllSettled(call.calls)
  }

  function AllSettled(calls: seq<Call>): seq<Payment>
    decreases calls
  {
    if calls == [] then [] else Settled(calls[0]) + AllSettled(calls[1..])
  }

  function Effective(frames: seq<Frame>): seq<Payment>
    decreases |frames|
  {
    if frames == [] then []
    else
      var f := frames[0];
      (if f.effective && f.value > 0 then [Payment(f.source, f.target, f.value)] else []) + Effective(frames[1..])
  }

  lemma {:induction false} EffectiveJoined(u: seq<Frame>, v: seq<Frame>)
    ensures Effective(u + v) == Effective(u) + Effective(v)
    decreases |u|
  {
    if u == [] {
      assert u + v == v;
    } else {
      assert (u + v)[1..] == u[1..] + v;
      EffectiveJoined(u[1..], v);
    }
  }

  lemma {:induction false} FramesSettle(call: Call, failedAncestor: bool, depth: nat)
    ensures Effective(Frames(call, failedAncestor, depth)) == if failedAncestor then [] else Settled(call)
    decreases call
  {
    var failed := failedAncestor || call.failed;
    var own := Frame(call.selfDestruct, call.source, call.target, call.value, depth, call.failed, !failed);
    AllFramesSettle(call.calls, failed, depth + 1);
    EffectiveJoined([own], AllFrames(call.calls, failed, depth + 1));
    assert [own][1..] == [];
  }

  lemma {:induction false} AllFramesSettle(calls: seq<Call>, failedAncestor: bool, depth: nat)
    ensures Effective(AllFrames(calls, failedAncestor, depth)) == if failedAncestor then [] else AllSettled(calls)
    decreases calls
  {
    if calls != [] {
      FramesSettle(calls[0], failedAncestor, depth);
      AllFramesSettle(calls[1..], failedAncestor, depth);
      EffectiveJoined(Frames(calls[0], failedAncestor, depth), AllFrames(calls[1..], failedAncestor, depth));
    }
  }

  // ---- the walk in terms of paths --------------------------------------

  // Where a call stands below a root: which call to take at every depth.
  type Path = seq<nat>

  predicate Reaches(call: Call, path: Path)
    decreases call
  {
    path == [] || (path[0] < |call.calls| && Reaches(call.calls[path[0]], path[1..]))
  }

  function Reached(call: Call, path: Path): Call
    requires Reaches(call, path)
    decreases call
  {
    if path == [] then call else Reached(call.calls[path[0]], path[1..])
  }

  // A call on the way failed, the last one included.
  predicate FailsOn(call: Call, path: Path)
    requires Reaches(call, path)
    decreases call
  {
    call.failed || (path != [] && FailsOn(call.calls[path[0]], path[1..]))
  }

  function Size(call: Call): nat
    decreases call
  {
    1 + SizeOfAll(call.calls)
  }

  function SizeOfAll(calls: seq<Call>): nat
    decreases calls
  {
    if calls == [] then 0 else Size(calls[0]) + SizeOfAll(calls[1..])
  }

  // How many calls come before the reached one.
  function Before(call: Call, path: Path): nat
    requires Reaches(call, path)
    decreases call
  {
    if path == [] then 0 else 1 + SizeOfAll(call.calls[..path[0]]) + Before(call.calls[path[0]], path[1..])
  }

  lemma {:induction false} FramesCounted(call: Call, failedAncestor: bool, depth: nat)
    ensures |Frames(call, failedAncestor, depth)| == Size(call)
    decreases call
  {
    AllFramesCounted(call.calls, failedAncestor || call.failed, depth + 1);
  }

  lemma {:induction false} AllFramesCounted(calls: seq<Call>, failedAncestor: bool, depth: nat)
    ensures |AllFrames(calls, failedAncestor, depth)| == SizeOfAll(calls)
    decreases calls
  {
    if calls != [] {
      FramesCounted(calls[0], failedAncestor, depth);
      AllFramesCounted(calls[1..], failedAncestor, depth);
    }
  }

  // The frames of the k-th of some calls come after those of the calls before it.
  lemma {:induction false} FramesOfCall(calls: seq<Call>, failedAncestor: bool, depth: nat, k: nat, j: nat)
    requires k < |calls| && j < |Frames(calls[k], failedAncestor, depth)|
    ensures SizeOfAll(calls[..k]) + j < |AllFrames(calls, failedAncestor, depth)|
    ensures AllFrames(calls, failedAncestor, depth)[SizeOfAll(calls[..k]) + j]
         == Frames(calls[k], failedAncestor, depth)[j]
    decreases k
  {
    if k > 0 {
      assert calls[..k][1..] == calls[1..][..k - 1];
      FramesOfCall(calls[1..], failedAncestor, depth, k - 1, j);
      FramesCounted(calls[0], failedAncestor, depth);
    }
  }

  // The call at the end of a path has one frame: it stands after the frames of the calls before it,
  // its depth is the length of the path, and it is effective if and only if no call on the path
  // failed.
  lemma {:induction false} FrameAtPath(call: Call, path: Path, failedAncestor: bool, depth: nat)
    requires Reaches(call, path)
    ensures Before(call, path) < |Frames(call, failedAncestor, depth)|
    ensures var c := Reached(call, path);
            Frames(call, failedAncestor, depth)[Before(call, path)]
            == Frame(c.selfDestruct, c.source, c.target, c.value, depth + |path|, c.failed,
                     !failedAncestor && !FailsOn(call, path))
    decreases call
  {
    if path != [] {
      var failed := failedAncestor || call.failed;
      FrameAtPath(call.calls[path[0]], path[1..], failed, depth + 1);
      FramesOfCall(call.calls, failed, depth + 1, path[0], Before(call.calls[path[0]], path[1..]));
    }
  }

  // Every frame is that of some path.
  lemma {:induction false} PathOfFrame(call: Call, i: nat) returns (path: Path)
    requires i < Size(call)
    ensures Reaches(call, path) && Before(call, path) == i
    decreases call
  {
    path := [];
    if i > 0 {
      var k, rest := CallOfFrame(call.calls, i - 1);
      var below := PathOfFrame(call.calls[k], rest);
      path := [k] + below;
      assert path[1..] == below;
    }
  }

  lemma {:induction false} CallOfFrame(calls: seq<Call>, i: nat) returns (k: nat, rest: nat)
    requires i < SizeOfAll(calls)
    ensures k < |calls| && rest < Size(calls[k]) && SizeOfAll(calls[..k]) + rest == i
    decreases |calls|
  {
    if i < Size(calls[0]) {
      k, rest := 0, i;
    } else {
      k, rest := CallOfFrame(calls[1..], i - Size(calls[0]));
      k := k + 1;
      assert calls[..k][1..] == calls[1..][..k - 1];
    }
  }

  function Failing(): Frame -> bool {
    (f: Frame) => f.error
  }

  function Moving(): Frame -> bool {
    (f: Frame) => f.value > 0
  }

  // A contract that went away and paid out what it held.
  function PayingOut(): Frame -> bool {
    (f: Frame) => f.selfDestruct && f.value > 0 && f.effective
  }

  function PaidOut(frames: seq<Frame>): nat
    decreases |frames|
  {
    if frames == [] then 0
    else PaidOut(frames[..|frames| - 1]) + if PayingOut()(frames[|frames| - 1]) then frames[|frames| - 1].value else 0
  }

  // The counters of a record over its frames.
  lemma {:induction false} FramesRecorded(frames: seq<Frame>)
    ensures var r := AddFrames(NO_RECORD, frames);
            r.calls == |frames| && r.failedCalls == CountWhere(frames, Failing())
            && r.positive == |r.edges| == CountWhere(frames, Moving())
            && r.destructs == CountWhere(frames, PayingOut()) && r.destructValue == PaidOut(frames)
    decreases |frames|
  {
    if frames != [] {
      FramesRecorded(frames[..|frames| - 1]);
    }
  }

  // Every edge carries the frame at its index, counted from 1, and the edges are in that order.
  ghost predicate Placed(edges: seq<Edge>, frames: seq<Frame>) {
    (forall k :: 0 <= k < |edges| ==> 0 < edges[k].index <= |frames| && edges[k].frame == frames[edges[k].index - 1])
    && forall k, l :: 0 <= k < l < |edges| ==> edges[k].index < edges[l].index
  }

  lemma StillPlaced(edges: seq<Edge>, frames: seq<Frame>, f: Frame)
    requires Placed(edges, frames)
    ensures Placed(edges, frames + [f])
  {
  }

  lemma EdgePlaced(edges: seq<Edge>, frames: seq<Frame>, f: Frame)
    requires Placed(edges, frames)
    ensures Placed(edges + [Edge(|frames| + 1, f)], frames + [f])
  {
  }

  lemma {:induction false} EdgesPlaced(frames: seq<Frame>)
    ensures Placed(AddFrames(NO_RECORD, frames).edges, frames)
    decreases |frames|
  {
    if frames != [] {
      var front, last := frames[..|frames| - 1], frames[|frames| - 1];
      EdgesPlaced(front);
      FramesRecorded(front);
      StillPlaced(AddFrames(NO_RECORD, front).edges, front, last);
      EdgePlaced(AddFrames(NO_RECORD, front).edges, front, last);
      assert frames == front + [last];
    }
  }

  // ---- what is paid ----------------------------------------------------

  function Paid(payments: seq<Payment>): nat
    decreases |payments|
  {
    if payments == [] then 0 else payments[0].value + Paid(payments[1..])
  }

  lemma {:induction false} PaidJoined(u: seq<Payment>, v: seq<Payment>)
    ensures Paid(u + v) == Paid(u) + Paid(v)
    decreases |u|
  {
    if u == [] {
      assert u + v == v;
    } else {
      assert (u + v)[1..] == u[1..] + v;
      PaidJoined(u[1..], v);
    }
  }

  // The payments behind the effective edges of a record, in order.
  function EdgePayments(edges: seq<Edge>): seq<Payment>
    decreases |edges|
  {
    if edges == [] then []
    else
      var f := edges[|edges| - 1].frame;
      EdgePayments(edges[..|edges| - 1]) + if f.effective then [Payment(f.source, f.target, f.value)] else []
  }

  lemma FramePayments(r: Record, f: Frame)
    ensures EdgePayments(AddFrame(r, f).edges) == EdgePayments(r.edges) + Effective([f])
    ensures AddFrame(r, f).effectiveValue == r.effectiveValue + Paid(Effective([f]))
    ensures AddFrame(r, f).effective == r.effective + |Effective([f])|
  {
    assert [f][1..] == [];
    if f.value > 0 {
      var edges := AddFrame(r, f).edges;
      assert edges[..|edges| - 1] == r.edges;
    }
  }

  lemma {:induction false} RecordPayments(frames: seq<Frame>)
    ensures EdgePayments(AddFrames(NO_RECORD, frames).edges) == Effective(frames)
    ensures AddFrames(NO_RECORD, frames).effectiveValue == Paid(Effective(frames))
    ensures AddFrames(NO_RECORD, frames).effective == |Effective(frames)|
    decreases |frames|
  {
    if frames != [] {
      var front, last := frames[..|frames| - 1], frames[|frames| - 1];
      RecordPayments(front);
      FramePayments(AddFrames(NO_RECORD, front), last);
      assert frames == front + [last];
      EffectiveJoined(front, [last]);
      PaidJoined(Effective(front), Effective([last]));
    }
  }

  // The effective edges of a walked trace are the payments that survive its failed frames, in
  // their order, and the effective value is their sum.
  lemma WalkSettles(root: Call)
    ensures var r := AddFrames(NO_RECORD, Frames(root, false, 0));
            EdgePayments(r.edges) == Settled(root) && r.effectiveValue == Paid(Settled(root))
            && r.effective == |Settled(root)|
  {
    FramesSettle(root, false, 0);
    RecordPayments(Frames(root, false, 0));
  }

  // ---- what a distribution's recipients still hold ---------------------

  datatype Summary = Summary(recipients: nat, distributed: int, held: int, intact: nat, zero: nat, partial: nat,
                             nonceZeroMoved: nat, noncePositiveMoved: nat)

  // The payments a contract made in a distribution, as one amount per recipient.
  function Received(payments: seq<Payment>, contract: Address): (received: map<Address, int>)
    ensures forall a :: a in received ==> received[a] >= 0
    decreases |payments|
  {
    if payments == [] then map[]
    else
      var before, p := Received(payments[..|payments| - 1], contract), payments[|payments| - 1];
      if p.source == contract then before[p.target := Get(before, p.target) + p.value] else before
  }

  function PaidBy(payments: seq<Payment>, contract: Address): nat
    decreases |payments|
  {
    if payments == [] then 0
    else
      var p := payments[|payments| - 1];
      PaidBy(payments[..|payments| - 1], contract) + if p.source == contract then p.value else 0
  }

  lemma {:induction false} ReceivedIsPaid(payments: seq<Payment>, contract: Address)
    ensures SumMap(Received(payments, contract)) == PaidBy(payments, contract)
    decreases |payments|
  {
    if payments != [] {
      var front, p := payments[..|payments| - 1], payments[|payments| - 1];
      ReceivedIsPaid(front, contract);
      SumMapPut(Received(front, contract), p.target, Get(Received(front, contract), p.target) + p.value);
    }
  }

  predicate AllPositive(edges: seq<Edge>) {
    forall i :: 0 <= i < |edges| ==> edges[i].frame.value > 0
  }

  // Only frames that move value become edges.
  lemma {:induction false} WalkedPositive(r: Record, frames: seq<Frame>)
    requires AllPositive(r.edges)
    ensures AllPositive(AddFrames(r, frames).edges)
    decreases |frames|
  {
    if frames != [] {
      WalkedPositive(r, frames[..|frames| - 1]);
    }
  }

  // The edges of some transactions' traces, one after the other.
  function TracedEdges(roots: seq<Call>): seq<Edge>
    decreases |roots|
  {
    if roots == [] then []
    else TracedEdges(roots[..|roots| - 1]) + AddFrames(NO_RECORD, Frames(roots[|roots| - 1], false, 0)).edges
  }

  lemma {:induction false} TracedPositive(roots: seq<Call>)
    ensures AllPositive(TracedEdges(roots))
    decreases |roots|
  {
    if roots != [] {
      TracedPositive(roots[..|roots| - 1]);
      WalkedPositive(NO_RECORD, Frames(roots[|roots| - 1], false, 0));
    }
  }

  // The loop over the transactions; edge indexes start again with each.
  method TraceTransactions(roots: seq<Call>) returns (edges: seq<Edge>)
    ensures edges == TracedEdges(roots)
  {
    edges := [];
    for i := 0 to |roots|
      invariant edges == TracedEdges(roots[..i])
    {
      assert roots[..i + 1][..i] == roots[..i];
      var walker := new Walker();
      walker.Walk(roots[i], false, 0);
      edges := edges + walker.record.edges;
    }
    assert roots[..|roots|] == roots;
  }

  // The edges of a distribution: effective, from the contract, and chosen by incident and role.
  predicate Distributes(edge: Edge, contract: Address, chosen: Edge -> bool) {
    edge.frame.effective && edge.frame.source == contract && chosen(edge)
  }

  function Distribution(edges: seq<Edge>, contract: Address, chosen: Edge -> bool): seq<Payment>
    decreases |edges|
  {
    if edges == [] then []
    else
      var last := edges[|edges| - 1];
      Distribution(edges[..|edges| - 1], contract, chosen)
      + if Distributes(last, contract, chosen) then [Payment(contract, last.frame.target, last.frame.value)] else []
  }

  // All payments that the traces leave standing.
  function SettledBy(roots: seq<Call>): seq<Payment>
    decreases |roots|
  {
    if roots == [] then [] else SettledBy(roots[..|roots| - 1]) + Settled(roots[|roots| - 1])
  }

  // What a contract paid to an address.
  function PaidTo(payments: seq<Payment>, contract: Address, a: Address): nat
    decreases |payments|
  {
    if payments == [] then 0
    else
      var p := payments[|payments| - 1];
      PaidTo(payments[..|payments| - 1], contract, a) + if p.source == contract && p.target == a then p.value else 0
  }

  lemma {:induction false} ReceivedByAddress(payments: seq<Payment>, contract: Address, a: Address)
    ensures Get(Received(payments, contract), a) == PaidTo(payments, contract, a)
    decreases |payments|
  {
    if payments != [] {
      ReceivedByAddress(payments[..|payments| - 1], contract, a);
    }
  }

  lemma {:induction false} PaidToJoined(u: seq<Payment>, v: seq<Payment>, contract: Address, a: Address)
    ensures PaidTo(u + v, contract, a) == PaidTo(u, contract, a) + PaidTo(v, contract, a)
    decreases |v|
  {
    if v == [] {
      assert u + v == u;
    } else {
      assert (u + v)[..|u + v| - 1] == u + v[..|v| - 1];
      PaidToJoined(u, v[..|v| - 1], contract, a);
    }
  }

  lemma {:induction false} EdgePaymentsJoined(u: seq<Edge>, v: seq<Edge>)
    ensures EdgePayments(u + v) == EdgePayments(u) + EdgePayments(v)
    decreases |v|
  {
    if v == [] {
      assert u + v == u;
    } else {
      assert (u + v)[..|u + v| - 1] == u + v[..|v| - 1];
      EdgePaymentsJoined(u, v[..|v| - 1]);
    }
  }

  // The edges of some traces are their settled payments.
  lemma {:induction false} TracesSettle(roots: seq<Call>)
    ensures EdgePayments(TracedEdges(roots)) == SettledBy(roots)
    decreases |roots|
  {
    if roots != [] {
      var front, last := roots[..|roots| - 1], roots[|roots| - 1];
      TracesSettle(front);
      WalkSettles(last);
      EdgePaymentsJoined(TracedEdges(front), AddFrames(NO_RECORD, Frames(last, false, 0)).edges);
    }
  }

  // A distribution by edges that are chosen and one by the other edges are together what the
  // contract paid.
  lemma {:induction false} DistributionsSplit(edges: seq<Edge>, contract: Address, chosen: Edge -> bool,
                                              others: Edge -> bool, a: Address)
    requires forall e :: e in edges ==> chosen(e) != others(e)
    ensures PaidTo(Distribution(edges, contract, chosen), contract, a)
            + PaidTo(Distribution(edges, contract, others), contract, a)
         == PaidTo(EdgePayments(edges), contract, a)
    decreases |edges|
  {
    if edges != [] {
      var front, last := edges[..|edges| - 1], edges[|edges| - 1];
      assert last in edges;
      DistributionsSplit(front, contract, chosen, others, a);
      DistributionNext(edges, contract, chosen, a);
      DistributionNext(edges, contract, others, a);
      EdgePaymentNext(edges, contract, a);
    }
  }

  function EdgePays(edge: Edge, contract: Address, a: Address): nat {
    if edge.frame.effective && edge.frame.source == contract && edge.frame.target == a then edge.frame.value else 0
  }

  lemma DistributionNext(edges: seq<Edge>, contract: Address, chosen: Edge -> bool, a: Address)
    requires edges != []
    ensures var front, last := edges[..|edges| - 1], edges[|edges| - 1];
            PaidTo(Distribution(edges, contract, chosen), contract, a)
            == PaidTo(Distribution(front, contract, chosen), contract, a)
               + if chosen(last) then EdgePays(last, contract, a) else 0
  {
    var front, last := edges[..|edges| - 1], edges[|edges| - 1];
    var one := [Payment(contract, last.frame.target, last.frame.value)];
    PaidToJoined(Distribution(front, contract, chosen), one, contract, a);
    PaidToJoined(Distribution(front, contract, chosen), [], contract, a);
  }

  lemma EdgePaymentNext(edges: seq<Edge>, contract: Address, a: Address)
    requires edges != []
    ensures var front, last := edges[..|edges| - 1], edges[|edges| - 1];
            PaidTo(EdgePayments(edges), contract, a)
            == PaidTo(EdgePayments(front), contract, a) + EdgePays(last, contract, a)
  {
    var front, f := edges[..|edges| - 1], edges[|edges| - 1].frame;
    PaidToJoined(EdgePayments(front), [Payment(f.source, f.target, f.value)], contract, a);
    PaidToJoined(EdgePayments(front), [], contract, a);
  }

  lemma {:induction false} NothingChosen(edges: seq<Edge>, contract: Address, chosen: Edge -> bool)
    requires forall e :: e in edges ==> !chosen(e)
    ensures Distribution(edges, contract, chosen) == []
    decreases |edges|
  {
    if edges != [] {
      assert edges[|edges| - 1] in edges;
      NothingChosen(edges[..|edges| - 1], contract, chosen);
    }
  }

  // A choice of edges and its opposite share between them what the contract's settled payments gave
  // a recipient.
  lemma DistributionSettles(roots: seq<Call>, contract: Address, chosen: Edge -> bool, others: Edge -> bool, a: Address)
    requires forall e :: e in TracedEdges(roots) ==> chosen(e) != others(e)
    ensures Get(Received(Distribution(TracedEdges(roots), contract, chosen), contract), a)
            + Get(Received(Distribution(TracedEdges(roots), contract, others), contract), a)
         == PaidTo(SettledBy(roots), contract, a)
  {
    var edges := TracedEdges(roots);
    DistributionsSplit(edges, contract, chosen, others, a);
    TracesSettle(roots);
    ReceivedByAddress(Distribution(edges, contract, chosen), contract, a);
    ReceivedByAddress(Distribution(edges, contract, others), contract, a);
  }

  // Where every edge is chosen the recipient gets all of it.
  lemma WholeDistribution(roots: seq<Call>, contract: Address, chosen: Edge -> bool, a: Address)
    requires forall e :: e in TracedEdges(roots) ==> chosen(e)
    ensures Get(Received(Distribution(TracedEdges(roots), contract, chosen), contract), a)
         == PaidTo(SettledBy(roots), contract, a)
  {
    var none := (e: Edge) => false;
    DistributionSettles(roots, contract, chosen, none, a);
    NothingChosen(TracedEdges(roots), contract, none);
  }

  predicate PositiveAmounts(received: map<Address, int>) {
    forall a :: a in received ==> received[a] > 0
  }

  // What one more edge adds.
  lemma DistributionMore(edges: seq<Edge>, last: Edge, contract: Address, chosen: Edge -> bool)
    ensures var before := Received(Distribution(edges, contract, chosen), contract);
            var after := Received(Distribution(edges + [last], contract, chosen), contract);
            if Distributes(last, contract, chosen)
            then after == before[last.frame.target := Get(before, last.frame.target) + last.frame.value]
            else after == before
  {
    assert (edges + [last])[..|edges|] == edges;
    var payments := Distribution(edges, contract, chosen);
    if Distributes(last, contract, chosen) {
      assert (payments + [Payment(contract, last.frame.target, last.frame.value)])[..|payments|] == payments;
    } else {
      assert payments + [] == payments;
    }
  }

  lemma {:induction false} DistributionPositive(edges: seq<Edge>, contract: Address, chosen: Edge -> bool)
    requires AllPositive(edges)
    ensures PositiveAmounts(Received(Distribution(edges, contract, chosen), contract))
    decreases |edges|
  {
    if edges != [] {
      var front, last := edges[..|edges| - 1], edges[|edges| - 1];
      assert edges == front + [last];
      DistributionPositive(front, contract, chosen);
      DistributionMore(front, last, contract, chosen);
    }
  }

  // The loop over the edges that fills the recipients' amounts.
  method CollectReceived(edges: seq<Edge>, contract: Address, chosen: Edge -> bool)
    returns (received: map<Address, int>)
    ensures received == Received(Distribution(edges, contract, chosen), contract)
    ensures SumMap(received) == PaidBy(Distribution(edges, contract, chosen), contract)
    ensures AllPositive(edges) ==> PositiveAmounts(received)
  {
    received := map[];
    for i := 0 to |edges|
      invariant received == Received(Distribution(edges[..i], contract, chosen), contract)
    {
      var edge := edges[i];
      assert edges[..i + 1] == edges[..i] + [edge];
      DistributionMore(edges[..i], edge, contract, chosen);
      if edge.frame.effective && edge.frame.source == contract && chosen(edge) {
        received := received[edge.frame.target := Get(received, edge.frame.target) + edge.frame.value];
      }
    }
    assert edges[..|edges|] == edges;
    ReceivedIsPaid(Distribution(edges, contract, chosen), contract);
    if AllPositive(edges) {
      DistributionPositive(edges, contract, chosen);
    }
  }

  // How a recipient stands: it holds all it received, nothing, or a part; and if it holds less than
  // it received, whether it has sent transactions.
  datatype Standing = Intact | Zero | Partial | MovedNonceZero | MovedNoncePositive

  predicate Stands(standing: Standing, amount: int, balance: nat, nonce: nat) {
    match standing
    case Intact => balance >= amount
    case Zero => balance == 0
    case Partial => 0 < balance < amount
    case MovedNonceZero => balance < amount && nonce == 0
    case MovedNoncePositive => balance < amount && nonce > 0
  }

  function Balance(balances: map<Address, nat>, address: Address): nat {
    if address in balances then balances[address] else 0
  }

  // The recipients of a standing.
  function Standings(standing: Standing, received: map<Address, int>, balances: map<Address, nat>,
                     nonces: map<Address, nat>): set<Address> {
    set a | a in received && Stands(standing, received[a], Balance(balances, a), Balance(nonces, a))
  }

  function Kept(amount: int, balance: int): int {
    if balance < amount then balance else amount
  }

  function KeptBy(received: map<Address, int>, balances: map<Address, nat>): map<Address, int> {
    map a | a in received :: Kept(received[a], Balance(balances, a))
  }

  // The sums over the recipients, and how many of them have each standing.
  ghost predicate Summarizes(s: Summary, received: map<Address, int>, balances: map<Address, nat>,
                             nonces: map<Address, nat>) {
    match s
    case Summary(recipients, distributed, held, intact, zero, partial, nonceZeroMoved, noncePositiveMoved) =>
      recipients == |received| && distributed == SumMap(received) && held == SumMap(KeptBy(received, balances))
      && intact == |Standings(Intact, received, balances, nonces)|
      && zero == |Standings(Zero, received, balances, nonces)|
      && partial == |Standings(Partial, received, balances, nonces)|
      && nonceZeroMoved == |Standings(MovedNonceZero, received, balances, nonces)|
      && noncePositiveMoved == |Standings(MovedNoncePositive, received, balances, nonces)|
  }

  // What one recipient adds.
  function AddRecipient(s: Summary, amount: int, balance: nat, nonce: nat): Summary {
    Summary(s.recipients + 1, s.distributed + amount, s.held + Kept(amount, balance),
            s.intact + Bit(balance >= amount), s.zero + Bit(balance == 0), s.partial + Bit(0 < balance < amount),
            s.nonceZeroMoved + Bit(balance < amount && nonce == 0),
            s.noncePositiveMoved + Bit(balance < amount && nonce > 0))
  }

  lemma KeptPut(received: map<Address, int>, balances: map<Address, nat>, address: Address, amount: int)
    requires address !in received
    ensures SumMap(KeptBy(received[address := amount], balances))
         == SumMap(KeptBy(received, balances)) + Kept(amount, Balance(balances, address))
  {
    var kept := KeptBy(received, balances);
    SumMapPut(kept, address, Kept(amount, Balance(balances, address)));
    assert KeptBy(received[address := amount], balances) == kept[address := Kept(amount, Balance(balances, address))];
  }

  lemma StandingsPut(standing: Standing, received: map<Address, int>, balances: map<Address, nat>,
                     nonces: map<Address, nat>, address: Address, amount: int)
    requires address !in received
    ensures |Standings(standing, received[address := amount], balances, nonces)|
         == |Standings(standing, received, balances, nonces)|
            + Bit(Stands(standing, amount, Balance(balances, address), Balance(nonces, address)))
  {
    SetPut(Standings(standing, received, balances, nonces),
           Standings(standing, received[address := amount], balances, nonces), address,
           Stands(standing, amount, Balance(balances, address), Balance(nonces, address)));
  }

  lemma SetPut(before: set<Address>, after: set<Address>, address: Address, added: bool)
    requires address !in before && forall a :: a in after <==> a in before || (a == address && added)
    ensures |after| == |before| + Bit(added)
  {
    assert after == if added then before + {address} else before;
  }

  lemma RecipientSummarized(s: Summary, received: map<Address, int>, balances: map<Address, nat>,
                            nonces: map<Address, nat>, address: Address, amount: int)
    requires Summarizes(s, received, balances, nonces) && address !in received
    ensures Summarizes(AddRecipient(s, amount, Balance(balances, address), Balance(nonces, address)),
                       received[address := amount], balances, nonces)
  {
    SumMapPut(received, address, amount);
    KeptPut(received, balances, address, amount);
    StandingsPut(Intact, received, balances, nonces, address, amount);
    StandingsPut(Zero, received, balances, nonces, address, amount);
    StandingsPut(Partial, received, balances, nonces, address, amount);
    StandingsPut(MovedNonceZero, received, balances, nonces, address, amount);
    StandingsPut(MovedNoncePositive, received, balances, nonces, address, amount);
  }

  lemma NothingSummarized(balances: map<Address, nat>, nonces: map<Address, nat>)
    ensures Summarizes(Summary(0, 0, 0, 0, 0, 0, 0, 0), map[], balances, nonces)
  {
    assert KeptBy(map[], balances) == map[];
  }

  // The part of a map that an iteration has visited.
  ghost predicate Visited(whole: map<Address, int>, rest: map<Address, int>, seen: map<Address, int>) {
    (forall a :: a in whole <==> a in rest || a in seen)
    && (forall a :: a in seen ==> a !in rest && seen[a] == whole[a])
    && (forall a :: a in rest ==> rest[a] == whole[a])
  }

  lemma VisitedNext(whole: map<Address, int>, rest: map<Address, int>, seen: map<Address, int>, address: Address)
    requires Visited(whole, rest, seen) && address in rest
    ensures Visited(whole, rest - {address}, seen[address := rest[address]]) && address !in seen
  {
  }

  // A recipient keeps what it received or its whole balance, whichever is less, and its standing goes
  // by balance and nonce. An account that is not there has neither.
  lemma RecipientMeans(received: map<Address, int>, balances: map<Address, nat>, nonces: map<Address, nat>, a: Address)
    requires a in received
    ensures var balance: nat := if a in balances then balances[a] else 0;
            var nonce: nat := if a in nonces then nonces[a] else 0;
            var kept, amount := KeptBy(received, balances)[a], received[a];
            kept <= amount && kept <= balance && (kept == amount || kept == balance)
            && (a in Standings(Intact, received, balances, nonces) <==> amount <= balance)
            && (a in Standings(Zero, received, balances, nonces) <==> balance == 0)
            && (a in Standings(Partial, received, balances, nonces) <==> 0 < balance < amount)
            && (a in Standings(MovedNonceZero, received, balances, nonces) <==> balance < amount && nonce == 0)
            && (a in Standings(MovedNoncePositive, received, balances, nonces) <==> balance < amount && nonce > 0)
  {
  }

  // The sums and counts over the recipients, visited in any order.
  method Summarize(received: map<Address, int>, balances: map<Address, nat>, nonces: map<Address, nat>)
    returns (s: Summary)
    ensures Summarizes(s, received, balances, nonces)
  {
    s := Summary(0, 0, 0, 0, 0, 0, 0, 0);
    var rest := received;
    ghost var seen: map<Address, int> := map[];
    NothingSummarized(balances, nonces);
    while rest != map[]
      invariant Visited(received, rest, seen) && Summarizes(s, seen, balances, nonces)
      decreases |rest|
    {
      var address :| address in rest;
      var amount := rest[address];
      VisitedNext(received, rest, seen, address);
      RecipientSummarized(s, seen, balances, nonces, address, amount);
      s := AddRecipient(s, amount, Balance(balances, address), Balance(nonces, address));
      seen := seen[address := amount];
      rest := rest - {address};
    }
    assert seen == received;
  }

  // ---- how the figures hang together -----------------------------------

  // No recipient holds more than it received; together they hold all exactly when each does.
  lemma {:induction false} HeldBound(received: map<Address, int>, balances: map<Address, nat>)
    ensures SumMap(KeptBy(received, balances)) <= SumMap(received)
    ensures SumMap(KeptBy(received, balances)) == SumMap(received)
       <==> forall a :: a in received ==> Balance(balances, a) >= received[a]
    decreases |received|
  {
    if received == map[] {
      assert KeptBy(received, balances) == map[];
    } else {
      var a :| a in received;
      var less := received - {a};
      HeldBound(less, balances);
      assert received == less[a := received[a]];
      SumMapTakesOut(received, a);
      KeptPut(less, balances, a, received[a]);
    }
  }

  lemma WholeSet(part: set<Address>, whole: set<Address>)
    requires part <= whole
    ensures |part| <= |whole| && (|part| == |whole| <==> part == whole)
  {
    assert |whole| == |part| + |whole - part| by {
      assert whole == part + (whole - part);
    }
    if |part| == |whole| {
      assert whole - part == {};
    }
  }

  lemma Partition(whole: set<Address>, a: set<Address>, b: set<Address>, c: set<Address>)
    requires forall x :: x in whole <==> x in a || x in b || x in c
    requires forall x :: x in a ==> x !in b && x !in c
    requires forall x :: x in b ==> x !in c
    ensures |whole| == |a| + |b| + |c|
  {
    assert whole == a + b + c;
    assert |a + b| == |a| + |b|;
    assert |a + b + c| == |a + b| + |c| by {
      assert (a + b) * c == {};
    }
  }

  // With positive amounts every recipient is in exactly one of three groups, those who moved
  // something are the last two, and what is held falls short of what was distributed unless all
  // recipients are intact.
  predicate Consistent(s: Summary) {
    s.intact + s.zero + s.partial == s.recipients && s.nonceZeroMoved + s.noncePositiveMoved == s.zero + s.partial
    && s.held <= s.distributed && (s.held == s.distributed <==> s.intact == s.recipients)
  }

  lemma StandingsPartition(received: map<Address, int>, balances: map<Address, nat>, nonces: map<Address, nat>)
    requires PositiveAmounts(received)
    ensures |received|
         == |Standings(Intact, received, balances, nonces)| + |Standings(Zero, received, balances, nonces)|
                          + |Standings(Partial, received, balances, nonces)|
  {
    Partition(received.Keys, Standings(Intact, received, balances, nonces), Standings(Zero, received, balances, nonces),
              Standings(Partial, received, balances, nonces));
  }

  // Those who hold less than they received.
  function Moved(received: map<Address, int>, balances: map<Address, nat>): set<Address> {
    set a | a in received && Balance(balances, a) < received[a]
  }

  lemma MovedByBalance(received: map<Address, int>, balances: map<Address, nat>, nonces: map<Address, nat>)
    requires PositiveAmounts(received)
    ensures |Moved(received, balances)|
         == |Standings(Zero, received, balances, nonces)| + |Standings(Partial, received, balances, nonces)|
  {
    Partition(Moved(received, balances), Standings(Zero, received, balances, nonces),
              Standings(Partial, received, balances, nonces), {});
  }

  lemma MovedByNonce(received: map<Address, int>, balances: map<Address, nat>, nonces: map<Address, nat>)
    ensures |Moved(received, balances)|
         == |Standings(MovedNonceZero, received, balances, nonces)|
            + |Standings(MovedNoncePositive, received, balances, nonces)|
  {
    Partition(Moved(received, balances), Standings(MovedNonceZero, received, balances, nonces),
              Standings(MovedNoncePositive, received, balances, nonces), {});
  }

  lemma IntactHoldAll(received: map<Address, int>, balances: map<Address, nat>, nonces: map<Address, nat>)
    ensures |Standings(Intact, received, balances, nonces)| == |received|
       <==> forall a :: a in received ==> Balance(balances, a) >= received[a]
  {
    var intact := Standings(Intact, received, balances, nonces);
    WholeSet(intact, received.Keys);
    forall a | a in received ensures a in intact <==> Balance(balances, a) >= received[a] {
    }
  }

  lemma SummaryConsistent(s: Summary, received: map<Address, int>, balances: map<Address, nat>,
                          nonces: map<Address, nat>)
    requires Summarizes(s, received, balances, nonces) && PositiveAmounts(received)
    ensures Consistent(s)
  {
    StandingsPartition(received, balances, nonces);
    MovedByBalance(received, balances, nonces);
    MovedByNonce(received, balances, nonces);
    HeldBound(received, balances);
    IntactHoldAll(received, balances, nonces);
  }

  // One incident's distribution, from the traces of its transactions to its figures.
  method SummarizeTraces(roots: seq<Call>, contract: Address, chosen: Edge -> bool, balances: map<Address, nat>,
                         nonces: map<Address, nat>) returns (s: Summary)
    ensures Summarizes(s, Received(Distribution(TracedEdges(roots), contract, chosen), contract), balances, nonces)
    ensures s.distributed == PaidBy(Distribution(TracedEdges(roots), contract, chosen), contract)
    ensures Consistent(s)
  {
    var edges := TraceTransactions(roots);
    var received := CollectReceived(edges, contract, chosen);
    s := Summarize(received, balances, nonces);
    TracedPositive(roots);
    SummaryConsistent(s, received, balances, nonces);
  }
}
