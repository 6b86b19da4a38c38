/** Call traces and their classification: does the debit behind a cross-shard receipt persist? */
module Trace {
  import opened Base
  import opened PrecompileInput

  type Address = nat

  const CX_PRECOMPILE: Address := 0xf9

  datatype Kind = CALL | CALLCODE | DELEGATECALL | STATICCALL | OtherKind

  // A frame of the tracer's output, with the frames it called.
  datatype Node = Node(kind: Kind, source: Address, target: Address, input: Option<Bytes>, failed: bool,
                       calls: seq<Node>)

  // What the audited receipt says, as far as a call can be compared with it.
  datatype Identity = Identity(sender: Address, receiver: Address, amount: nat, shard: nat)

  datatype Inspection = Inspection(calls: nat, completed: nat, matches: nat, completedMatches: nat,
                                   failedPaths: nat, failedMatching: nat)

  const NOTHING := Inspection(0, 0, 0, 0, 0, 0)

  function Plus(a: Inspection, b: Inspection): Inspection {
    Inspection(a.calls + b.calls, a.completed + b.completed, a.matches + b.matches,
               a.completedMatches + b.completedMatches, a.failedPaths + b.failedPaths,
               a.failedMatching + b.failedMatching)
  }

  predicate IsPrecompileCall(node: Node) {
    node.target == CX_PRECOMPILE && node.kind != OtherKind
  }

  predicate PayloadMatches(payload: Option<Payload>, sender: Address, identity: Identity) {
    payload.Some? && payload.value.amount == identity.amount && sender == identity.sender
    && payload.value.receiver == identity.receiver && payload.value.shard == identity.shard
  }

  // What one frame adds to the counters.
  function Contribution(node: Node, identity: Identity, failedAncestor: bool, sender: Address): Inspection {
    if !IsPrecompileCall(node) then NOTHING
    else
      var matches := PayloadMatches(ParseInput(node.input), sender, identity);
      var completed := !node.failed;
      Inspection(1, Bit(completed), Bit(matches), Bit(completed && matches),
                 Bit(completed && failedAncestor), Bit(completed && failedAncestor && matches))
  }

  // The sender a child runs with.
  function ChildSender(child: Node, sender: Address): Address {
    if child.kind == DELEGATECALL then sender else child.source
  }

  // What a whole subtree adds.
  function Visited(node: Node, identity: Identity, failedAncestor: bool, sender: Address, isRoot: bool): Inspection
    decreases node
  {
    Plus(Contribution(node, identity, failedAncestor, sender),
         VisitedAll(node.calls, identity, failedAncestor || (!isRoot && node.failed), sender))
  }

  function VisitedAll(nodes: seq<Node>, identity: Identity, failedAncestor: bool, sender: Address): Inspection
    decreases nodes
  {
    if nodes == [] then NOTHING
    else Plus(Visited(nodes[0], identity, failedAncestor, ChildSender(nodes[0], sender), false),
              VisitedAll(nodes[1..], identity, failedAncestor, sender))
  }

  function Inspect(root: Node, identity: Identity): Inspection {
    Visited(root, identity, false, root.source, true)
  }

  // ---- the counters updated in place -----------------------------------

  class Inspector {
    const identity: Identity
    var result: Inspection

    constructor (identity: Identity)
      ensures this.identity == identity && result == NOTHING
    {
      this.identity := identity;
      result := NOTHING;
    }

    method Count(node: Node, failedAncestor: bool, sender: Address)
      modifies this
      ensures result == Plus(old(result), Contribution(node, identity, failedAncestor, sender))
    {
      if IsPrecompileCall(node) {
        result := result.(calls := result.calls + 1);
        var matches := PayloadMatches(ParseInput(node.input), sender, identity);
        if matches {
          result := result.(matches := result.matches + 1);
        }
        if !node.failed {
          result := result.(completed := result.completed + 1);
          if matches {
            result := result.(completedMatches := result.completedMatches + 1);
          }
          if failedAncestor {
            result := result.(failedPaths := result.failedPaths + 1);
            if matches {
              result := result.(failedMatching := result.failedMatching + 1);
            }
          }
        }
      }
    }

    method Visit(node: Node, failedAncestor: bool, sender: Address, isRoot: bool)
      modifies this
      ensures result == Plus(old(result), Visited(node, identity, failedAncestor, sender, isRoot))
      decreases node
    {
      var failed := failedAncestor || (!isRoot && node.failed);
      PlusAssociates(result, Contribution(node, identity, failedAncestor, sender),
                     VisitedAll(node.calls, identity, failed, sender));
      Count(node, failedAncestor, sender);
      VisitChildren(node.calls, failed, sender);
    }

    method VisitChildren(nodes: seq<Node>, failedAncestor: bool, sender: Address)
      modifies this
      ensures result == Plus(old(result), VisitedAll(nodes, identity, failedAncestor, sender))
      decreases nodes
    {
      ghost var total := Plus(result, VisitedAll(nodes, identity, failedAncestor, sender));
      for i := 0 to |nodes|
        invariant Plus(result, VisitedAll(nodes[i..], identity, failedAncestor, sender)) == total
      {
        assert nodes[i..][1..] == nodes[i + 1..];
        PlusAssociates(result, Visited(nodes[i], identity, failedAncestor, ChildSender(nodes[i], sender), false),
                       VisitedAll(nodes[i + 1..], identity, failedAncestor, sender));
        Visit(nodes[i], failedAncestor, ChildSender(nodes[i], sender), false);
      }
    }
  }

  lemma PlusAssociates(a: Inspection, b: Inspection, c: Inspection)
    ensures Plus(Plus(a, b), c) == Plus(a, Plus(b, c))
  {
  }

  // ---- what a trace means ----------------------------------------------

  // A completed precompile call debits its sender and emits a receipt.
  datatype Transfer = Transfer(sender: Address, payload: Option<Payload>)

  function Own(node: Node, sender: Address): seq<Transfer> {
    if IsPrecompileCall(node) && !node.failed then [Transfer(sender, ParseInput(node.input))] else []
  }

  // Every receipt of a subtree: receipts survive whatever fails above them.
  function Receipts(node: Node, sender: Address): seq<Transfer>
    decreases node
  {
    Own(node, sender) + AllReceipts(node.calls, sender)
  }

  function AllReceipts(nodes: seq<Node>, sender: Address): seq<Transfer>
    decreases nodes
  {
    if nodes == [] then []
    else Receipts(nodes[0], ChildSender(nodes[0], sender)) + AllReceipts(nodes[1..], sender)
  }

  // The debits that persist: a frame that fails undoes those of its whole subtree.
  function Debits(node: Node, sender: Address): seq<Transfer>
    decreases node
  {
    if node.failed then [] else Own(node, sender) + AllDebits(node.calls, sender)
  }

  function AllDebits(nodes: seq<Node>, sender: Address): seq<Transfer>
    decreases nodes
  {
    if nodes == [] then []
    else Debits(nodes[0], ChildSender(nodes[0], sender)) + AllDebits(nodes[1..], sender)
  }

  predicate Matches(t: Transfer, identity: Identity) {
    PayloadMatches(t.payload, t.sender, identity)
  }

  function CountMatching(ts: seq<Transfer>, identity: Identity): nat
    decreases |ts|
  {
    if ts == [] then 0 else Bit(Matches(ts[0], identity)) + CountMatching(ts[1..], identity)
  }

  lemma {:induction false} CountJoined(u: seq<Transfer>, v: seq<Transfer>, identity: Identity)
    ensures CountMatching(u + v, identity) == CountMatching(u, identity) + CountMatching(v, identity)
    decreases |u|
  {
    if u == [] {
      assert u + v == v;
    } else {
      assert (u + v)[1..] == u[1..] + v;
      CountJoined(u[1..], v, identity);
    }
  }

  lemma OwnCounts(node: Node, identity: Identity, failedAncestor: bool, sender: Address)
    ensures var c, own := Contribution(node, identity, failedAncestor, sender), Own(node, sender);
            c.completed == |own| && c.completedMatches == CountMatching(own, identity)
            && c.failedPaths == (if failedAncestor then |own| else 0)
            && c.failedMatching == (if failedAncestor then CountMatching(own, identity) else 0)
  {
    if Own(node, sender) != [] {
      assert Own(node, sender)[1..] == [];
    }
  }

  // The counters in terms of receipts: under a failed frame every receipt is a failed path,
  // elsewhere those are whose debit does not persist.
  lemma {:induction false} CountersOfReceipts(node: Node, identity: Identity, failedAncestor: bool, sender: Address)
    ensures var v := Visited(node, identity, failedAncestor, sender, false);
            var r, d := Receipts(node, sender), Debits(node, sender);
            v.completed == |r| && v.completedMatches == CountMatching(r, identity)
            && v.failedPaths == (if failedAncestor then |r| else |r| - |d|)
            && v.failedMatching
              == CountMatching(r, identity) - (if failedAncestor then 0 else CountMatching(d, identity))
    decreases node
  {
    var own := Own(node, sender);
    OwnCounts(node, identity, failedAncestor, sender);
    CountersOfAll(node.calls, identity, failedAncestor || node.failed, sender);
    CountJoined(own, AllReceipts(node.calls, sender), identity);
    CountJoined(own, AllDebits(node.calls, sender), identity);
  }

  lemma {:induction false} CountersOfAll(nodes: seq<Node>, identity: Identity, failedAncestor: bool, sender: Address)
    ensures var v := VisitedAll(nodes, identity, failedAncestor, sender);
            var r, d := AllReceipts(nodes, sender), AllDebits(nodes, sender);
            v.completed == |r| && v.completedMatches == CountMatching(r, identity)
            && v.failedPaths == (if failedAncestor then |r| else |r| - |d|)
            && v.failedMatching
              == CountMatching(r, identity) - (if failedAncestor then 0 else CountMatching(d, identity))
    decreases nodes
  {
    if nodes != [] {
      var own := ChildSender(nodes[0], sender);
      CountersOfReceipts(nodes[0], identity, failedAncestor, own);
      CountersOfAll(nodes[1..], identity, failedAncestor, sender);
      CountJoined(Receipts(nodes[0], own), AllReceipts(nodes[1..], sender), identity);
      CountJoined(Debits(nodes[0], own), AllDebits(nodes[1..], sender), identity);
    }
  }

  // A frame that calls the precompile, completed or not.
  function Called(node: Node, sender: Address): seq<Transfer> {
    var kind := node.kind;
    if node.target == 0xf9 && (kind.CALL? || kind.CALLCODE? || kind.DELEGATECALL? || kind.STATICCALL?)
    then [Transfer(sender, ParseInput(node.input))]
    else []
  }

  // Every call of the precompile in a subtree.
  function Invocations(node: Node, sender: Address): seq<Transfer>
    decreases node
  {
    Called(node, sender) + AllInvocations(node.calls, sender)
  }

  function AllInvocations(nodes: seq<Node>, sender: Address): seq<Transfer>
    decreases nodes
  {
    if nodes == [] then []
    else Invocations(nodes[0], ChildSender(nodes[0], sender)) + AllInvocations(nodes[1..], sender)
  }

  // The other two counters are those of all calls of the precompile.
  lemma {:induction false} CountersOfCalls(node: Node, identity: Identity, failedAncestor: bool, sender: Address,
                                           isRoot: bool)
    ensures var v, all := Visited(node, identity, failedAncestor, sender, isRoot), Invocations(node, sender);
            v.calls == |all| && v.matches == CountMatching(all, identity)
    decreases node
  {
    CallCounts(node, identity, failedAncestor, sender);
    CountersOfAllCalls(node.calls, identity, failedAncestor || (!isRoot && node.failed), sender);
    CountJoined(Called(node, sender), AllInvocations(node.calls, sender), identity);
  }

  lemma CallCounts(node: Node, identity: Identity, failedAncestor: bool, sender: Address)
    ensures var c, called := Contribution(node, identity, failedAncestor, sender), Called(node, sender);
            c.calls == |called| && c.matches == CountMatching(called, identity)
  {
    if Called(node, sender) != [] {
      assert Called(node, sender)[1..] == [];
    }
  }

  lemma {:induction false} CountersOfAllCalls(nodes: seq<Node>, identity: Identity, failedAncestor: bool,
                                              sender: Address)
    ensures var v, all := VisitedAll(nodes, identity, failedAncestor, sender), AllInvocations(nodes, sender);
            v.calls == |all| && v.matches == CountMatching(all, identity)
    decreases nodes
  {
    if nodes != [] {
      var own := ChildSender(nodes[0], sender);
      CountersOfCalls(nodes[0], identity, failedAncestor, own, false);
      CountersOfAllCalls(nodes[1..], identity, failedAncestor, sender);
      CountJoined(Invocations(nodes[0], own), AllInvocations(nodes[1..], sender), identity);
    }
  }

  ghost predicate NothingFails(node: Node)
    decreases node
  {
    !node.failed && forall i :: 0 <= i < |node.calls| ==> NothingFails(node.calls[i])
  }

  // Where no frame fails, every call of the precompile has its receipt and its debit.
  lemma {:induction false} EveryCallSettles(node: Node, sender: Address)
    requires NothingFails(node)
    ensures Receipts(node, sender) == Invocations(node, sender) == Debits(node, sender)
    decreases node
  {
    EveryCallOfAllSettles(node.calls, sender);
  }

  lemma {:induction false} EveryCallOfAllSettles(nodes: seq<Node>, sender: Address)
    requires forall i :: 0 <= i < |nodes| ==> NothingFails(nodes[i])
    ensures AllReceipts(nodes, sender) == AllInvocations(nodes, sender) == AllDebits(nodes, sender)
    decreases nodes
  {
    if nodes != [] {
      EveryCallSettles(nodes[0], ChildSender(nodes[0], sender));
      EveryCallOfAllSettles(nodes[1..], sender);
    }
  }

  // A persisting debit has its receipt.
  lemma {:induction false} DebitsHaveReceipts(node: Node, sender: Address)
    ensures |Debits(node, sender)| <= |Receipts(node, sender)|
    ensures forall t :: t in Debits(node, sender) ==> t in Receipts(node, sender)
    decreases node
  {
    AllDebitsHaveReceipts(node.calls, sender);
  }

  lemma {:induction false} AllDebitsHaveReceipts(nodes: seq<Node>, sender: Address)
    ensures |AllDebits(nodes, sender)| <= |AllReceipts(nodes, sender)|
    ensures forall t :: t in AllDebits(nodes, sender) ==> t in AllReceipts(nodes, sender)
    decreases nodes
  {
    if nodes != [] {
      DebitsHaveReceipts(nodes[0], ChildSender(nodes[0], sender));
      AllDebitsHaveReceipts(nodes[1..], sender);
    }
  }
}
