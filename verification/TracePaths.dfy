/** What the trace counters count, said without the recursion: one contribution per path from the
    root, with the sender and the failed frames looked up along the path. */
module TracePaths {
  import opened Base
  import opened Trace

  // The way down from the root: at each frame, which of its calls.
  type Path = seq<nat>

  predicate Leads(node: Node, path: Path)
    decreases |path|
  {
    path == [] || (path[0] < |node.calls| && Leads(node.calls[path[0]], path[1..]))
  }

  function At(node: Node, path: Path): Node
    requires Leads(node, path)
    decreases |path|
  {
    if path == [] then node else At(node.calls[path[0]], path[1..])
  }

  // The sender at a path: the source of the nearest frame at or above it that is no
  // DELEGATECALL, and of the root when there is none.
  function SenderAt(root: Node, path: Path): Address
    requires Leads(root, path)
    decreases |path|
  {
    if path == [] then root.source
    else if At(root, path).kind != DELEGATECALL then At(root, path).source
    else (LeadsUp(root, path); SenderAt(root, path[..|path| - 1]))
  }

  // Some frame strictly between the root and the path's own frame failed.
  predicate FailedAbove(root: Node, path: Path)
    requires Leads(root, path)
    decreases |path|
  {
    |path| > 1 && (LeadsUp(root, path);
                   At(root, path[..|path| - 1]).failed || FailedAbove(root, path[..|path| - 1]))
  }

  lemma {:induction false} LeadsUp(node: Node, path: Path)
    requires path != [] && Leads(node, path)
    ensures var up := path[..|path| - 1];
            Leads(node, up) && path[|path| - 1] < |At(node, up).calls|
            && At(node, path) == At(node, up).calls[path[|path| - 1]]
    decreases |path|
  {
    if |path| > 1 {
      LeadsUp(node.calls[path[0]], path[1..]);
      assert path[1..][..|path| - 2] == path[..|path| - 1][1..];
    }
  }

  lemma {:induction false} LeadsOn(node: Node, path: Path, k: nat)
    requires Leads(node, path) && k < |At(node, path).calls|
    ensures Leads(node, path + [k]) && At(node, path + [k]) == At(node, path).calls[k]
    decreases |path|
  {
    if path == [] {
      assert (path + [k])[1..] == [];
    } else {
      assert (path + [k])[1..] == path[1..] + [k];
      LeadsOn(node.calls[path[0]], path[1..], k);
    }
  }

  // Every path that starts with `path`, in the order of the visit.
  function Below(root: Node, path: Path): seq<Path>
    requires Leads(root, path)
    decreases At(root, path), 2 + |At(root, path).calls|
  {
    [path] + BelowFrom(root, path, 0)
  }

  function BelowFrom(root: Node, path: Path, k: nat): seq<Path>
    requires Leads(root, path) && k <= |At(root, path).calls|
    decreases At(root, path), 1 + |At(root, path).calls| - k
  {
    if k == |At(root, path).calls| then []
    else (LeadsOn(root, path, k); Below(root, path + [k]) + BelowFrom(root, path, k + 1))
  }

  function Total(items: seq<Inspection>): Inspection
    decreases |items|
  {
    if items == [] then NOTHING else Plus(items[0], Total(items[1..]))
  }

  lemma PlusNothing(a: Inspection)
    ensures Plus(NOTHING, a) == a && Plus(a, NOTHING) == a
  {
  }

  lemma {:induction false} TotalJoined(u: seq<Inspection>, v: seq<Inspection>)
    ensures Total(u + v) == Plus(Total(u), Total(v))
    decreases |u|
  {
    if u == [] {
      assert u + v == v;
      PlusNothing(Total(v));
    } else {
      TotalJoined(u[1..], v);
      PlusAssociates(u[0], Total(u[1..]), Total(v));
      assert u + v == [u[0]] + (u[1..] + v);
      TotalNext(u[0], u[1..] + v);
    }
  }

  lemma TotalNext(item: Inspection, rest: seq<Inspection>)
    ensures Total([item] + rest) == Plus(item, Total(rest))
  {
    assert ([item] + rest)[1..] == rest;
  }

  lemma TotalOne(item: Inspection)
    ensures Total([item]) == item
  {
    TotalNext(item, []);
    PlusNothing(item);
    assert [item] + [] == [item];
  }

  // What the frame at a path contributes.
  function Share(root: Node, path: Path, identity: Identity): Inspection {
    if !Leads(root, path) then NOTHING
    else Contribution(At(root, path), identity, FailedAbove(root, path), SenderAt(root, path))
  }

  function Shares(root: Node, paths: seq<Path>, identity: Identity): seq<Inspection> {
    seq(|paths|, i requires 0 <= i < |paths| => Share(root, paths[i], identity))
  }

  function Tally(root: Node, paths: seq<Path>, identity: Identity): Inspection {
    Total(Shares(root, paths, identity))
  }

  lemma SharesJoined(root: Node, u: seq<Path>, v: seq<Path>, identity: Identity)
    ensures Shares(root, u + v, identity) == Shares(root, u, identity) + Shares(root, v, identity)
  {
  }

  lemma TallyJoined(root: Node, u: seq<Path>, v: seq<Path>, identity: Identity)
    ensures Tally(root, u + v, identity) == Plus(Tally(root, u, identity), Tally(root, v, identity))
  {
    SharesJoined(root, u, v, identity);
    TotalJoined(Shares(root, u, identity), Shares(root, v, identity));
  }

  lemma TallyOne(root: Node, path: Path, identity: Identity)
    ensures Tally(root, [path], identity) == Share(root, path, identity)
  {
    var shares := Shares(root, [path], identity);
    assert shares == [shares[0]];
    TotalOne(shares[0]);
  }

  // One step down a path.
  lemma StepDown(root: Node, path: Path, k: nat)
    requires Leads(root, path) && k < |At(root, path).calls|
    ensures Leads(root, path + [k]) && At(root, path + [k]) == At(root, path).calls[k]
    ensures SenderAt(root, path + [k]) == ChildSender(At(root, path).calls[k], SenderAt(root, path))
    ensures FailedAbove(root, path + [k]) == FailedBelow(root, path)
  {
    LeadsOn(root, path, k);
    assert (path + [k])[..|path|] == path;
  }

  lemma VisitedNext(calls: seq<Node>, k: nat, identity: Identity, failedAncestor: bool, sender: Address)
    requires k < |calls|
    ensures VisitedAll(calls[k..], identity, failedAncestor, sender)
         == Plus(Visited(calls[k], identity, failedAncestor, ChildSender(calls[k], sender), false),
                 VisitedAll(calls[k + 1..], identity, failedAncestor, sender))
  {
    assert calls[k..][1..] == calls[k + 1..];
  }

  lemma {:induction false} VisitedByPaths(root: Node, path: Path, identity: Identity)
    requires Leads(root, path)
    ensures Visited(At(root, path), identity, FailedAbove(root, path), SenderAt(root, path), path == [])
         == Tally(root, Below(root, path), identity)
    decreases At(root, path), 2 + |At(root, path).calls|
  {
    assert At(root, path).calls[0..] == At(root, path).calls;
    VisitedFrom(root, path, 0, identity, FailedBelow(root, path), SenderAt(root, path));
    TallyOne(root, path, identity);
    TallyJoined(root, [path], BelowFrom(root, path, 0), identity);
  }

  // Whether the calls of the frame at a path are made under a failed frame.
  predicate FailedBelow(root: Node, path: Path)
    requires Leads(root, path)
  {
    FailedAbove(root, path) || (path != [] && At(root, path).failed)
  }

  lemma {:induction false} VisitedChild(root: Node, path: Path, k: nat, identity: Identity, failed: bool,
                                        sender: Address)
    requires Leads(root, path) && k < |At(root, path).calls|
    requires failed == FailedBelow(root, path) && sender == SenderAt(root, path)
    ensures Leads(root, path + [k])
    ensures Visited(At(root, path).calls[k], identity, failed, ChildSender(At(root, path).calls[k], sender), false)
         == Tally(root, Below(root, path + [k]), identity)
    decreases At(root, path), 0
  {
    StepDown(root, path, k);
    VisitedByPaths(root, path + [k], identity);
  }

  lemma TallyFrom(root: Node, path: Path, k: nat, identity: Identity)
    requires Leads(root, path) && k < |At(root, path).calls| && Leads(root, path + [k])
    ensures Tally(root, BelowFrom(root, path, k), identity)
         == Plus(Tally(root, Below(root, path + [k]), identity), Tally(root, BelowFrom(root, path, k + 1), identity))
  {
    var first, rest := Below(root, path + [k]), BelowFrom(root, path, k + 1);
    assert BelowFrom(root, path, k) == first + rest;
    TallyJoined(root, first, rest, identity);
  }

  lemma {:induction false} VisitedFrom(root: Node, path: Path, k: nat, identity: Identity, failed: bool,
                                       sender: Address)
    requires Leads(root, path) && k <= |At(root, path).calls|
    requires failed == FailedBelow(root, path) && sender == SenderAt(root, path)
    ensures VisitedAll(At(root, path).calls[k..], identity, failed, sender)
         == Tally(root, BelowFrom(root, path, k), identity)
    decreases At(root, path), 1 + |At(root, path).calls| - k
  {
    var calls := At(root, path).calls;
    if k < |calls| {
      VisitedChild(root, path, k, identity, failed, sender);
      VisitedFrom(root, path, k + 1, identity, failed, sender);
      VisitedNext(calls, k, identity, failed, sender);
      TallyFrom(root, path, k, identity);
    }
  }

  // The six counters are the sum over all paths from the root.
  lemma InspectByPaths(root: Node, identity: Identity)
    ensures Inspect(root, identity) == Tally(root, Below(root, []), identity)
  {
    VisitedByPaths(root, [], identity);
  }

  function Times(path: Path, paths: seq<Path>): nat
    decreases |paths|
  {
    if paths == [] then 0 else Bit(paths[0] == path) + Times(path, paths[1..])
  }

  lemma {:induction false} TimesJoined(path: Path, u: seq<Path>, v: seq<Path>)
    ensures Times(path, u + v) == Times(path, u) + Times(path, v)
    decreases |u|
  {
    if u == [] {
      assert u + v == v;
    } else {
      assert (u + v)[1..] == u[1..] + v;
      TimesJoined(path, u[1..], v);
    }
  }

  lemma {:induction false} LeadsPart(node: Node, path: Path, k: nat)
    requires Leads(node, path) && k <= |path|
    ensures Leads(node, path[..k])
    ensures k < |path| ==> path[k] < |At(node, path[..k]).calls|
    decreases |path|
  {
    if k > 0 {
      LeadsPart(node.calls[path[0]], path[1..], k - 1);
      assert path[1..][..k - 1] == path[..k][1..];
    }
  }

  lemma {:induction false} BelowOnce(root: Node, path: Path, target: Path)
    requires Leads(root, path)
    ensures Times(target, Below(root, path)) == Bit(Leads(root, target) && path <= target)
    decreases At(root, path), 2 + |At(root, path).calls|
  {
    BelowFromOnce(root, path, 0, target);
    var rest := BelowFrom(root, path, 0);
    assert ([path] + rest)[1..] == rest;
    if path <= target && |path| == |target| {
      assert target == path;
    }
  }

  lemma {:induction false} BelowFromOnce(root: Node, path: Path, k: nat, target: Path)
    requires Leads(root, path) && k <= |At(root, path).calls|
    ensures Times(target, BelowFrom(root, path, k))
         == Bit(Leads(root, target) && path < target && target[|path|] >= k)
    decreases At(root, path), 1 + |At(root, path).calls| - k
  {
    if k < |At(root, path).calls| {
      LeadsOn(root, path, k);
      BelowOnce(root, path + [k], target);
      BelowFromOnce(root, path, k + 1, target);
      TimesJoined(target, Below(root, path + [k]), BelowFrom(root, path, k + 1));
    } else if Leads(root, target) && path < target {
      LeadsPart(root, target, |path|);
      assert target[..|path|] == path;
    }
  }

  // Those paths are all the paths of the trace, each once.
  lemma EveryPathOnce(root: Node, path: Path)
    ensures Times(path, Below(root, [])) == Bit(Leads(root, path))
  {
    BelowOnce(root, [], path);
  }

  // ---- order of calls --------------------------------------------------

  // The same trace up to the order in which frames list their calls, at any depth.
  ghost predicate Shuffled(a: Node, b: Node)
    decreases a
  {
    a.kind == b.kind && a.source == b.source && a.target == b.target && a.input == b.input && a.failed == b.failed
    && AllShuffled(a.calls, b.calls)
  }

  ghost predicate AllShuffled(a: seq<Node>, b: seq<Node>)
    decreases a
  {
    |a| == |b| && (a != [] ==> exists k :: 0 <= k < |b| && Shuffled(a[0], b[k]) && AllShuffled(a[1..], Others(b, k)))
  }

  function Others(nodes: seq<Node>, k: nat): seq<Node>
    requires k < |nodes|
  {
    nodes[..k] + nodes[k + 1..]
  }

  function Visits(nodes: seq<Node>, identity: Identity, failedAncestor: bool, sender: Address): seq<Inspection> {
    seq(|nodes|, i requires 0 <= i < |nodes| =>
      Visited(nodes[i], identity, failedAncestor, ChildSender(nodes[i], sender), false))
  }

  lemma {:induction false} VisitsTotal(nodes: seq<Node>, identity: Identity, failedAncestor: bool, sender: Address)
    ensures VisitedAll(nodes, identity, failedAncestor, sender)
         == Total(Visits(nodes, identity, failedAncestor, sender))
    decreases |nodes|
  {
    if nodes != [] {
      assert Visits(nodes, identity, failedAncestor, sender)[1..]
        == Visits(nodes[1..], identity, failedAncestor, sender);
      VisitsTotal(nodes[1..], identity, failedAncestor, sender);
    }
  }

  lemma VisitsJoined(u: seq<Node>, v: seq<Node>, identity: Identity, failedAncestor: bool, sender: Address)
    ensures Visits(u + v, identity, failedAncestor, sender)
         == Visits(u, identity, failedAncestor, sender) + Visits(v, identity, failedAncestor, sender)
  {
  }

  lemma VisitedJoined(u: seq<Node>, v: seq<Node>, identity: Identity, failedAncestor: bool, sender: Address)
    ensures VisitedAll(u + v, identity, failedAncestor, sender)
         == Plus(VisitedAll(u, identity, failedAncestor, sender), VisitedAll(v, identity, failedAncestor, sender))
  {
    var first, second := Visits(u, identity, failedAncestor, sender), Visits(v, identity, failedAncestor, sender);
    VisitsTotal(u, identity, failedAncestor, sender);
    VisitsTotal(v, identity, failedAncestor, sender);
    VisitsTotal(u + v, identity, failedAncestor, sender);
    VisitsJoined(u, v, identity, failedAncestor, sender);
    TotalJoined(first, second);
  }

  lemma PlusTakesOut(a: Inspection, x: Inspection, b: Inspection)
    ensures Plus(a, Plus(x, b)) == Plus(x, Plus(a, b))
  {
  }

  // Any of the calls may be visited first.
  lemma VisitedTakesOut(nodes: seq<Node>, k: nat, identity: Identity, failedAncestor: bool, sender: Address)
    requires k < |nodes|
    ensures VisitedAll(nodes, identity, failedAncestor, sender)
         == Plus(Visited(nodes[k], identity, failedAncestor, ChildSender(nodes[k], sender), false),
                 VisitedAll(Others(nodes, k), identity, failedAncestor, sender))
  {
    var front, back := nodes[..k], nodes[k + 1..];
    var rest := [nodes[k]] + back;
    assert nodes == front + rest && rest[1..] == back;
    VisitedJoined(front, rest, identity, failedAncestor, sender);
    VisitedJoined(front, back, identity, failedAncestor, sender);
    PlusTakesOut(VisitedAll(front, identity, failedAncestor, sender),
                 Visited(nodes[k], identity, failedAncestor, ChildSender(nodes[k], sender), false),
                 VisitedAll(back, identity, failedAncestor, sender));
  }

  lemma {:induction false} OrderDoesNotMatter(a: Node, b: Node, identity: Identity, failedAncestor: bool,
                                              sender: Address, isRoot: bool)
    requires Shuffled(a, b)
    ensures Visited(a, identity, failedAncestor, sender, isRoot) == Visited(b, identity, failedAncestor, sender, isRoot)
    decreases a
  {
    OrderOfAll(a.calls, b.calls, identity, failedAncestor || (!isRoot && a.failed), sender);
    assert Contribution(a, identity, failedAncestor, sender) == Contribution(b, identity, failedAncestor, sender);
  }

  lemma {:induction false} OrderOfAll(a: seq<Node>, b: seq<Node>, identity: Identity, failedAncestor: bool,
                                      sender: Address)
    requires AllShuffled(a, b)
    ensures VisitedAll(a, identity, failedAncestor, sender) == VisitedAll(b, identity, failedAncestor, sender)
    decreases a
  {
    if a != [] {
      var k :| 0 <= k < |b| && Shuffled(a[0], b[k]) && AllShuffled(a[1..], Others(b, k));
      OrderDoesNotMatter(a[0], b[k], identity, failedAncestor, ChildSender(a[0], sender), false);
      OrderOfAll(a[1..], Others(b, k), identity, failedAncestor, sender);
      VisitedTakesOut(b, k, identity, failedAncestor, sender);
    }
  }

  // Reordering calls anywhere in a trace leaves all six counters as they are.
  lemma InspectIgnoresOrder(a: Node, b: Node, identity: Identity)
    requires Shuffled(a, b)
    ensures Inspect(a, identity) == Inspect(b, identity)
  {
    OrderDoesNotMatter(a, b, identity, false, a.source, true);
  }

  // ---- how the counters compare ----------------------------------------

  predicate Ordered(c: Inspection) {
    c.failedMatching <= c.failedPaths <= c.completed <= c.calls
    && c.failedMatching <= c.completedMatches <= c.matches <= c.calls
    && c.completedMatches <= c.completed
    && c.failedPaths + c.completedMatches <= c.completed + c.failedMatching
  }

  lemma {:induction false} VisitedOrdered(node: Node, identity: Identity, failedAncestor: bool, sender: Address,
                                          isRoot: bool)
    ensures Ordered(Visited(node, identity, failedAncestor, sender, isRoot))
    decreases node
  {
    AllOrdered(node.calls, identity, failedAncestor || (!isRoot && node.failed), sender);
  }

  lemma {:induction false} AllOrdered(nodes: seq<Node>, identity: Identity, failedAncestor: bool, sender: Address)
    ensures Ordered(VisitedAll(nodes, identity, failedAncestor, sender))
    decreases nodes
  {
    if nodes != [] {
      VisitedOrdered(nodes[0], identity, failedAncestor, ChildSender(nodes[0], sender), false);
      AllOrdered(nodes[1..], identity, failedAncestor, sender);
    }
  }
}
