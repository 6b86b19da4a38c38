/** The difference of two states, listed by two difference iterators, conserves what it lists. */
module StateDiff {
  import opened Totals

  datatype Account = Account(balance: nat, nonce: nat, codeHash: nat)

  type State = map<nat, Account>

  datatype Kind = Created | Changed | Deleted

  datatype Change = Change(key: nat, kind: Kind, delta: int)

  datatype Summary = Summary(created: nat, changed: nat, deleted: nat, positive: nat, negative: nat, net: int,
                             rows: seq<Change>)

  const NO_SUMMARY := Summary(0, 0, 0, 0, 0, 0, [])

  function BalanceOf(state: State, key: nat): nat {
    if key in state then state[key].balance else 0
  }

  function Balances(state: State): map<nat, int> {
    map key | key in state :: state[key].balance
  }

  ghost function Supply(state: State): int {
    SumMap(Balances(state))
  }

  lemma SupplyPut(state: State, key: nat, account: Account)
    ensures Supply(state[key := account]) == Supply(state) - BalanceOf(state, key) + account.balance
  {
    SumMapPut(Balances(state), key, account.balance);
    assert Balances(state[key := account]) == Balances(state)[key := account.balance as int];
  }

  lemma SupplyDrop(state: State, key: nat)
    requires key in state
    ensures Supply(state - {key}) == Supply(state) - BalanceOf(state, key)
  {
    SumMapTakesOut(Balances(state), key);
    assert Balances(state - {key}) == Balances(state) - {key};
  }

  // What a difference iterator from one state to another lists, each key once and in any order:
  // keys of the second, every one whose account differs among them. Unchanged ones may be listed too.
  ghost predicate Differences(from: State, other: State, keys: set<nat>) {
    (forall key :: key in keys ==> key in other)
    && (forall key :: key in other && (key !in from || from[key] != other[key]) ==> key in keys)
  }

  // The old state with some changes made.
  ghost predicate Towards(old_: State, new_: State, patched: State, listed: set<nat>) {
    forall key :: (key in patched <==> if key in listed then key in new_ else key in old_)
                  && (key in patched ==> patched[key] == if key in listed then new_[key] else old_[key])
  }

  // `writeChange`.
  function Write(s: Summary, key: nat, kind: Kind, oldBalance: nat, newBalance: nat): Summary {
    var delta := newBalance as int - oldBalance as int;
    s.(positive := s.positive + (if delta > 0 then delta else 0),
       negative := s.negative + (if delta < 0 then 0 - delta else 0), net := s.net + delta,
       rows := s.rows + [Change(key, kind, delta)])
  }

  // What the rows gain and lose.
  function Gained(rows: seq<Change>): nat
    decreases |rows|
  {
    if rows == [] then 0
    else Gained(rows[..|rows| - 1]) + if rows[|rows| - 1].delta > 0 then rows[|rows| - 1].delta else 0
  }

  function Lost(rows: seq<Change>): nat
    decreases |rows|
  {
    if rows == [] then 0
    else Lost(rows[..|rows| - 1]) + if rows[|rows| - 1].delta < 0 then 0 - rows[|rows| - 1].delta else 0
  }

  lemma DeltasMore(rows: seq<Change>, row: Change)
    ensures Gained(rows + [row]) == Gained(rows) + if row.delta > 0 then row.delta else 0
    ensures Lost(rows + [row]) == Lost(rows) + if row.delta < 0 then 0 - row.delta else 0
  {
    assert (rows + [row])[..|rows|] == rows;
  }

  // How many rows there are of a kind.
  function Places(rows: seq<Change>, kind: Kind): set<nat> {
    set i: nat | i < |rows| && rows[i].kind == kind
  }

  function Number(rows: seq<Change>, kind: Kind): nat {
    |Places(rows, kind)|
  }

  lemma NumberMore(rows: seq<Change>, row: Change, kind: Kind)
    ensures Number(rows + [row], kind) == Number(rows, kind) + if row.kind == kind then 1 else 0
  {
    assert Places(rows + [row], kind) == if row.kind == kind then Places(rows, kind) + {|rows|} else Places(rows, kind);
  }

  // Every figure is that of the rows.
  predicate Tallies(s: Summary) {
    match s
    case Summary(created, changed, deleted, positive, negative, net, rows) =>
      positive == Gained(rows) && negative == Lost(rows) && net == positive - negative
      && created == Number(rows, Created) && changed == Number(rows, Changed) && deleted == Number(rows, Deleted)
  }

  // What the summary says about the way from the old state to the patched one.
  ghost predicate Conserves(old_: State, patched: State, s: Summary) {
    match s
    case Summary(created, changed, deleted, positive, negative, net, rows) =>
      Tallies(s) && net == Supply(patched) - Supply(old_)
      && created - deleted == |patched| - |old_| && |rows| == created + changed + deleted
  }

  function Counted(s: Summary, kind: Kind): Summary {
    match kind
    case Created => s.(created := s.created + 1)
    case Changed => s.(changed := s.changed + 1)
    case Deleted => s.(deleted := s.deleted + 1)
  }

  lemma WriteTallies(s: Summary, key: nat, kind: Kind, oldBalance: nat, newBalance: nat)
    requires Tallies(s)
    ensures Tallies(Counted(Write(s, key, kind, oldBalance, newBalance), kind))
  {
    var row := Change(key, kind, newBalance as int - oldBalance as int);
    DeltasMore(s.rows, row);
    NumberMore(s.rows, row, Created);
    NumberMore(s.rows, row, Changed);
    NumberMore(s.rows, row, Deleted);
  }

  // Every row says what happened to its account between the two states.
  predicate TrueRow(old_: State, new_: State, row: Change) {
    row.delta == BalanceOf(new_, row.key) as int - BalanceOf(old_, row.key) as int
    && row.kind == (if row.key !in new_ then Deleted else if row.key in old_ then Changed else Created)
    && (row.key in old_ || row.key in new_)
  }

  ghost predicate TrueRows(old_: State, new_: State, rows: seq<Change>) {
    forall i :: 0 <= i < |rows| ==> TrueRow(old_, new_, rows[i])
  }

  // How the number of accounts moves with a row.
  function Step(kind: Kind): int {
    match kind
    case Created => 1
    case Changed => 0
    case Deleted => -1
  }

  lemma RowConserves(old_: State, before: State, after: State, s: Summary, key: nat, kind: Kind, oldBalance: nat,
                     newBalance: nat)
    requires Conserves(old_, before, s)
    requires Supply(after) == Supply(before) + newBalance - oldBalance && |after| == |before| + Step(kind)
    ensures Conserves(old_, after, Counted(Write(s, key, kind, oldBalance, newBalance), kind))
  {
    WriteTallies(s, key, kind, oldBalance, newBalance);
  }

  lemma SizePut(state: State, key: nat, account: Account)
    ensures |state[key := account]| == |state| + if key in state then 0 else 1
  {
    assert state[key := account].Keys == state.Keys + {key};
  }

  lemma SizeDrop(state: State, key: nat)
    requires key in state
    ensures |state - {key}| == |state| - 1
  {
    assert (state - {key}).Keys == state.Keys - {key};
    assert |state.Keys - {key}| == |state.Keys| - 1;
  }

  lemma PutConserves(old_: State, patched: State, s: Summary, key: nat, account: Account)
    requires Conserves(old_, patched, s)
    ensures var kind := if key in patched then Changed else Created;
            var w := Write(s, key, kind, BalanceOf(patched, key), account.balance);
            Conserves(old_, patched[key := account], Counted(w, kind))
  {
    SupplyPut(patched, key, account);
    SizePut(patched, key, account);
    RowConserves(old_, patched, patched[key := account], s, key, if key in patched then Changed else Created,
                 BalanceOf(patched, key), account.balance);
  }

  lemma DropConserves(old_: State, patched: State, s: Summary, key: nat)
    requires Conserves(old_, patched, s) && key in patched
    ensures Conserves(old_, patched - {key},
                      Counted(Write(s, key, Deleted, BalanceOf(patched, key), 0), Deleted))
  {
    SupplyDrop(patched, key);
    SizeDrop(patched, key);
    RowConserves(old_, patched, patched - {key}, s, key, Deleted, BalanceOf(patched, key), 0);
  }

  // What one listed key adds to the summary, going forward and in reverse.
  function AddForward(old_: State, new_: State, s: Summary, key: nat): Summary
    requires key in new_
  {
    var kind := if key in old_ then Changed else Created;
    Counted(Write(s, key, kind, BalanceOf(old_, key), new_[key].balance), kind)
  }

  function AddReverse(old_: State, new_: State, s: Summary, key: nat): Summary {
    if key in new_ then s else Counted(Write(s, key, Deleted, BalanceOf(old_, key), 0), Deleted)
  }

  // One row for every one of some keys, and no other rows.
  ghost predicate RowsFor(rows: seq<Change>, keys: set<nat>) {
    (forall i, j :: 0 <= i < j < |rows| ==> rows[i].key != rows[j].key)
    && (forall i :: 0 <= i < |rows| ==> rows[i].key in keys)
    && forall key :: key in keys ==> exists i :: 0 <= i < |rows| && rows[i].key == key
  }

  lemma RowForOne(rows: seq<Change>, keys: set<nat>, row: Change)
    requires RowsFor(rows, keys) && row.key !in keys
    ensures RowsFor(rows + [row], keys + {row.key})
  {
    forall key | key in keys + {row.key} ensures exists i :: 0 <= i < |rows + [row]| && (rows + [row])[i].key == key {
      if key == row.key {
        assert (rows + [row])[|rows|].key == key;
      } else {
        var i :| 0 <= i < |rows| && rows[i].key == key;
        assert (rows + [row])[i].key == key;
      }
    }
  }

  lemma TrueRowAdded(old_: State, new_: State, rows: seq<Change>, row: Change)
    requires TrueRows(old_, new_, rows) && TrueRow(old_, new_, row)
    ensures TrueRows(old_, new_, rows + [row])
  {
  }

  // A forward key that was not listed before.
  ghost predicate Going(old_: State, new_: State, patched: State, listed: set<nat>, s: Summary) {
    match s
    case Summary(_, _, _, _, _, _, rows) =>
      Towards(old_, new_, patched, listed) && Conserves(old_, patched, s) && TrueRows(old_, new_, rows)
      && RowsFor(rows, listed)
  }

  lemma TowardsStep(old_: State, new_: State, patched: State, listed: set<nat>, key: nat)
    requires Towards(old_, new_, patched, listed) && key in new_ && key !in listed
    ensures Towards(old_, new_, patched[key := new_[key]], listed + {key})
    ensures key in patched <==> key in old_
    ensures BalanceOf(patched, key) == BalanceOf(old_, key)
  {
  }

  lemma ForwardStep(old_: State, new_: State, patched: State, listed: set<nat>, s: Summary, key: nat)
    requires Going(old_, new_, patched, listed, s) && key in new_ && key !in listed
    ensures Going(old_, new_, patched[key := new_[key]], listed + {key}, AddForward(old_, new_, s, key))
  {
    TowardsStep(old_, new_, patched, listed, key);
    PutConserves(old_, patched, s, key, new_[key]);
    var rows := AddForward(old_, new_, s, key).rows;
    TrueRowAdded(old_, new_, s.rows, rows[|s.rows|]);
    RowForOne(s.rows, listed, rows[|s.rows|]);
  }

  // A set of keys, split into those visited and the rest.
  ghost predicate Splits(keys: set<nat>, rest: set<nat>, listed: set<nat>) {
    forall key :: (key in keys <==> key in rest || key in listed) && !(key in rest && key in listed)
  }

  lemma SplitsStart(keys: set<nat>)
    ensures Splits(keys, keys, {})
  {
  }

  lemma SplitsNext(keys: set<nat>, rest: set<nat>, listed: set<nat>, key: nat)
    requires Splits(keys, rest, listed) && key in rest
    ensures Splits(keys, rest - {key}, listed + {key}) && key in keys && key !in listed
    ensures |rest - {key}| < |rest|
  {
  }

  lemma SplitsEnd(keys: set<nat>, listed: set<nat>)
    requires Splits(keys, {}, listed)
    ensures listed == keys
  {
  }

  lemma NothingTallied(s: Summary)
    requires s == NO_SUMMARY
    ensures Tallies(s)
  {
  }

  lemma NothingConserved(old_: State, s: Summary)
    requires Tallies(s) && s.created == s.changed == s.deleted == 0 && s.net == 0 && |s.rows| == 0
    ensures Conserves(old_, old_, s)
  {
  }

  lemma NothingWritten(old_: State, new_: State)
    ensures TrueRows(old_, new_, []) && RowsFor([], {}) && Towards(old_, new_, old_, {})
  {
  }

  // The figures before the first row.
  method Begin(ghost old_: State, ghost new_: State) returns (s: Summary)
    ensures Going(old_, new_, old_, {}, s)
  {
    s := NO_SUMMARY;
    NothingTallied(s);
    NothingConserved(old_, s);
    NothingWritten(old_, new_);
  }

  // The loop over the forward difference: created and changed accounts.
  method Forward(old_: State, new_: State, keys: set<nat>) returns (s: Summary, ghost patched: State)
    requires Differences(old_, new_, keys)
    ensures Going(old_, new_, patched, keys, s)
  {
    s := Begin(old_, new_);
    patched := old_;
    var rest, listed: set<nat> := keys, {};
    SplitsStart(keys);
    while rest != {}
      invariant Splits(keys, rest, listed)
      invariant Going(old_, new_, patched, listed, s)
      decreases |rest|
    {
      var key :| key in rest;
      SplitsNext(keys, rest, listed, key);
      ForwardStep(old_, new_, patched, listed, s, key);
      s := AddForward(old_, new_, s, key);
      patched := patched[key := new_[key]];
      rest, listed := rest - {key}, listed + {key};
    }
    SplitsEnd(keys, listed);
  }

  // After the forward loop everything in the new state is as it should be.
  lemma OnlyDeletionsLeft(old_: State, new_: State, keys: set<nat>, patched: State)
    requires Differences(old_, new_, keys) && Towards(old_, new_, patched, keys)
    ensures forall key :: key in new_ ==> key in patched && patched[key] == new_[key]
    ensures forall key :: key in patched && key !in new_ ==> key in old_ && patched[key] == old_[key]
    ensures forall key :: key in old_ ==> key in patched
  {
  }

  // A state less the listed keys that the new state does not have.
  ghost predicate Pruned(from: State, new_: State, listed: set<nat>, patched: State) {
    (forall key :: key in patched <==> key in from && (key in new_ || key !in listed))
    && forall key :: key in patched ==> patched[key] == from[key]
  }

  lemma PruneSkips(from: State, new_: State, listed: set<nat>, patched: State, key: nat)
    requires Pruned(from, new_, listed, patched) && key in new_
    ensures Pruned(from, new_, listed + {key}, patched)
  {
  }

  lemma PruneDrops(from: State, new_: State, listed: set<nat>, patched: State, key: nat)
    requires Pruned(from, new_, listed, patched) && key in from && key !in new_ && key !in listed
    ensures key in patched && patched[key] == from[key]
    ensures Pruned(from, new_, listed + {key}, patched - {key})
  {
  }

  ghost predicate Returning(old_: State, new_: State, from: State, begun: set<nat>, listed: set<nat>, patched: State,
                            s: Summary) {
    match s
    case Summary(_, _, _, _, _, _, rows) =>
      Pruned(from, new_, listed, patched) && Conserves(old_, patched, s) && TrueRows(old_, new_, rows)
      && RowsFor(rows, begun + (listed - new_.Keys))
  }

  lemma ReverseStep(old_: State, new_: State, from: State, begun: set<nat>, listed: set<nat>, patched: State,
                    s: Summary, key: nat)
    requires Returning(old_, new_, from, begun, listed, patched, s) && key in old_ && key !in listed
    requires key in from && (key !in new_ ==> from[key] == old_[key]) && begun <= new_.Keys
    ensures Returning(old_, new_, from, begun, listed + {key}, if key in new_ then patched else patched - {key},
                      AddReverse(old_, new_, s, key))
  {
    WrittenNext(begun, listed, new_.Keys, key);
    if key in new_ {
      PruneSkips(from, new_, listed, patched, key);
    } else {
      PruneDrops(from, new_, listed, patched, key);
      DropConserves(old_, patched, s, key);
      var rows := AddReverse(old_, new_, s, key).rows;
      TrueRowAdded(old_, new_, s.rows, rows[|s.rows|]);
      RowForOne(s.rows, begun + (listed - new_.Keys), rows[|s.rows|]);
    }
  }

  lemma WrittenNext(begun: set<nat>, listed: set<nat>, there: set<nat>, key: nat)
    ensures begun + (listed + {key} - there)
         == if key in there then begun + (listed - there) else begun + (listed - there) + {key}
  {
  }

  lemma ReturningStart(old_: State, new_: State, from: State, begun: set<nat>, s: Summary)
    requires Conserves(old_, from, s) && TrueRows(old_, new_, s.rows) && RowsFor(s.rows, begun)
    ensures Returning(old_, new_, from, begun, {}, from, s)
  {
    assert begun + ({} - new_.Keys) == begun;
  }

  // The loop over the reverse difference: deleted accounts. Keys still there are skipped.
  method Reverse(old_: State, new_: State, keys: set<nat>, begun: Summary, ghost from: State, ghost written: set<nat>)
    returns (s: Summary, ghost patched: State)
    requires Differences(new_, old_, keys) && Conserves(old_, from, begun) && TrueRows(old_, new_, begun.rows)
    requires RowsFor(begun.rows, written) && written <= new_.Keys
    requires forall key :: key in old_ ==> key in from
    requires forall key :: key in from && key !in new_ ==> key in old_ && from[key] == old_[key]
    ensures Returning(old_, new_, from, written, keys, patched, s)
  {
    s, patched := begun, from;
    var rest, listed: set<nat> := keys, {};
    ReturningStart(old_, new_, from, written, s);
    SplitsStart(keys);
    while rest != {}
      invariant Splits(keys, rest, listed)
      invariant Returning(old_, new_, from, written, listed, patched, s)
      decreases |rest|
    {
      var key :| key in rest;
      SplitsNext(keys, rest, listed, key);
      ReverseStep(old_, new_, from, written, listed, patched, s, key);
      s := AddReverse(old_, new_, s, key);
      patched := if key in new_ then patched else patched - {key};
      rest, listed := rest - {key}, listed + {key};
    }
    SplitsEnd(keys, listed);
  }

  lemma NothingLeft(old_: State, new_: State, reverse: set<nat>, patched: State, final: State)
    requires Differences(new_, old_, reverse) && Pruned(patched, new_, reverse, final)
    requires forall key :: key in new_ ==> key in patched && patched[key] == new_[key]
    requires forall key :: key in patched && key !in new_ ==> key in old_ && patched[key] == old_[key]
    ensures final == new_
  {
  }

  predicate DiffersAt(old_: State, new_: State, key: nat) {
    if key in old_ then key !in new_ || old_[key] != new_[key] else key in new_
  }

  lemma AllDifferencesWritten(old_: State, new_: State, forward: set<nat>, reverse: set<nat>)
    requires Differences(old_, new_, forward) && Differences(new_, old_, reverse)
    ensures forward + (reverse - new_.Keys) == forward + (old_.Keys - new_.Keys)
    ensures forall key :: DiffersAt(old_, new_, key) ==> key in forward + (old_.Keys - new_.Keys)
  {
  }

  // Positive and negative are what the rows gain and lose, and net change, their difference, is that
  // of the supplies; the three counts are those of the rows by kind, and created less deleted
  // accounts is the difference of the account counts. There is one row for every account that the
  // forward iterator lists or that is gone; every account that differs is one of these.
  method Diff(old_: State, new_: State, forward: set<nat>, reverse: set<nat>) returns (s: Summary)
    requires Differences(old_, new_, forward) && Differences(new_, old_, reverse)
    ensures s.positive == Gained(s.rows) && s.negative == Lost(s.rows)
    ensures s.net == s.positive - s.negative == Supply(new_) - Supply(old_)
    ensures s.created == Number(s.rows, Created) && s.changed == Number(s.rows, Changed)
    ensures s.deleted == Number(s.rows, Deleted) && s.created - s.deleted == |new_| - |old_|
    ensures |s.rows| == s.created + s.changed + s.deleted && TrueRows(old_, new_, s.rows)
    ensures RowsFor(s.rows, forward + (old_.Keys - new_.Keys))
    ensures forall key :: DiffersAt(old_, new_, key) ==> key in forward + (old_.Keys - new_.Keys)
  {
    ghost var patched, final;
    s, patched := Forward(old_, new_, forward);
    OnlyDeletionsLeft(old_, new_, forward, patched);
    s, final := Reverse(old_, new_, reverse, s, patched, forward);
    NothingLeft(old_, new_, reverse, patched, final);
    AllDifferencesWritten(old_, new_, forward, reverse);
  }
}
