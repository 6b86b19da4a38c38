/** The block that created each account: one binary search for all accounts at once. */
module CreationSearch {
  import opened Binary

  type Address = nat

  // What the node says about an account at a block.
  datatype Status = Status(balance: nat, nonce: nat, hasCode: bool)

  type Archive = (Address, int) -> Status

  predicate Exists(archive: Archive, address: Address, block: int) {
    var s := archive(address, block);
    s.balance != 0 || s.nonce != 0 || s.hasCode
  }

  // An account is absent if it has no balance, no nonce and no code.
  lemma AbsentIsEmpty(archive: Archive, address: Address, block: int)
    ensures !Exists(archive, address, block) <==> archive(address, block) == Status(0, 0, false)
  {
  }

  datatype Bounds = Bounds(low: int, high: int)

  // One account's share of a round.
  function Narrow(archive: Archive, address: Address, b: Bounds): Bounds {
    if b.low >= b.high then b
    else
      var block := b.low + (b.high - b.low) / 2;
      if Exists(archive, address, block) then Bounds(b.low, block) else Bounds(block + 1, b.high)
  }

  function Width(b: Bounds): nat {
    if b.low < b.high then b.high - b.low else 0
  }

  // What the search keeps for an account of which the end of the range is known.
  predicate Bracketed(archive: Archive, address: Address, b: Bounds, oldBlock: int, newBlock: int) {
    oldBlock < b.low <= b.high <= newBlock && !Exists(archive, address, b.low - 1) && Exists(archive, address, b.high)
  }

  lemma NarrowKeeps(archive: Archive, address: Address, b: Bounds, oldBlock: int, newBlock: int)
    ensures Bracketed(archive, address, b, oldBlock, newBlock) ==>
              Bracketed(archive, address, Narrow(archive, address, b), oldBlock, newBlock)
    ensures Width(Narrow(archive, address, b)) <= Width(b) / 2
  {
  }

  type Table = map<Address, Bounds>

  ghost predicate Narrowed(archive: Archive, before: Table, after: Table, rest: set<Address>) {
    (forall a :: a in after <==> a in before)
    && (forall a :: a in before && a !in rest ==> after[a] == Narrow(archive, a, before[a]))
    && (forall a :: a in before && a in rest ==> after[a] == before[a])
  }

  lemma NarrowedNext(archive: Archive, before: Table, after: Table, rest: set<Address>, address: Address)
    requires Narrowed(archive, before, after, rest) && address in rest && address in before
    ensures after[address] == before[address]
    ensures Narrowed(archive, before, after[address := Narrow(archive, address, before[address])], rest - {address})
  {
  }

  // One round: every account that is still open moves, on the answers of one batch.
  method Round(archive: Archive, bounds: Table) returns (r: Table)
    ensures Narrowed(archive, bounds, r, {})
  {
    r := bounds;
    var rest := bounds.Keys;
    while rest != {}
      invariant rest <= bounds.Keys && Narrowed(archive, bounds, r, rest)
      decreases |rest|
    {
      var address :| address in rest;
      NarrowedNext(archive, bounds, r, rest, address);
      var b := bounds[address];
      if b.low < b.high {
        var block := b.low + (b.high - b.low) / 2;
        if Exists(archive, address, block) {
          r := r[address := Bounds(b.low, block)];
        } else {
          r := r[address := Bounds(block + 1, b.high)];
        }
      }
      assert r[address] == Narrow(archive, address, b);
      rest := rest - {address};
    }
  }

  // Where an account was created: absent just before, there at the block.
  predicate Created(archive: Archive, address: Address, block: int) {
    Exists(archive, address, block) && !Exists(archive, address, block - 1)
  }

  ghost predicate Within(bounds: Table, width: nat) {
    forall a :: a in bounds ==> Width(bounds[a]) <= width
  }

  ghost predicate Searching(archive: Archive, bounds: Table, addresses: set<Address>, oldBlock: int, newBlock: int) {
    (forall a :: a in bounds <==> a in addresses)
    && forall a :: a in addresses && !Exists(archive, a, oldBlock) && Exists(archive, a, newBlock) ==>
         Bracketed(archive, a, bounds[a], oldBlock, newBlock)
  }

  lemma RoundKeeps(archive: Archive, before: Table, after: Table, addresses: set<Address>, oldBlock: int,
                   newBlock: int, width: nat)
    requires Narrowed(archive, before, after, {}) && Searching(archive, before, addresses, oldBlock, newBlock)
    requires Within(before, width)
    ensures Searching(archive, after, addresses, oldBlock, newBlock) && Within(after, width / 2)
  {
    forall a | a in after
      ensures Bracketed(archive, a, before[a], oldBlock, newBlock) ==>
                Bracketed(archive, a, after[a], oldBlock, newBlock)
      ensures Width(after[a]) <= width / 2
    {
      NarrowKeeps(archive, a, before[a], oldBlock, newBlock);
    }
  }

  // What every round keeps: `rounds` rounds and the bits of the width that is left are no more than
  // the bits of the whole range.
  ghost predicate OnTheWay(archive: Archive, bounds: Table, addresses: set<Address>, oldBlock: int, newBlock: int,
                           width: nat, rounds: nat) {
    oldBlock < newBlock && Searching(archive, bounds, addresses, oldBlock, newBlock) && Within(bounds, width)
    && rounds + Bits(width) == Bits(newBlock - oldBlock - 1)
  }

  lemma SearchStarts(archive: Archive, bounds: Table, addresses: set<Address>, oldBlock: int, newBlock: int)
    requires oldBlock < newBlock && bounds == map a | a in addresses :: Bounds(oldBlock + 1, newBlock)
    ensures OnTheWay(archive, bounds, addresses, oldBlock, newBlock, newBlock - oldBlock - 1, 0)
  {
  }

  lemma RoundOnTheWay(archive: Archive, before: Table, after: Table, addresses: set<Address>, oldBlock: int,
                      newBlock: int, width: nat, rounds: nat)
    requires OnTheWay(archive, before, addresses, oldBlock, newBlock, width, rounds)
    requires Narrowed(archive, before, after, {}) && exists a :: a in before && before[a].low < before[a].high
    ensures width > 0 && OnTheWay(archive, after, addresses, oldBlock, newBlock, width / 2, rounds + 1)
  {
    var a :| a in before && before[a].low < before[a].high;
    assert 0 < Width(before[a]) <= width;
    RoundKeeps(archive, before, after, addresses, oldBlock, newBlock, width);
  }

  lemma SearchEnds(archive: Archive, bounds: Table, addresses: set<Address>, oldBlock: int, newBlock: int,
                   width: nat, rounds: nat, a: Address)
    requires OnTheWay(archive, bounds, addresses, oldBlock, newBlock, width, rounds) && a in addresses
    requires !exists open :: open in bounds && bounds[open].low < bounds[open].high
    requires !Exists(archive, a, oldBlock) && Exists(archive, a, newBlock)
    ensures a in bounds && oldBlock < bounds[a].low <= newBlock && Created(archive, a, bounds[a].low)
  {
    assert a in bounds && !(bounds[a].low < bounds[a].high);
  }

  // The search for all accounts. Whatever an account does in between, when it is absent at the
  // old block and there at the new one its result is a block that created it; and the rounds are
  // bounded by the bits of the range's width, however many accounts there are.
  method Search(archive: Archive, addresses: set<Address>, oldBlock: int, newBlock: int)
    returns (blocks: map<Address, int>, rounds: nat)
    requires oldBlock < newBlock
    ensures blocks.Keys == addresses && rounds <= Bits(newBlock - oldBlock - 1)
    ensures forall a :: a in addresses && !Exists(archive, a, oldBlock) && Exists(archive, a, newBlock) ==>
              oldBlock < blocks[a] <= newBlock && Created(archive, a, blocks[a])
  {
    var bounds: Table := map a | a in addresses :: Bounds(oldBlock + 1, newBlock);
    rounds := 0;
    ghost var width: nat := newBlock - oldBlock - 1;
    SearchStarts(archive, bounds, addresses, oldBlock, newBlock);
    while exists a :: a in bounds && bounds[a].low < bounds[a].high
      invariant OnTheWay(archive, bounds, addresses, oldBlock, newBlock, width, rounds)
      decreases width
    {
      var next := Round(archive, bounds);
      RoundOnTheWay(archive, bounds, next, addresses, oldBlock, newBlock, width, rounds);
      bounds, rounds, width := next, rounds + 1, width / 2;
    }
    blocks := map a | a in addresses :: bounds[a].low;
    forall a | a in addresses && !Exists(archive, a, oldBlock) && Exists(archive, a, newBlock)
      ensures oldBlock < blocks[a] <= newBlock && Created(archive, a, blocks[a])
    {
      SearchEnds(archive, bounds, addresses, oldBlock, newBlock, width, rounds, a);
    }
  }

  // An account that never goes away was created once, so the block found is its first.
  lemma CreatedIsFirst(archive: Archive, address: Address, created: int, block: int, newBlock: int)
    requires Created(archive, address, created) && block <= newBlock && created <= newBlock
    requires Exists(archive, address, block)
    requires forall b, c :: b <= c <= newBlock && Exists(archive, address, b) ==> Exists(archive, address, c)
    ensures created <= block
  {
    assert block < created ==> Exists(archive, address, created - 1);
  }
}
