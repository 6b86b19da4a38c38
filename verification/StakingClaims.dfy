/** Staking claims grouped by delegator, and why their totals are those of the plain summation. */
module StakingClaims {
  import opened Base
  import opened Totals
  import opened Staking

  datatype Claim = Claim(address: Address, active: nat, pending: nat, reward: nat)

  // The claims by secure key, the totals kept beside them, and the validators seen.
  datatype Book = Book(claims: map<nat, Claim>, sums: Sums, validators: set<Address>)

  const NO_BOOK := Book(map[], NO_SUMS, {})

  function EntryFor(claims: map<nat, Claim>, key: nat, address: Address): Claim {
    if key in claims then claims[key] else Claim(address, 0, 0, 0)
  }

  function PendingOf(us: seq<Undelegation>): nat
    decreases |us|
  {
    if us == [] then 0
    else PendingOf(us[..|us| - 1]) + if NonNegative(us[|us| - 1].amount) then us[|us| - 1].amount.value else 0
  }

  // One delegation, added to its delegator's claim. A second address behind one key is an error.
  function ClaimDelegation(book: Book, keccak: Keccak, d: Delegation): Option<Book> {
    var key := keccak(d.delegator);
    match AddDelegation(book.sums, d)
    case None => None
    case Some(sums) =>
      if key in book.claims && book.claims[key].address != d.delegator then None
      else
        var entry := EntryFor(book.claims, key, d.delegator);
        Some(book.(sums := sums,
                   claims := book.claims[key := Claim(d.delegator, entry.active + d.amount.value,
                                                      entry.pending + PendingOf(d.undelegations),
                                                      entry.reward + d.reward.value)]))
  }

  function Delegators(ds: seq<Delegation>): set<Address>
    decreases |ds|
  {
    if ds == [] then {} else Delegators(ds[..|ds| - 1]) + {ds[|ds| - 1].delegator}
  }

  function ClaimDelegations(book: Book, keccak: Keccak, ds: seq<Delegation>): Option<Book>
    decreases |ds|
  {
    if ds == [] then Some(book)
    else
      match ClaimDelegations(book, keccak, ds[..|ds| - 1])
      case None => None
      case Some(b) =>
        if ds[|ds| - 1].delegator in Delegators(ds[..|ds| - 1]) then None
        else ClaimDelegation(b, keccak, ds[|ds| - 1])
  }

  function ClaimWrapper(book: Book, keccak: Keccak, wrapper: Wrapper): Option<Book> {
    if wrapper.address in book.validators then None
    else ClaimDelegations(book.(validators := book.validators + {wrapper.address}), keccak, wrapper.delegations)
  }

  function ClaimAccount(book: Book, keccak: Keccak, account: Account): Option<Book> {
    match Examine(account, keccak)
    case Ordinary => Some(book)
    case Corrupt => None
    case Validator(wrapper) => ClaimWrapper(book, keccak, wrapper)
  }

  function ClaimAccounts(keccak: Keccak, accounts: seq<Account>): Option<Book>
    decreases |accounts|
  {
    if accounts == [] then Some(NO_BOOK)
    else
      match ClaimAccounts(keccak, accounts[..|accounts| - 1])
      case None => None
      case Some(book) => ClaimAccount(book, keccak, accounts[|accounts| - 1])
  }

  lemma {:induction false} ClaimsStop(book: Book, keccak: Keccak, ds: seq<Delegation>, i: nat)
    requires i <= |ds| && ClaimDelegations(book, keccak, ds[..i]).None?
    ensures ClaimDelegations(book, keccak, ds).None?
    decreases |ds|
  {
    if i == |ds| {
      assert ds[..i] == ds;
    } else {
      assert ds[..|ds| - 1][..i] == ds[..i];
      ClaimsStop(book, keccak, ds[..|ds| - 1], i);
    }
  }

  lemma {:induction false} ClaimAccountsStop(keccak: Keccak, accounts: seq<Account>, i: nat)
    requires i <= |accounts| && ClaimAccounts(keccak, accounts[..i]).None?
    ensures ClaimAccounts(keccak, accounts).None?
    decreases |accounts|
  {
    if i == |accounts| {
      assert accounts[..i] == accounts;
    } else {
      assert accounts[..|accounts| - 1][..i] == accounts[..i];
      ClaimAccountsStop(keccak, accounts[..|accounts| - 1], i);
    }
  }

  lemma {:induction false} PendingAdded(s: Sums, us: seq<Undelegation>)
    requires AddUndelegations(s, us).Some?
    ensures AddUndelegations(s, us).value
         == s.(pending := s.pending + PendingOf(us), undelegations := s.undelegations + |us|)
    decreases |us|
  {
    if us != [] {
      PendingAdded(s, us[..|us| - 1]);
    }
  }

  // ---- the map updated in place ----------------------------------------

  // A claim with more pending.
  function PutPending(claims: map<nat, Claim>, key: nat, amount: nat): map<nat, Claim>
    requires key in claims
  {
    claims[key := claims[key].(pending := claims[key].pending + amount)]
  }

  lemma PutPendingTwice(claims: map<nat, Claim>, key: nat, first: nat, second: nat)
    requires key in claims
    ensures PutPending(PutPending(claims, key, first), key, second) == PutPending(claims, key, first + second)
  {
  }

  class ClaimBook {
    const keccak: Keccak
    var claims: map<nat, Claim>
    var sums: Sums
    var validators: set<Address>

    function Contents(): Book
      reads this
    {
      Book(claims, sums, validators)
    }

    constructor (keccak: Keccak)
      ensures this.keccak == keccak && Contents() == NO_BOOK
    {
      this.keccak := keccak;
      claims, sums, validators := map[], NO_SUMS, {};
    }

    // The loop over a delegation's undelegations, which adds to the claim at `key`.
    method ClaimUndelegations(key: nat, d: Delegation) returns (ok: bool)
      requires key in claims
      modifies this
      ensures ok <==> AddUndelegations(old(sums), d.undelegations).Some?
      ensures ok ==> sums == AddUndelegations(old(sums), d.undelegations).value && validators == old(validators)
                     && claims == PutPending(old(claims), key, PendingOf(d.undelegations))
    {
      var us := d.undelegations;
      for j := 0 to |us|
        invariant AddUndelegations(old(sums), us[..j]) == Some(sums) && validators == old(validators)
        invariant claims == PutPending(old(claims), key, PendingOf(us[..j]))
      {
        assert us[..j + 1][..j] == us[..j];
        if !NonNegative(us[j].amount) || !NonNegative(us[j].epoch) {
          UndelegationsStop(old(sums), us, j + 1);
          return false;
        }
        PutPendingTwice(old(claims), key, PendingOf(us[..j]), us[j].amount.value);
        sums := sums.(undelegations := sums.undelegations + 1, pending := sums.pending + us[j].amount.value);
        claims := claims[key := claims[key].(pending := claims[key].pending + us[j].amount.value)];
      }
      assert us[..|us|] == us;
      ok := true;
    }

    method AddClaim(d: Delegation) returns (ok: bool)
      modifies this
      ensures var r := ClaimDelegation(old(Contents()), keccak, d); ok == r.Some? && (ok ==> Contents() == r.value)
    {
      if !NonNegative(d.amount) || !NonNegative(d.reward) { return false; }
      var key := keccak(d.delegator);
      if key !in claims {
        claims := claims[key := EntryFor(claims, key, d.delegator)];
      } else if claims[key].address != d.delegator {
        return false;
      }
      var entry := claims[key];
      claims := claims[key := entry.(active := entry.active + d.amount.value, reward := entry.reward + d.reward.value)];
      sums := sums.(delegations := sums.delegations + 1, active := sums.active + d.amount.value,
                    reward := sums.reward + d.reward.value);
      ok := ClaimUndelegations(key, d);
    }

    // The loop over a wrapper's delegations.
    method ClaimEach(ds: seq<Delegation>) returns (ok: bool)
      modifies this
      ensures var r := ClaimDelegations(old(Contents()), keccak, ds); ok == r.Some? && (ok ==> Contents() == r.value)
    {
      var seen: set<Address> := {};
      ghost var book := Contents();
      for i := 0 to |ds|
        invariant ClaimDelegations(book, keccak, ds[..i]) == Some(Contents())
        invariant seen == Delegators(ds[..i])
      {
        assert ds[..i + 1][..i] == ds[..i];
        if ds[i].delegator in seen {
          ClaimsStop(book, keccak, ds, i + 1);
          return false;
        }
        seen := seen + {ds[i].delegator};
        ok := AddClaim(ds[i]);
        if !ok {
          ClaimsStop(book, keccak, ds, i + 1);
          return false;
        }
      }
      assert ds[..|ds|] == ds;
      ok := true;
    }

    // `processValidator`, once the wrapper is known to be valid.
    method ProcessValidator(wrapper: Wrapper) returns (ok: bool)
      modifies this
      ensures var r := ClaimWrapper(old(Contents()), keccak, wrapper); ok == r.Some? && (ok ==> Contents() == r.value)
    {
      if wrapper.address in validators { return false; }
      validators := validators + {wrapper.address};
      ok := ClaimEach(wrapper.delegations);
    }

    // The discovery loop.
    method Discover(accounts: seq<Account>) returns (ok: bool)
      requires Contents() == NO_BOOK
      modifies this
      ensures var r := ClaimAccounts(keccak, accounts); ok == r.Some? && (ok ==> Contents() == r.value)
    {
      for i := 0 to |accounts|
        invariant ClaimAccounts(keccak, accounts[..i]) == Some(Contents())
      {
        assert accounts[..i + 1][..i] == accounts[..i];
        ok := true;
        match Examine(accounts[i], keccak) {
          case Ordinary =>
          case Corrupt => ok := false;
          case Validator(wrapper) => ok := ProcessValidator(wrapper);
        }
        if !ok {
          ClaimAccountsStop(keccak, accounts, i + 1);
          return false;
        }
      }
      assert accounts[..|accounts|] == accounts;
      ok := true;
    }
  }

  // ---- both summations agree -------------------------------------------

  // One column of the claims.
  datatype Column = Active | Pending | Reward

  function Amount(claim: Claim, column: Column): nat {
    match column
    case Active => claim.active
    case Pending => claim.pending
    case Reward => claim.reward
  }

  function Total(sums: Sums, column: Column): nat {
    match column
    case Active => sums.active
    case Pending => sums.pending
    case Reward => sums.reward
  }

  function Amounts(claims: map<nat, Claim>, column: Column): map<nat, int> {
    map key | key in claims :: Amount(claims[key], column)
  }

  lemma AmountsPut(claims: map<nat, Claim>, key: nat, claim: Claim, column: Column)
    ensures SumMap(Amounts(claims[key := claim], column))
         == SumMap(Amounts(claims, column)) - (if key in claims then Amount(claims[key], column) else 0)
           + Amount(claim, column)
  {
    SumMapPut(Amounts(claims, column), key, Amount(claim, column));
    assert Amounts(claims[key := claim], column) == Amounts(claims, column)[key := Amount(claim, column) as int];
  }

  function Part(d: Delegation, column: Column): int {
    match column
    case Active => if d.amount.Some? then d.amount.value else 0
    case Pending => PendingOf(d.undelegations)
    case Reward => if d.reward.Some? then d.reward.value else 0
  }

  function ClaimedAt(claims: map<nat, Claim>, key: nat, column: Column): nat {
    if key in claims then Amount(claims[key], column) else 0
  }

  lemma DelegationDue(book: Book, keccak: Keccak, d: Delegation, key: nat, column: Column)
    requires ClaimDelegation(book, keccak, d).Some?
    ensures ClaimedAt(ClaimDelegation(book, keccak, d).value.claims, key, column)
         == ClaimedAt(book.claims, key, column) + if keccak(d.delegator) == key then Part(d, column) else 0
  {
  }

  lemma DelegationTotal(s: Sums, d: Delegation, column: Column)
    requires AddDelegation(s, d).Some?
    ensures Total(AddDelegation(s, d).value, column) == Total(s, column) + Part(d, column)
  {
    PendingAdded(s.(active := s.active + d.amount.value, reward := s.reward + d.reward.value,
                    delegations := s.delegations + 1),
                 d.undelegations);
  }

  lemma DelegationBalanced(book: Book, keccak: Keccak, d: Delegation, column: Column)
    requires ClaimDelegation(book, keccak, d).Some?
    requires SumMap(Amounts(book.claims, column)) == Total(book.sums, column)
    ensures var b := ClaimDelegation(book, keccak, d).value;
            SumMap(Amounts(b.claims, column)) == Total(b.sums, column)
  {
    var key := keccak(d.delegator);
    var b := ClaimDelegation(book, keccak, d).value;
    DelegationTotal(book.sums, d, column);
    DelegationDue(book, keccak, d, key, column);
    AmountsPut(book.claims, key, b.claims[key], column);
  }

  lemma {:induction false} DelegationsBalanced(book: Book, keccak: Keccak, ds: seq<Delegation>, column: Column)
    requires ClaimDelegations(book, keccak, ds).Some?
    requires SumMap(Amounts(book.claims, column)) == Total(book.sums, column)
    ensures var b := ClaimDelegations(book, keccak, ds).value;
            SumMap(Amounts(b.claims, column)) == Total(b.sums, column)
    ensures AddDelegations(book.sums, ds) == Some(ClaimDelegations(book, keccak, ds).value.sums)
    decreases |ds|
  {
    if ds != [] {
      DelegationsBalanced(book, keccak, ds[..|ds| - 1], column);
      DelegationBalanced(ClaimDelegations(book, keccak, ds[..|ds| - 1]).value, keccak, ds[|ds| - 1], column);
    }
  }

  lemma {:induction false} DelegationsKeepValidators(book: Book, keccak: Keccak, ds: seq<Delegation>)
    requires ClaimDelegations(book, keccak, ds).Some?
    ensures ClaimDelegations(book, keccak, ds).value.validators == book.validators
    decreases |ds|
  {
    if ds != [] {
      DelegationsKeepValidators(book, keccak, ds[..|ds| - 1]);
    }
  }

  // When both programs get through the same accounts, the claims of all delegators add up, column
  // by column, to the totals that were summed without grouping.
  lemma {:induction false} SummationsAgree(accounts: seq<Account>, keccak: Keccak, column: Column)
    requires AddAccounts(accounts, keccak).Some? && ClaimAccounts(keccak, accounts).Some?
    ensures var p, b := AddAccounts(accounts, keccak).value, ClaimAccounts(keccak, accounts).value;
            p.sums == b.sums && p.validators == b.validators
            && SumMap(Amounts(b.claims, column)) == Total(p.sums, column)
    decreases |accounts|
  {
    if accounts == [] {
      assert Amounts(map[], column) == map[];
    } else {
      var front, last := accounts[..|accounts| - 1], accounts[|accounts| - 1];
      SummationsAgree(front, keccak, column);
      match Examine(last, keccak)
      case Ordinary =>
      case Corrupt =>
      case Validator(wrapper) =>
        var before := ClaimAccounts(keccak, front).value;
        var open := before.(validators := before.validators + {wrapper.address});
        DelegationsBalanced(open, keccak, wrapper.delegations, column);
        DelegationsKeepValidators(open, keccak, wrapper.delegations);
    }
  }

  // ---- what a claim is -------------------------------------------------

  // Every delegation of a state, validator after validator.
  function AllDelegations(accounts: seq<Account>, keccak: Keccak): seq<Delegation>
    decreases |accounts|
  {
    if accounts == [] then []
    else
      match Examine(accounts[|accounts| - 1], keccak)
      case Validator(wrapper) => AllDelegations(accounts[..|accounts| - 1], keccak) + wrapper.delegations
      case _ => AllDelegations(accounts[..|accounts| - 1], keccak)
  }

  // ---- when the claims succeed -----------------------------------------

  // No delegator twice.
  predicate NoRepeats(ds: seq<Delegation>)
    decreases |ds|
  {
    ds == [] || (NoRepeats(ds[..|ds| - 1]) && ds[|ds| - 1].delegator !in Delegators(ds[..|ds| - 1]))
  }

  // No wrapper lists a delegator twice.
  predicate WrappersClean(accounts: seq<Account>, keccak: Keccak)
    decreases |accounts|
  {
    accounts == []
    || (WrappersClean(accounts[..|accounts| - 1], keccak)
        && match Examine(accounts[|accounts| - 1], keccak)
           case Validator(wrapper) => NoRepeats(wrapper.delegations)
           case _ => true)
  }

  function DelegatorList(ds: seq<Delegation>): (all: seq<Address>)
    ensures |all| == |ds| && forall i :: 0 <= i < |ds| ==> all[i] == ds[i].delegator
  {
    seq(|ds|, i requires 0 <= i < |ds| => ds[i].delegator)
  }

  lemma DelegatorListMore(ds: seq<Delegation>)
    requires ds != []
    ensures DelegatorList(ds) == DelegatorList(ds[..|ds| - 1]) + [ds[|ds| - 1].delegator]
  {
  }

  lemma {:induction false} DelegatorsAre(ds: seq<Delegation>, a: Address)
    ensures a in Delegators(ds) <==> a in DelegatorList(ds)
    decreases |ds|
  {
    if ds != [] {
      DelegatorsAre(ds[..|ds| - 1], a);
      DelegatorListMore(ds);
    }
  }

  lemma {:induction false} NoRepeatsAre(ds: seq<Delegation>)
    ensures NoRepeats(ds) <==> Different(DelegatorList(ds))
    decreases |ds|
  {
    if ds != [] {
      NoRepeatsAre(ds[..|ds| - 1]);
      DelegatorsAre(ds[..|ds| - 1], ds[|ds| - 1].delegator);
      DelegatorListMore(ds);
      DifferentMore(DelegatorList(ds[..|ds| - 1]), ds[|ds| - 1].delegator);
    }
  }

  // The clean states are those where every validator's delegators are different.
  lemma {:induction false} CleanWrappers(accounts: seq<Account>, keccak: Keccak)
    ensures WrappersClean(accounts, keccak)
       <==> forall w :: w in Wrappers(accounts, keccak) ==> Different(DelegatorList(w.delegations))
    decreases |accounts|
  {
    if accounts != [] {
      CleanWrappers(accounts[..|accounts| - 1], keccak);
      match Examine(accounts[|accounts| - 1], keccak)
      case Ordinary =>
      case Corrupt =>
      case Validator(wrapper) => NoRepeatsAre(wrapper.delegations);
    }
  }

  // No two delegators share a secure key.
  predicate KeysApart(ds: seq<Delegation>, keccak: Keccak) {
    forall i, j :: 0 <= i < |ds| && 0 <= j < |ds| && keccak(ds[i].delegator) == keccak(ds[j].delegator) ==>
      ds[i].delegator == ds[j].delegator
  }

  // The claims are those of some delegations: one behind every delegator's key, under its address.
  ghost predicate ClaimsFor(claims: map<nat, Claim>, keccak: Keccak, ds: seq<Delegation>) {
    (forall i :: 0 <= i < |ds| ==>
       keccak(ds[i].delegator) in claims && claims[keccak(ds[i].delegator)].address == ds[i].delegator)
    && forall key :: key in claims ==> exists i :: 0 <= i < |ds| && keccak(ds[i].delegator) == key
  }

  lemma ClaimsApart(claims: map<nat, Claim>, keccak: Keccak, ds: seq<Delegation>)
    requires ClaimsFor(claims, keccak, ds)
    ensures KeysApart(ds, keccak)
  {
  }

  // One more delegation is accepted exactly when its key is not another delegator's.
  lemma ClaimAccepted(book: Book, keccak: Keccak, seen: seq<Delegation>, d: Delegation)
    requires ClaimsFor(book.claims, keccak, seen) && AddDelegation(book.sums, d).Some?
    ensures ClaimDelegation(book, keccak, d).Some? <==> KeysApart(seen + [d], keccak)
    ensures ClaimDelegation(book, keccak, d).Some? ==>
              ClaimsFor(ClaimDelegation(book, keccak, d).value.claims, keccak, seen + [d])
  {
    var key, all := keccak(d.delegator), seen + [d];
    ClaimsApart(book.claims, keccak, seen);
    assert all[|seen|] == d;
    if key in book.claims && book.claims[key].address != d.delegator {
      var i :| 0 <= i < |seen| && keccak(seen[i].delegator) == key;
      assert all[i] == seen[i];
    } else {
      var after := ClaimDelegation(book, keccak, d).value.claims;
      forall k | k in after ensures exists i :: 0 <= i < |all| && keccak(all[i].delegator) == k {
        if k in book.claims {
          var i :| 0 <= i < |seen| && keccak(seen[i].delegator) == k;
          assert all[i] == seen[i];
        }
      }
      assert ClaimsFor(after, keccak, all);
      ClaimsApart(after, keccak, all);
    }
  }

  lemma ApartBefore(u: seq<Delegation>, v: seq<Delegation>, keccak: Keccak)
    requires KeysApart(u + v, keccak)
    ensures KeysApart(u, keccak)
  {
    assert forall i :: 0 <= i < |u| ==> (u + v)[i] == u[i];
  }

  lemma {:induction false} ClaimsAccepted(book: Book, keccak: Keccak, seen: seq<Delegation>, ds: seq<Delegation>)
    requires ClaimsFor(book.claims, keccak, seen) && AddDelegations(book.sums, ds).Some?
    ensures ClaimDelegations(book, keccak, ds).Some? <==> NoRepeats(ds) && KeysApart(seen + ds, keccak)
    ensures ClaimDelegations(book, keccak, ds).Some? ==>
              ClaimDelegations(book, keccak, ds).value.sums == AddDelegations(book.sums, ds).value
              && ClaimsFor(ClaimDelegations(book, keccak, ds).value.claims, keccak, seen + ds)
    decreases |ds|
  {
    if ds == [] {
      assert seen + ds == seen;
      ClaimsApart(book.claims, keccak, seen);
    } else {
      var front, last := ds[..|ds| - 1], ds[|ds| - 1];
      assert seen + ds == (seen + front) + [last];
      ClaimsAccepted(book, keccak, seen, front);
      if ClaimDelegations(book, keccak, front).Some? {
        ClaimAccepted(ClaimDelegations(book, keccak, front).value, keccak, seen + front, last);
      } else if KeysApart(seen + ds, keccak) {
        ApartBefore(seen + front, [last], keccak);
      }
    }
  }

  // Where the plain summation gets through, grouping by delegator does if and only if no wrapper
  // lists a delegator twice and no two delegators share a secure key; then there is one claim for
  // every delegator.
  lemma {:induction false} ClaimsSucceed(accounts: seq<Account>, keccak: Keccak)
    requires AddAccounts(accounts, keccak).Some?
    ensures ClaimAccounts(keccak, accounts).Some?
       <==> WrappersClean(accounts, keccak) && KeysApart(AllDelegations(accounts, keccak), keccak)
    ensures ClaimAccounts(keccak, accounts).Some? ==>
              ClaimsFor(ClaimAccounts(keccak, accounts).value.claims, keccak, AllDelegations(accounts, keccak))
    decreases |accounts|
  {
    if accounts != [] {
      var front, last := accounts[..|accounts| - 1], accounts[|accounts| - 1];
      ClaimsSucceed(front, keccak);
      match Examine(last, keccak)
      case Ordinary =>
      case Corrupt =>
      case Validator(wrapper) =>
        var seen := AllDelegations(front, keccak);
        if ClaimAccounts(keccak, front).Some? {
          var before := ClaimAccounts(keccak, front).value;
          SummationsAgree(front, keccak, Active);
          ClaimsAccepted(before.(validators := before.validators + {wrapper.address}), keccak, seen,
                         wrapper.delegations);
        } else if KeysApart(seen + wrapper.delegations, keccak) {
          ApartBefore(seen, wrapper.delegations, keccak);
        }
    }
  }

  // What some delegations owe: to the delegators behind one key, and to all.
  function DueTo(ds: seq<Delegation>, keccak: Keccak, key: nat, column: Column): int
    decreases |ds|
  {
    if ds == [] then 0
    else
      DueTo(ds[..|ds| - 1], keccak, key, column)
      + if keccak(ds[|ds| - 1].delegator) == key then Part(ds[|ds| - 1], column) else 0
  }

  function Due(ds: seq<Delegation>, column: Column): int
    decreases |ds|
  {
    if ds == [] then 0 else Due(ds[..|ds| - 1], column) + Part(ds[|ds| - 1], column)
  }

  lemma {:induction false} DueJoined(u: seq<Delegation>, v: seq<Delegation>, keccak: Keccak, key: nat, column: Column)
    ensures DueTo(u + v, keccak, key, column) == DueTo(u, keccak, key, column) + DueTo(v, keccak, key, column)
    ensures Due(u + v, column) == Due(u, column) + Due(v, column)
    decreases |v|
  {
    if v == [] {
      assert u + v == u;
    } else {
      assert (u + v)[..|u + v| - 1] == u + v[..|v| - 1];
      DueJoined(u, v[..|v| - 1], keccak, key, column);
    }
  }

  lemma {:induction false} DelegationsDue(book: Book, keccak: Keccak, ds: seq<Delegation>, key: nat, column: Column)
    requires ClaimDelegations(book, keccak, ds).Some?
    ensures ClaimedAt(ClaimDelegations(book, keccak, ds).value.claims, key, column)
         == ClaimedAt(book.claims, key, column) + DueTo(ds, keccak, key, column)
    decreases |ds|
  {
    if ds != [] {
      DelegationsDue(book, keccak, ds[..|ds| - 1], key, column);
      DelegationDue(ClaimDelegations(book, keccak, ds[..|ds| - 1]).value, keccak, ds[|ds| - 1], key, column);
    }
  }

  // Every claim is what all validators' delegations owe to the delegator behind its key.
  lemma {:induction false} ClaimIsDue(accounts: seq<Account>, keccak: Keccak, key: nat, column: Column)
    requires ClaimAccounts(keccak, accounts).Some?
    ensures ClaimedAt(ClaimAccounts(keccak, accounts).value.claims, key, column)
         == DueTo(AllDelegations(accounts, keccak), keccak, key, column)
    decreases |accounts|
  {
    if accounts != [] {
      var front, last := accounts[..|accounts| - 1], accounts[|accounts| - 1];
      ClaimIsDue(front, keccak, key, column);
      match Examine(last, keccak)
      case Ordinary =>
      case Corrupt =>
      case Validator(wrapper) =>
        var before := ClaimAccounts(keccak, front).value;
        DelegationsDue(before.(validators := before.validators + {wrapper.address}), keccak, wrapper.delegations, key,
                       column);
        DueJoined(AllDelegations(front, keccak), wrapper.delegations, keccak, key, column);
    }
  }

  lemma {:induction false} DelegationsTotal(s: Sums, ds: seq<Delegation>, column: Column)
    requires AddDelegations(s, ds).Some?
    ensures Total(AddDelegations(s, ds).value, column) == Total(s, column) + Due(ds, column)
    decreases |ds|
  {
    if ds != [] {
      DelegationsTotal(s, ds[..|ds| - 1], column);
      DelegationTotal(AddDelegations(s, ds[..|ds| - 1]).value, ds[|ds| - 1], column);
    }
  }

  // The totals are what all validators' delegations owe altogether.
  lemma {:induction false} TotalIsDue(accounts: seq<Account>, keccak: Keccak, column: Column)
    requires AddAccounts(accounts, keccak).Some?
    ensures Total(AddAccounts(accounts, keccak).value.sums, column) == Due(AllDelegations(accounts, keccak), column)
    decreases |accounts|
  {
    if accounts != [] {
      var front, last := accounts[..|accounts| - 1], accounts[|accounts| - 1];
      TotalIsDue(front, keccak, column);
      match Examine(last, keccak)
      case Ordinary =>
      case Corrupt =>
      case Validator(wrapper) =>
        DelegationsTotal(AddAccounts(front, keccak).value.sums, wrapper.delegations, column);
        DueJoined(AllDelegations(front, keccak), wrapper.delegations, keccak, 0, column);
    }
  }

  // ---- the rows --------------------------------------------------------

  datatype StakeRow = StakeRow(key: nat, claim: Claim)

  predicate NonZero(claim: Claim) {
    claim.active != 0 || claim.pending != 0 || claim.reward != 0
  }

  function RowKeys(rows: seq<StakeRow>): (keys: seq<nat>)
    ensures |keys| == |rows|
    decreases |rows|
  {
    if rows == [] then [] else RowKeys(rows[..|rows| - 1]) + [rows[|rows| - 1].key]
  }

  // The non-zero claims in key order.
  ghost predicate RowsOf(claims: map<nat, Claim>, rows: seq<StakeRow>) {
    Increasing(RowKeys(rows))
    && (forall i :: 0 <= i < |rows| ==> rows[i].key in claims && claims[rows[i].key] == rows[i].claim)
    && (forall key :: key in RowKeys(rows) <==> key in claims && NonZero(claims[key]))
  }

  method ListRows(claims: map<nat, Claim>) returns (rows: seq<StakeRow>)
    ensures RowsOf(claims, rows)
  {
    var keys := Sort(set key | key in claims && NonZero(claims[key]));
    rows := [];
    for i := 0 to |keys|
      invariant RowKeys(rows) == keys[..i]
      invariant forall j :: 0 <= j < |rows| ==> rows[j].key in claims && claims[rows[j].key] == rows[j].claim
    {
      assert keys[i] in keys;
      rows := rows + [StakeRow(keys[i], claims[keys[i]])];
      assert rows[..|rows| - 1] == rows[..i] && rows[|rows| - 1].key == keys[i];
    }
    assert keys[..|keys|] == keys;
  }

  function ColumnSum(rows: seq<StakeRow>, column: Column): nat
    decreases |rows|
  {
    if rows == [] then 0 else ColumnSum(rows[..|rows| - 1], column) + Amount(rows[|rows| - 1].claim, column)
  }

  lemma {:induction false} RowKeysAre(rows: seq<StakeRow>, i: nat)
    requires i < |rows|
    ensures RowKeys(rows)[i] == rows[i].key
    decreases |rows|
  {
    if i < |rows| - 1 {
      RowKeysAre(rows[..|rows| - 1], i);
    }
  }

  // A claim has a row if and only if something is claimed in one of its columns.
  lemma ListedClaims(claims: map<nat, Claim>, rows: seq<StakeRow>, key: nat)
    requires RowsOf(claims, rows)
    ensures (exists i :: 0 <= i < |rows| && rows[i].key == key)
       <==> key in claims && claims[key].active + claims[key].pending + claims[key].reward > 0
  {
    if key in RowKeys(rows) {
      var i :| 0 <= i < |RowKeys(rows)| && RowKeys(rows)[i] == key;
      RowKeysAre(rows, i);
    }
    if i :| 0 <= i < |rows| && rows[i].key == key {
      RowKeysAre(rows, i);
    }
  }

  lemma {:induction false} ColumnIsSum(claims: map<nat, Claim>, rows: seq<StakeRow>, column: Column)
    requires forall i :: 0 <= i < |rows| ==> rows[i].key in claims && claims[rows[i].key] == rows[i].claim
    ensures ColumnSum(rows, column) == SumKeys(Amounts(claims, column), RowKeys(rows))
    decreases |rows|
  {
    if rows != [] {
      ColumnIsSum(claims, rows[..|rows| - 1], column);
    }
  }

  // Leaving the zero claims out and sorting the rest changes no column's sum.
  lemma RowsKeepTotals(claims: map<nat, Claim>, rows: seq<StakeRow>, column: Column)
    requires RowsOf(claims, rows)
    ensures ColumnSum(rows, column) == SumMap(Amounts(claims, column))
  {
    var all, keys := Amounts(claims, column), RowKeys(rows);
    var kept: map<nat, int> := map key | key in all && key in keys :: all[key];
    ColumnIsSum(claims, rows, column);
    SumKeysSame(all, kept, keys);
    SumListed(kept, keys);
    SumWithoutZeros(all, kept);
  }
}
