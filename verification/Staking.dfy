/** Validator state and its two independent summations: plain totals, and claims per delegator. */
module Staking {
  import opened Base

  type Address = nat

  // Amounts can be absent or, in decoded data, negative.
  datatype Undelegation = Undelegation(amount: Option<int>, epoch: Option<int>)

  datatype Delegation = Delegation(delegator: Address, amount: Option<int>, reward: Option<int>,
                                   undelegations: seq<Undelegation>)

  datatype Wrapper = Wrapper(address: Address, delegations: seq<Delegation>, blockReward: Option<int>)

  // Stored code under an account's code hash: whether it was found under the validator prefix,
  // whether it hashes to the code hash, and the wrapper it decodes to.
  datatype Code = Code(prefixed: bool, hashMatches: bool, wrapper: Option<Wrapper>)

  // An account of the state trie. `code` is absent when no code is stored.
  datatype Account = Account(key: nat, balance: Option<int>, codeBearing: bool, code: Option<Code>)

  // Keccak-256 of an address, as the trie uses it for its keys.
  type Keccak = Address -> nat

  datatype Examined = Ordinary | Corrupt | Validator(wrapper: Wrapper)

  // What both programs make of an account's code.
  function Examine(account: Account, keccak: Keccak): Examined {
    if !account.codeBearing || account.code.None? then Ordinary
    else
      var Code(prefixed, hashMatches, wrapper) := account.code.value;
      if hashMatches && wrapper.Some? && keccak(wrapper.value.address) == account.key then Validator(wrapper.value)
      else if prefixed then Corrupt
      else Ordinary
  }

  predicate NonNegative(value: Option<int>) {
    value.Some? && value.value >= 0
  }

  // ---- totals ----------------------------------------------------------

  datatype Sums = Sums(active: nat, pending: nat, reward: nat, delegations: nat, undelegations: nat)

  const NO_SUMS := Sums(0, 0, 0, 0, 0)

  function AddUndelegations(s: Sums, us: seq<Undelegation>): Option<Sums>
    decreases |us|
  {
    if us == [] then Some(s)
    else
      match AddUndelegations(s, us[..|us| - 1])
      case None => None
      case Some(t) =>
        var u := us[|us| - 1];
        if !NonNegative(u.amount) || !NonNegative(u.epoch) then None
        else Some(t.(pending := t.pending + u.amount.value, undelegations := t.undelegations + 1))
  }

  function AddDelegation(s: Sums, d: Delegation): Option<Sums> {
    if !NonNegative(d.amount) || !NonNegative(d.reward) then None
    else AddUndelegations(s.(active := s.active + d.amount.value, reward := s.reward + d.reward.value,
                             delegations := s.delegations + 1), d.undelegations)
  }

  function AddDelegations(s: Sums, ds: seq<Delegation>): Option<Sums>
    decreases |ds|
  {
    if ds == [] then Some(s)
    else
      match AddDelegations(s, ds[..|ds| - 1])
      case None => None
      case Some(t) => AddDelegation(t, ds[|ds| - 1])
  }

  lemma {:induction false} UndelegationsStop(s: Sums, us: seq<Undelegation>, i: nat)
    requires i <= |us| && AddUndelegations(s, us[..i]).None?
    ensures AddUndelegations(s, us).None?
    decreases |us|
  {
    if i == |us| {
      assert us[..i] == us;
    } else {
      assert us[..|us| - 1][..i] == us[..i];
      UndelegationsStop(s, us[..|us| - 1], i);
    }
  }

  lemma {:induction false} DelegationsStop(s: Sums, ds: seq<Delegation>, i: nat)
    requires i <= |ds| && AddDelegations(s, ds[..i]).None?
    ensures AddDelegations(s, ds).None?
    decreases |ds|
  {
    if i == |ds| {
      assert ds[..i] == ds;
    } else {
      assert ds[..|ds| - 1][..i] == ds[..i];
      DelegationsStop(s, ds[..|ds| - 1], i);
    }
  }

  // What the totals program knows after some accounts.
  datatype Progress = Progress(sums: Sums, accounts: nat, positive: nat, codeBearing: nat, liquid: nat,
                               validators: set<Address>, blockReward: nat)

  const NO_PROGRESS := Progress(NO_SUMS, 0, 0, 0, 0, {}, 0)

  function AddWrapper(p: Progress, wrapper: Wrapper): Option<Progress> {
    if wrapper.address in p.validators || !NonNegative(wrapper.blockReward) then None
    else
      match AddDelegations(p.sums, wrapper.delegations)
      case None => None
      case Some(sums) =>
        Some(p.(sums := sums, validators := p.validators + {wrapper.address},
                blockReward := p.blockReward + wrapper.blockReward.value))
  }

  // What is counted of an account before its code is looked at.
  function Seen(p: Progress, account: Account): Progress
    requires NonNegative(account.balance)
  {
    var balance := account.balance.value;
    p.(accounts := p.accounts + 1, positive := p.positive + Bit(balance > 0),
       codeBearing := p.codeBearing + Bit(account.codeBearing), liquid := p.liquid + balance)
  }

  function AddAccount(p: Progress, account: Account, keccak: Keccak): Option<Progress> {
    if !NonNegative(account.balance) then None
    else
      match Examine(account, keccak)
      case Ordinary => Some(Seen(p, account))
      case Corrupt => None
      case Validator(wrapper) => AddWrapper(Seen(p, account), wrapper)
  }

  function AddAccounts(accounts: seq<Account>, keccak: Keccak): Option<Progress>
    decreases |accounts|
  {
    if accounts == [] then Some(NO_PROGRESS)
    else
      match AddAccounts(accounts[..|accounts| - 1], keccak)
      case None => None
      case Some(p) => AddAccount(p, accounts[|accounts| - 1], keccak)
  }

  // `accumulator`, with the fields this model keeps.
  class Accumulator {
    var progress: Progress

    constructor ()
      ensures progress == NO_PROGRESS
    {
      progress := NO_PROGRESS;
    }

    method AddUndelegationsOf(d: Delegation) returns (ok: bool)
      modifies this
      ensures var r := AddUndelegations(old(progress).sums, d.undelegations);
              ok == r.Some? && (ok ==> progress == old(progress).(sums := r.value))
    {
      for j := 0 to |d.undelegations|
        invariant AddUndelegations(old(progress).sums, d.undelegations[..j]) == Some(progress.sums)
        invariant progress == old(progress).(sums := progress.sums)
      {
        var u := d.undelegations[j];
        assert d.undelegations[..j + 1][..j] == d.undelegations[..j];
        if !NonNegative(u.amount) || !NonNegative(u.epoch) {
          UndelegationsStop(old(progress).sums, d.undelegations, j + 1);
          return false;
        }
        var sums := progress.sums;
        progress := progress.(sums := sums.(undelegations := sums.undelegations + 1,
                                            pending := sums.pending + u.amount.value));
      }
      assert d.undelegations[..|d.undelegations|] == d.undelegations;
      ok := true;
    }

    // The loop of `addValidator` over a wrapper's delegations.
    method AddDelegationsOf(wrapper: Wrapper) returns (ok: bool)
      modifies this
      ensures var r := AddDelegations(old(progress).sums, wrapper.delegations);
              ok == r.Some? && (ok ==> progress == old(progress).(sums := r.value))
    {
      var ds := wrapper.delegations;
      for i := 0 to |ds|
        invariant AddDelegations(old(progress).sums, ds[..i]) == Some(progress.sums)
        invariant progress == old(progress).(sums := progress.sums)
      {
        var d := ds[i];
        assert ds[..i + 1][..i] == ds[..i];
        if !NonNegative(d.amount) || !NonNegative(d.reward) {
          DelegationsStop(old(progress).sums, ds, i + 1);
          return false;
        }
        var sums := progress.sums;
        progress := progress.(sums := sums.(delegations := sums.delegations + 1, active := sums.active + d.amount.value,
                                            reward := sums.reward + d.reward.value));
        ok := AddUndelegationsOf(d);
        if !ok {
          DelegationsStop(old(progress).sums, ds, i + 1);
          return false;
        }
      }
      assert ds[..|ds|] == ds;
      ok := true;
    }

    method AddValidator(wrapper: Wrapper) returns (ok: bool)
      modifies this
      ensures var r := AddWrapper(old(progress), wrapper); ok == r.Some? && (ok ==> progress == r.value)
    {
      if wrapper.address in progress.validators { return false; }
      progress := progress.(validators := progress.validators + {wrapper.address});
      if !NonNegative(wrapper.blockReward) { return false; }
      progress := progress.(blockReward := progress.blockReward + wrapper.blockReward.value);
      ok := AddDelegationsOf(wrapper);
    }

    // One leaf of the state trie.
    method AddLeaf(account: Account, keccak: Keccak) returns (ok: bool)
      modifies this
      ensures var r := AddAccount(old(progress), account, keccak); ok == r.Some? && (ok ==> progress == r.value)
    {
      if !NonNegative(account.balance) { return false; }
      var balance := account.balance.value;
      progress := progress.(accounts := progress.accounts + 1, liquid := progress.liquid + balance);
      if balance > 0 {
        progress := progress.(positive := progress.positive + 1);
      }
      if account.codeBearing {
        progress := progress.(codeBearing := progress.codeBearing + 1);
      }
      match Examine(account, keccak) {
        case Ordinary => ok := true;
        case Corrupt => ok := false;
        case Validator(wrapper) => ok := AddValidator(wrapper);
      }
    }

    // The loop over the state trie, in state-root discovery mode, and the final sum.
    method AddAll(accounts: seq<Account>, keccak: Keccak) returns (claims: Option<nat>)
      requires progress == NO_PROGRESS
      modifies this
      ensures match AddAccounts(accounts, keccak)
              case None => claims == None
              case Some(p) => progress == p && claims == Some(p.liquid + p.sums.active + p.sums.pending + p.sums.reward)
    {
      for i := 0 to |accounts|
        invariant AddAccounts(accounts[..i], keccak) == Some(progress)
      {
        assert accounts[..i + 1][..i] == accounts[..i];
        var ok := AddLeaf(accounts[i], keccak);
        if !ok {
          AccountsStop(accounts, keccak, i + 1);
          return None;
        }
      }
      assert accounts[..|accounts|] == accounts;
      claims := Some(progress.liquid + progress.sums.active + progress.sums.pending + progress.sums.reward);
    }
  }

  lemma {:induction false} AccountsStop(accounts: seq<Account>, keccak: Keccak, i: nat)
    requires i <= |accounts| && AddAccounts(accounts[..i], keccak).None?
    ensures AddAccounts(accounts, keccak).None?
    decreases |accounts|
  {
    if i == |accounts| {
      assert accounts[..i] == accounts;
    } else {
      assert accounts[..|accounts| - 1][..i] == accounts[..i];
      AccountsStop(accounts[..|accounts| - 1], keccak, i);
    }
  }

  // ---- when the totals succeed, and what they are ----------------------

  // An account is a validator's if and only if its code is there, hashes to the code hash, decodes,
  // and names the account. Code under the validator prefix that fails in any of this is corrupt.
  lemma ExamineExact(account: Account, keccak: Keccak, wrapper: Wrapper)
    ensures Examine(account, keccak) == Validator(wrapper)
       <==> account.codeBearing && account.code.Some? && account.code.value.hashMatches
            && account.code.value.wrapper == Some(wrapper) && keccak(wrapper.address) == account.key
    ensures Examine(account, keccak).Corrupt?
       <==> account.codeBearing && account.code.Some? && account.code.value.prefixed
            && (account.code.value.hashMatches && account.code.value.wrapper.Some? ==>
                  keccak(account.code.value.wrapper.value.address) != account.key)
  {
  }

  predicate UndelegationFits(u: Undelegation) {
    u.amount.Some? && u.epoch.Some? && u.amount.value >= 0 && u.epoch.value >= 0
  }

  predicate DelegationFits(d: Delegation) {
    d.amount.Some? && d.reward.Some? && d.amount.value >= 0 && d.reward.value >= 0
    && forall i :: 0 <= i < |d.undelegations| ==> UndelegationFits(d.undelegations[i])
  }

  predicate WrapperFits(w: Wrapper) {
    w.blockReward.Some? && w.blockReward.value >= 0
    && forall i :: 0 <= i < |w.delegations| ==> DelegationFits(w.delegations[i])
  }

  lemma {:induction false} UndelegationsAccepted(s: Sums, us: seq<Undelegation>)
    ensures AddUndelegations(s, us).Some? <==> forall i :: 0 <= i < |us| ==> UndelegationFits(us[i])
    ensures AddUndelegations(s, us).Some? ==>
              var t := AddUndelegations(s, us).value;
              t.undelegations == s.undelegations + |us| && t.delegations == s.delegations
    decreases |us|
  {
    if us != [] {
      UndelegationsAccepted(s, us[..|us| - 1]);
    }
  }

  function UndelegationsOf(): Delegation -> int {
    (d: Delegation) => |d.undelegations|
  }

  lemma {:induction false} DelegationsAccepted(s: Sums, ds: seq<Delegation>)
    ensures AddDelegations(s, ds).Some? <==> forall i :: 0 <= i < |ds| ==> DelegationFits(ds[i])
    ensures AddDelegations(s, ds).Some? ==>
              var t := AddDelegations(s, ds).value;
              t.delegations == s.delegations + |ds|
              && t.undelegations == s.undelegations + SumBy(ds, UndelegationsOf())
    decreases |ds|
  {
    if ds != [] {
      var front, d := ds[..|ds| - 1], ds[|ds| - 1];
      DelegationsAccepted(s, front);
      if AddDelegations(s, front).Some? && NonNegative(d.amount) && NonNegative(d.reward) {
        var t := AddDelegations(s, front).value;
        UndelegationsAccepted(t.(active := t.active + d.amount.value, reward := t.reward + d.reward.value,
                                 delegations := t.delegations + 1), d.undelegations);
      }
    }
  }

  // The wrappers of a state's validators, in the order of its accounts.
  function Wrappers(accounts: seq<Account>, keccak: Keccak): seq<Wrapper>
    decreases |accounts|
  {
    if accounts == [] then []
    else
      match Examine(accounts[|accounts| - 1], keccak)
      case Validator(wrapper) => Wrappers(accounts[..|accounts| - 1], keccak) + [wrapper]
      case _ => Wrappers(accounts[..|accounts| - 1], keccak)
  }

  predicate AccountFits(account: Account, keccak: Keccak) {
    account.balance.Some? && account.balance.value >= 0 && !Examine(account, keccak).Corrupt?
  }

  // No corrupt account, no negative or absent figure, and no validator twice.
  ghost predicate StateFits(accounts: seq<Account>, keccak: Keccak) {
    (forall i :: 0 <= i < |accounts| ==> AccountFits(accounts[i], keccak)) && AllFit(Wrappers(accounts, keccak))
  }

  ghost predicate AllFit(wrappers: seq<Wrapper>) {
    (forall i :: 0 <= i < |wrappers| ==> WrapperFits(wrappers[i]))
    && forall i, j :: 0 <= i < j < |wrappers| ==> wrappers[i].address != wrappers[j].address
  }

  ghost predicate Has(wrappers: seq<Wrapper>, a: Address) {
    exists i :: 0 <= i < |wrappers| && wrappers[i].address == a
  }

  ghost predicate Lists(validators: set<Address>, wrappers: seq<Wrapper>) {
    forall a :: a in validators <==> Has(wrappers, a)
  }

  lemma WrapperAccepted(p: Progress, seen: seq<Wrapper>, wrapper: Wrapper)
    requires AllFit(seen) && Lists(p.validators, seen)
    ensures AddWrapper(p, wrapper).Some? <==> AllFit(seen + [wrapper])
    ensures AddWrapper(p, wrapper).Some? ==> Lists(AddWrapper(p, wrapper).value.validators, seen + [wrapper])
  {
    var all := seen + [wrapper];
    DelegationsAccepted(p.sums, wrapper.delegations);
    assert all[|seen|] == wrapper && forall i :: 0 <= i < |seen| ==> all[i] == seen[i];
    ListsMore(p.validators, seen, wrapper);
    if wrapper.address in p.validators {
      var i :| 0 <= i < |seen| && seen[i].address == wrapper.address;
      assert all[i].address == all[|seen|].address;
    }
  }

  lemma ListsMore(validators: set<Address>, seen: seq<Wrapper>, wrapper: Wrapper)
    requires Lists(validators, seen)
    ensures Lists(validators + {wrapper.address}, seen + [wrapper])
  {
    var all := seen + [wrapper];
    assert all[|seen|] == wrapper;
    forall a ensures Has(all, a) <==> Has(seen, a) || a == wrapper.address {
      if i :| 0 <= i < |seen| && seen[i].address == a {
        assert all[i].address == a;
      }
    }
  }

  lemma FitBefore(seen: seq<Wrapper>, wrapper: Wrapper)
    requires AllFit(seen + [wrapper])
    ensures AllFit(seen)
  {
    var all := seen + [wrapper];
    assert forall i :: 0 <= i < |seen| ==> all[i] == seen[i];
  }

  // The totals succeed exactly on fitting states, and the validators are those whose wrappers were
  // read.
  lemma {:induction false} TotalsSucceed(accounts: seq<Account>, keccak: Keccak)
    ensures AddAccounts(accounts, keccak).Some? <==> StateFits(accounts, keccak)
    ensures AddAccounts(accounts, keccak).Some? ==>
              Lists(AddAccounts(accounts, keccak).value.validators, Wrappers(accounts, keccak))
    decreases |accounts|
  {
    if accounts != [] {
      var front, last := accounts[..|accounts| - 1], accounts[|accounts| - 1];
      TotalsSucceed(front, keccak);
      match Examine(last, keccak)
      case Ordinary =>
      case Corrupt =>
      case Validator(wrapper) =>
        if AddAccounts(front, keccak).Some? && NonNegative(last.balance) {
          WrapperAccepted(Seen(AddAccounts(front, keccak).value, last), Wrappers(front, keccak), wrapper);
        } else if AllFit(Wrappers(front, keccak) + [wrapper]) {
          FitBefore(Wrappers(front, keccak), wrapper);
        }
    }
  }

  function Liquid(): Account -> int {
    (account: Account) => if account.balance.Some? then account.balance.value else 0
  }

  function HoldsCode(): Account -> bool {
    (account: Account) => account.codeBearing
  }

  function HoldsCoins(): Account -> bool {
    (account: Account) => account.balance.Some? && account.balance.value > 0
  }

  function BlockRewards(): Wrapper -> int {
    (w: Wrapper) => if w.blockReward.Some? then w.blockReward.value else 0
  }

  function DelegationsOf(): Wrapper -> int {
    (w: Wrapper) => |w.delegations|
  }

  function UndelegationsIn(): Wrapper -> int {
    (w: Wrapper) => SumBy(w.delegations, UndelegationsOf())
  }

  // The figures of a progress, besides the three sums of what is owed to delegators.
  predicate Tallies(p: Progress, accounts: seq<Account>, wrappers: seq<Wrapper>) {
    p.accounts == |accounts| && p.liquid == SumBy(accounts, Liquid())
    && p.positive == CountWhere(accounts, HoldsCoins()) && p.codeBearing == CountWhere(accounts, HoldsCode())
    && WrapperTallies(p, wrappers)
  }

  predicate WrapperTallies(p: Progress, wrappers: seq<Wrapper>) {
    p.blockReward == SumBy(wrappers, BlockRewards()) && p.sums.delegations == SumBy(wrappers, DelegationsOf())
    && p.sums.undelegations == SumBy(wrappers, UndelegationsIn())
  }

  lemma WrapperTallied(p: Progress, seen: seq<Wrapper>, wrapper: Wrapper)
    requires WrapperTallies(p, seen) && AddWrapper(p, wrapper).Some?
    ensures WrapperTallies(AddWrapper(p, wrapper).value, seen + [wrapper])
  {
    DelegationsAccepted(p.sums, wrapper.delegations);
    assert (seen + [wrapper])[..|seen|] == seen;
  }

  lemma {:induction false} TotalsTally(accounts: seq<Account>, keccak: Keccak)
    requires AddAccounts(accounts, keccak).Some?
    ensures Tallies(AddAccounts(accounts, keccak).value, accounts, Wrappers(accounts, keccak))
    decreases |accounts|
  {
    if accounts != [] {
      var front, last := accounts[..|accounts| - 1], accounts[|accounts| - 1];
      TotalsTally(front, keccak);
      match Examine(last, keccak)
      case Ordinary =>
      case Corrupt =>
      case Validator(wrapper) =>
        WrapperTallied(Seen(AddAccounts(front, keccak).value, last), Wrappers(front, keccak), wrapper);
    }
  }
}
