/** The whole claim pipeline: totals of the state, claims by delegator, and the ledger over both. */
module ClaimTotals {
  import opened Base
  import Staking
  import StakingClaims
  import Ledger

  // The liquid rows of a state: one for every positive balance, in trie order. Address, nonce and
  // code hash come from elsewhere.
  function LiquidRows(accounts: seq<Staking.Account>, row: Staking.Account -> Ledger.LiquidRow): seq<Ledger.LiquidRow>
    decreases |accounts|
  {
    if accounts == [] then []
    else
      var last := accounts[|accounts| - 1];
      LiquidRows(accounts[..|accounts| - 1], row)
      + if last.balance.None? || last.balance.value <= 0 then []
        else [row(last).(key := last.key, balance := last.balance.value)]
  }

  lemma {:induction false} LiquidAdds(accounts: seq<Staking.Account>, keccak: Staking.Keccak,
                                      row: Staking.Account -> Ledger.LiquidRow)
    requires Staking.AddAccounts(accounts, keccak).Some?
    ensures Ledger.Balances(LiquidRows(accounts, row)) == Staking.AddAccounts(accounts, keccak).value.liquid
    decreases |accounts|
  {
    if accounts != [] {
      var front, last := accounts[..|accounts| - 1], accounts[|accounts| - 1];
      LiquidAdds(front, keccak, row);
      var rows := LiquidRows(front, row);
      var one := row(last).(key := last.key, balance := last.balance.value);
      assert (rows + [one])[..|rows|] == rows;
      assert rows + [] == rows;
    }
  }

  // There are as many as positive balances, and no others.
  lemma {:induction false} LiquidRowsPositive(accounts: seq<Staking.Account>, row: Staking.Account -> Ledger.LiquidRow)
    ensures |LiquidRows(accounts, row)| == CountWhere(accounts, Staking.HoldsCoins())
    ensures forall i :: 0 <= i < |LiquidRows(accounts, row)| ==> LiquidRows(accounts, row)[i].balance > 0
    decreases |accounts|
  {
    if accounts != [] {
      LiquidRowsPositive(accounts[..|accounts| - 1], row);
    }
  }

  // The rows of the claims, as the ledger reads them.
  function StakingRows(rows: seq<StakingClaims.StakeRow>): seq<Ledger.StakingRow>
    decreases |rows|
  {
    if rows == [] then []
    else
      var last := rows[|rows| - 1];
      StakingRows(rows[..|rows| - 1])
      + [Ledger.StakingRow(last.key, Some(last.claim.address), last.claim.active, last.claim.pending,
                           last.claim.reward)]
  }

  lemma {:induction false} StakingAdds(rows: seq<StakingClaims.StakeRow>)
    ensures Ledger.Stakes(StakingRows(rows))
         == (StakingClaims.ColumnSum(rows, StakingClaims.Active), StakingClaims.ColumnSum(rows, StakingClaims.Pending),
             StakingClaims.ColumnSum(rows, StakingClaims.Reward))
    decreases |rows|
  {
    if rows != [] {
      StakingAdds(rows[..|rows| - 1]);
      var all := StakingRows(rows);
      assert all[..|all| - 1] == StakingRows(rows[..|rows| - 1]);
    }
  }

  // The claim rows' sums are the totals that were computed without them.
  lemma RowsAgree(accounts: seq<Staking.Account>, keccak: Staking.Keccak, rows: seq<StakingClaims.StakeRow>)
    requires Staking.AddAccounts(accounts, keccak).Some? && StakingClaims.ClaimAccounts(keccak, accounts).Some?
    requires StakingClaims.RowsOf(StakingClaims.ClaimAccounts(keccak, accounts).value.claims, rows)
    ensures var sums := Staking.AddAccounts(accounts, keccak).value.sums;
            Ledger.Stakes(StakingRows(rows)) == (sums.active, sums.pending, sums.reward)
  {
    var claims := StakingClaims.ClaimAccounts(keccak, accounts).value.claims;
    StakingAdds(rows);
    StakingClaims.SummationsAgree(accounts, keccak, StakingClaims.Active);
    StakingClaims.SummationsAgree(accounts, keccak, StakingClaims.Pending);
    StakingClaims.SummationsAgree(accounts, keccak, StakingClaims.Reward);
    StakingClaims.RowsKeepTotals(claims, rows, StakingClaims.Active);
    StakingClaims.RowsKeepTotals(claims, rows, StakingClaims.Pending);
    StakingClaims.RowsKeepTotals(claims, rows, StakingClaims.Reward);
  }

  // When all programs succeed on the same state, the ledger's total is the state's account and
  // staking claims, plus the other shard's liquid balances, plus the pending receipts.
  lemma LedgerTotal(accounts: seq<Staking.Account>, keccak: Staking.Keccak, row: Staking.Account -> Ledger.LiquidRow,
                    rows: seq<StakingClaims.StakeRow>, receipts: seq<Ledger.PendingReceipt>,
                    inputs: Ledger.Input, m: Ledger.Merged)
    requires Staking.AddAccounts(accounts, keccak).Some? && StakingClaims.ClaimAccounts(keccak, accounts).Some?
    requires StakingClaims.RowsOf(StakingClaims.ClaimAccounts(keccak, accounts).value.claims, rows)
    requires Ledger.Group(receipts) == Some(inputs.receipts)
    requires inputs.liquid0 == LiquidRows(accounts, row) && inputs.staking == StakingRows(rows)
    requires Ledger.IsLedger(inputs, m)
    ensures var p := Staking.AddAccounts(accounts, keccak).value;
            m.summary.total == (p.liquid + p.sums.active + p.sums.pending + p.sums.reward)
                               + Ledger.Balances(inputs.liquid1) + Ledger.ReceiptSum(receipts)
  {
    LiquidAdds(accounts, keccak, row);
    RowsAgree(accounts, keccak, rows);
    Ledger.GroupKeepsSum(receipts);
  }
}
