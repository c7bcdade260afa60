/** Balances of the ledger as a map from account number to balance, the money moved
    by a transfer, and the total held across all accounts. */
module Totals {

  /** The balances after `amount` leaves `from` and then enters `to`, in that order,
      as BankService.transfer does it (so a self-transfer changes nothing). */
  function Moved(balances: map<string, real>, from: string, to: string, amount: real): (r: map<string, real>)
    requires from in balances && to in balances
    ensures r.Keys == balances.Keys
    ensures from != to ==> r[from] == balances[from] - amount && r[to] == balances[to] + amount
    ensures from == to ==> r == balances
    ensures forall n :: n in balances && n != from && n != to ==> r[n] == balances[n]
  {
    var afterWithdraw := balances[from := balances[from] - amount];
    afterWithdraw[to := afterWithdraw[to] + amount]
  }

  /** The sum of the balances of the accounts in `numbers`. */
  ghost function SumOver(balances: map<string, real>, numbers: set<string>): real
    requires numbers <= balances.Keys
    decreases numbers
  {
    if numbers == {} then 0.0
    else
      var n :| n in numbers;
      balances[n] + SumOver(balances, numbers - {n})
  }

  /** The money held across the whole ledger. */
  ghost function Total(balances: map<string, real>): real {
    SumOver(balances, balances.Keys)
  }

  /** Any account may be taken out of the sum first. */
  lemma {:induction false} SumOverPick(balances: map<string, real>, numbers: set<string>, n: string)
    requires numbers <= balances.Keys && n in numbers
    ensures SumOver(balances, numbers) == balances[n] + SumOver(balances, numbers - {n})
    decreases numbers
  {
    var m :| m in numbers && SumOver(balances, numbers) == balances[m] + SumOver(balances, numbers - {m});
    if m != n {
      SumOverPick(balances, numbers - {m}, n);
      SumOverPick(balances, numbers - {n}, m);
      assert numbers - {m} - {n} == numbers - {n} - {m};
    }
  }

  /** Changing one balance changes the sum by exactly the difference. */
  lemma {:induction false} SumOverUpdate(balances: map<string, real>, numbers: set<string>, n: string, v: real)
    requires numbers <= balances.Keys && n in balances
    ensures SumOver(balances[n := v], numbers)
         == SumOver(balances, numbers) + (if n in numbers then v - balances[n] else 0.0)
    decreases numbers
  {
    var updated := balances[n := v];
    if numbers != {} {
      var m := if n in numbers then n else var k :| k in numbers; k;
      SumOverPick(balances, numbers, m);
      SumOverPick(updated, numbers, m);
      SumOverUpdate(balances, numbers - {m}, n, v);
    }
  }

  /** A transfer between two accounts of the ledger conserves the ledger's total. */
  lemma {:induction false} TransferConservesTotal(balances: map<string, real>, from: string, to: string, amount: real)
    requires from in balances && to in balances
    ensures Total(Moved(balances, from, to, amount)) == Total(balances)
  {
    var afterWithdraw := balances[from := balances[from] - amount];
    assert afterWithdraw.Keys == balances.Keys;
    SumOverUpdate(balances, balances.Keys, from, balances[from] - amount);
    SumOverUpdate(afterWithdraw, balances.Keys, to, afterWithdraw[to] + amount);
  }
}
