/** BankService: the account map, the append-only transaction log and the counter
    that numbers the records, with the operations that change them together. */
module Ledger {
  import opened Accounts
  import opened Transactions
  import opened TxnIds
  import opened Totals

  const DEPOSIT := "DEPOSIT"
  const WITHDRAWAL := "WITHDRAWAL"
  const TRANSFER_OUT := "TRANSFER_OUT"
  const TRANSFER_IN := "TRANSFER_IN"

  /** The fixed policy of createAccount: 3.5 percent interest, a 500 overdraft limit. */
  const SAVINGS_RATE := 3.5
  const CHECKING_OVERDRAFT := 500.0

  function LowerAscii(c: char): char {
    if 'A' <= c <= 'Z' then (c as int - 'A' as int + 'a' as int) as char else c
  }

  /** String.toLowerCase restricted to ASCII letters. */
  function ToLowerAscii(s: string): string {
    seq(|s|, i requires 0 <= i < |s| => LowerAscii(s[i]))
  }

  /** The subsequence of `log` whose records belong to `accountNumber`, in log order. */
  function HistoryOf(log: seq<Transaction>, accountNumber: string): (h: seq<Transaction>)
    ensures |h| <= |log|
    ensures forall t :: t in h ==> t in log && t.accountNumber == accountNumber
  {
    if log == [] then []
    else
      var last := log[|log| - 1];
      HistoryOf(log[..|log| - 1], accountNumber) + (if last.accountNumber == accountNumber then [last] else [])
  }

  /** Every record of the account is in its history. */
  lemma {:induction false} HistoryComplete(log: seq<Transaction>, accountNumber: string, t: Transaction)
    requires t in log && t.accountNumber == accountNumber
    ensures t in HistoryOf(log, accountNumber)
  {
    var prefix := log[..|log| - 1];
    if t != log[|log| - 1] {
      assert log == prefix + [log[|log| - 1]];
      HistoryComplete(prefix, accountNumber, t);
    }
  }

  /** The history of a log made of two parts is the history of the first part followed
      by the history of the second: appending records only ever extends a history. */
  lemma {:induction false} HistoryAppend(a: seq<Transaction>, b: seq<Transaction>, accountNumber: string)
    ensures HistoryOf(a + b, accountNumber) == HistoryOf(a, accountNumber) + HistoryOf(b, accountNumber)
  {
    if b == [] {
      assert a + b == a;
    } else {
      assert (a + b)[..|a + b| - 1] == a + b[..|b| - 1];
      HistoryAppend(a, b[..|b| - 1], accountNumber);
    }
  }

  /** `sub` is `s` with some elements left out and the rest in their original order. */
  predicate IsSubsequence<T(==)>(sub: seq<T>, s: seq<T>)
    decreases |s|
  {
    if sub == [] then true
    else if s == [] then false
    else if sub[|sub| - 1] == s[|s| - 1] then IsSubsequence(sub[..|sub| - 1], s[..|s| - 1])
    else IsSubsequence(sub, s[..|s| - 1])
  }

  /** A history is an order-preserving selection of the log. */
  lemma {:induction false} HistoryIsSubsequence(log: seq<Transaction>, accountNumber: string)
    ensures IsSubsequence(HistoryOf(log, accountNumber), log)
  {
    if log != [] {
      var prefix := log[..|log| - 1];
      var last := log[|log| - 1];
      var h := HistoryOf(log, accountNumber);
      HistoryIsSubsequence(prefix, accountNumber);
      if last.accountNumber == accountNumber {
        assert h[..|h| - 1] == HistoryOf(prefix, accountNumber);
      } else {
        assert h == HistoryOf(prefix, accountNumber);
        if h != [] {
          assert h[|h| - 1] in h;
        }
      }
    }
  }

  /** Record `i` of the log carries the identifier made from counter value i + 1. */
  predicate NumberedAt(log: seq<Transaction>, i: nat)
    requires i < |log|
  {
    log[i].transactionId == TxnId(i + 1)
  }

  /** The log's records carry the identifiers TXN00001, TXN00002, ... in order. */
  predicate SequentialIds(log: seq<Transaction>) {
    forall i: nat :: i < |log| ==> NumberedAt(log, i)
  }

  /** Appending the record numbered next keeps the numbering sequential. */
  lemma {:induction false} SequentialIdsAppend(log: seq<Transaction>, t: Transaction)
    requires SequentialIds(log) && t.transactionId == TxnId(|log| + 1)
    ensures SequentialIds(log + [t])
  {
    var log' := log + [t];
    forall i: nat | i < |log'|
      ensures NumberedAt(log', i)
    {
      if i < |log| {
        assert log'[i] == log[i] && NumberedAt(log, i);
      }
    }
  }

  /** Identifiers in a sequentially numbered log are pairwise distinct and their
      numbers strictly increase along the log. */
  lemma {:induction false} IdsIncrease(log: seq<Transaction>)
    requires SequentialIds(log)
    ensures forall i :: 0 <= i < |log| ==> ParseTxnId(log[i].transactionId) == Some(i + 1)
    ensures forall i, j :: 0 <= i < j < |log| ==>
              ParseTxnId(log[i].transactionId).value < ParseTxnId(log[j].transactionId).value
    ensures forall i, j :: 0 <= i < |log| && 0 <= j < |log| && i != j ==>
              log[i].transactionId != log[j].transactionId
  {
    forall i | 0 <= i < |log|
      ensures ParseTxnId(log[i].transactionId) == Some(i + 1)
    {
      assert NumberedAt(log, i);
      TxnIdRoundTrip(i + 1);
    }
  }

  /** The outcome of createAccount: the thrown "Account number already exists", or the
      new account. */
  datatype CreateResult = DuplicateAccount | Created(account: BankAccount)

  /** An account createAccount can make. */
  predicate PolicyKind(kind: Kind) {
    kind == Regular || kind == Savings(SAVINGS_RATE) || kind == Checking(CHECKING_OVERDRAFT)
  }

  class BankService {
    var accounts: map<string, BankAccount>
    var transactions: seq<Transaction>
    var transactionCounter: int

    /** Every account is filed under its own number, holds a non-negative balance and
        follows the creation policy; the counter is one past the number of records,
        which are numbered from 1 in log order. */
    ghost predicate Valid()
      reads this, accounts.Values
    {
      && (forall n :: n in accounts ==> accounts[n].accountNumber == n)
      && (forall n :: n in accounts ==> accounts[n].balance >= 0.0)
      && (forall n :: n in accounts ==> PolicyKind(accounts[n].kind))
      && transactionCounter == |transactions| + 1
      && SequentialIds(transactions)
    }

    /** The balance of every account, by number. */
    function Balances(): map<string, real>
      reads this`accounts, accounts.Values`balance
    {
      map n | n in accounts :: accounts[n].balance
    }

    /** A fresh ledger; the data files are not read. */
    constructor ()
      ensures Valid()
      ensures accounts == map[] && transactions == [] && transactionCounter == 1
    {
      accounts := map[];
      transactions := [];
      transactionCounter := 1;
    }

    method CreateAccount(accountNumber: string, accountHolderName: string, accountType: string)
      returns (r: CreateResult)
      requires Valid()
      modifies this`accounts
      ensures Valid()
      ensures accountNumber in old(accounts) ==> r == DuplicateAccount && accounts == old(accounts)
      ensures accountNumber !in old(accounts) ==>
                && r.Created?
                && fresh(r.account)
                && accounts == old(accounts)[accountNumber := r.account]
                && Balances() == old(Balances())[accountNumber := 0.0]
                && r.account.accountNumber == accountNumber
                && r.account.accountHolderName == accountHolderName
                && r.account.balance == 0.0
      ensures r.Created? ==>
                && (ToLowerAscii(accountType) == "savings" ==>
                      r.account.kind == Savings(SAVINGS_RATE) && r.account.accountType == "Savings")
                && (ToLowerAscii(accountType) == "checking" ==>
                      r.account.kind == Checking(CHECKING_OVERDRAFT) && r.account.accountType == "Checking")
                && (ToLowerAscii(accountType) != "savings" && ToLowerAscii(accountType) != "checking" ==>
                      r.account.kind == Regular && r.account.accountType == "Regular")
    {
      if accountNumber in accounts {
        return DuplicateAccount;
      }
      var account: BankAccount;
      var lower := ToLowerAscii(accountType);
      if lower == "savings" {
        account := new BankAccount.SavingsAccount(accountNumber, accountHolderName, SAVINGS_RATE);
      } else if lower == "checking" {
        account := new BankAccount.CheckingAccount(accountNumber, accountHolderName, CHECKING_OVERDRAFT);
      } else {
        account := new BankAccount(accountNumber, accountHolderName, "Regular");
      }
      accounts := accounts[accountNumber := account];
      r := Created(account);
    }

    method RecordTransaction(accountNumber: string, transactionType: string, amount: real,
                             balanceAfter: real, description: string, now: Timestamp)
      requires Valid()
      modifies this`transactions, this`transactionCounter
      ensures Valid()
      ensures transactionCounter == old(transactionCounter) + 1
      ensures transactions == old(transactions) +
                [Transaction(TxnId(old(transactionCounter)), accountNumber, transactionType, amount,
                             balanceAfter, description, now)]
    {
      var t := Transaction(TxnId(transactionCounter), accountNumber, transactionType, amount,
                           balanceAfter, description, now);
      SequentialIdsAppend(transactions, t);
      transactionCounter := transactionCounter + 1;
      transactions := transactions + [t];
    }

    method Deposit(accountNumber: string, amount: real, now: Timestamp) returns (ok: bool)
      requires Valid()
      modifies this`transactions, this`transactionCounter, accounts.Values`balance
      ensures Valid()
      ensures ok <==> accountNumber in accounts && amount > 0.0
      ensures ok ==>
                && Balances() == old(Balances())[accountNumber := old(Balances()[accountNumber]) + amount]
                && transactions == old(transactions) +
                     [Transaction(TxnId(old(transactionCounter)), accountNumber, DEPOSIT, amount,
                                  Balances()[accountNumber], "Deposit to account", now)]
      ensures !ok ==>
                && Balances() == old(Balances())
                && transactions == old(transactions)
                && transactionCounter == old(transactionCounter)
    {
      if accountNumber !in accounts {
        return false;
      }
      var account := accounts[accountNumber];
      var outcome := account.Deposit(amount);
      if outcome == Invalid {
        return false;
      }
      RecordTransaction(accountNumber, DEPOSIT, amount, account.balance, "Deposit to account", now);
      ok := true;
    }

    method Withdraw(accountNumber: string, amount: real, now: Timestamp) returns (ok: bool)
      requires Valid()
      modifies this`transactions, this`transactionCounter, accounts.Values`balance
      ensures Valid()
      ensures ok <==>
                && accountNumber in accounts
                && !accounts[accountNumber].kind.Checking?
                && 0.0 < amount <= old(Balances()[accountNumber])
      ensures ok ==>
                && Balances() == old(Balances())[accountNumber := old(Balances()[accountNumber]) - amount]
                && transactions == old(transactions) +
                     [Transaction(TxnId(old(transactionCounter)), accountNumber, WITHDRAWAL, amount,
                                  Balances()[accountNumber], "Withdrawal from account", now)]
      ensures !ok ==>
                && Balances() == old(Balances())
                && transactions == old(transactions)
                && transactionCounter == old(transactionCounter)
    {
      if accountNumber !in accounts {
        return false;
      }
      var account := accounts[accountNumber];
      var outcome := account.Withdraw(amount);
      if outcome != Done(true) {
        return false;
      }
      RecordTransaction(accountNumber, WITHDRAWAL, amount, account.balance, "Withdrawal from account", now);
      ok := true;
    }

    /** The balance half of transfer: `from.withdraw(amount)` and, only if it returns
        true, `to.deposit(amount)`. */
    method WithdrawThenDeposit(fromAccountNumber: string, toAccountNumber: string, amount: real)
      returns (moved: bool)
      requires Valid() && fromAccountNumber in accounts && toAccountNumber in accounts
      modifies accounts.Values`balance
      ensures Valid()
      ensures moved <==> !accounts[fromAccountNumber].kind.Checking? && 0.0 < amount <= old(Balances()[fromAccountNumber])
      ensures moved ==> Balances() == Moved(old(Balances()), fromAccountNumber, toAccountNumber, amount)
      ensures !moved ==> Balances() == old(Balances())
    {
      var fromAccount := accounts[fromAccountNumber];
      var toAccount := accounts[toAccountNumber];
      ghost var before := Balances();
      var outcome := fromAccount.Withdraw(amount);
      if outcome != Done(true) {
        assert Balances() == before;
        return false;
      }
      ghost var afterWithdraw := Balances();
      assert afterWithdraw == before[fromAccountNumber := before[fromAccountNumber] - amount];
      var _ := toAccount.Deposit(amount);
      assert Balances() == afterWithdraw[toAccountNumber := afterWithdraw[toAccountNumber] + amount];
      moved := true;
    }

    method Transfer(fromAccountNumber: string, toAccountNumber: string, amount: real, now: Timestamp)
      returns (ok: bool)
      requires Valid()
      modifies this`transactions, this`transactionCounter, accounts.Values`balance
      ensures Valid()
      ensures ok <==>
                && fromAccountNumber in accounts
                && toAccountNumber in accounts
                && !accounts[fromAccountNumber].kind.Checking?
                && 0.0 < amount <= old(Balances()[fromAccountNumber])
      ensures ok ==>
                && Balances() == Moved(old(Balances()), fromAccountNumber, toAccountNumber, amount)
                && transactions == old(transactions) +
                     [Transaction(TxnId(old(transactionCounter)), fromAccountNumber, TRANSFER_OUT, amount,
                                  Balances()[fromAccountNumber], "Transfer to " + toAccountNumber, now),
                      Transaction(TxnId(old(transactionCounter) + 1), toAccountNumber, TRANSFER_IN, amount,
                                  Balances()[toAccountNumber], "Transfer from " + fromAccountNumber, now)]
      ensures !ok ==>
                && Balances() == old(Balances())
                && transactions == old(transactions)
                && transactionCounter == old(transactionCounter)
    {
      if fromAccountNumber !in accounts || toAccountNumber !in accounts {
        return false;
      }
      var moved := WithdrawThenDeposit(fromAccountNumber, toAccountNumber, amount);
      if !moved {
        return false;
      }
      var fromBalance := accounts[fromAccountNumber].balance;
      var toBalance := accounts[toAccountNumber].balance;
      RecordTransaction(fromAccountNumber, TRANSFER_OUT, amount, fromBalance,
                        "Transfer to " + toAccountNumber, now);
      RecordTransaction(toAccountNumber, TRANSFER_IN, amount, toBalance,
                        "Transfer from " + fromAccountNumber, now);
      ok := true;
    }

    function GetAccount(accountNumber: string): (a: BankAccount?)
      requires Valid()
      reads this, accounts.Values
      ensures a != null <==> accountNumber in accounts
      ensures a != null ==> a == accounts[accountNumber] && a.accountNumber == accountNumber
    {
      if accountNumber in accounts then accounts[accountNumber] else null
    }

    /** getAllAccounts, as the set of accounts in the map (its order is unspecified). */
    function AllAccounts(): (all: set<BankAccount>)
      requires Valid()
      reads this, accounts.Values
      ensures forall a :: a in all ==> a.accountNumber in accounts && accounts[a.accountNumber] == a
      ensures forall n :: n in accounts ==> accounts[n] in all
    {
      accounts.Values
    }

    method GetTransactionHistory(accountNumber: string) returns (history: seq<Transaction>)
      ensures history == HistoryOf(transactions, accountNumber)
    {
      history := [];
      var i := 0;
      while i < |transactions|
        invariant 0 <= i <= |transactions|
        invariant history == HistoryOf(transactions[..i], accountNumber)
      {
        assert transactions[..i + 1][..i] == transactions[..i];
        if transactions[i].accountNumber == accountNumber {
          history := history + [transactions[i]];
        }
        i := i + 1;
      }
      assert transactions[..i] == transactions;
    }
  }
}

/** What a caller of the service can rely on, on a fresh ledger. */
module LedgerScenarios {
  import opened Ledger

  /** A new Checking account has a 500 overdraft limit, yet withdrawing 300 from it is
      refused: the overdraft test passes and the account's own deposit of -300 throws.
      A transfer out of it is refused for the same reason, even after a deposit. */
  method CheckingOverdraftScenario() returns (withdrawn: bool, transferred: bool)
    ensures !withdrawn && !transferred
  {
    var bank := new BankService();
    assert ToLowerAscii("Checking") == "checking";
    var c := bank.CreateAccount("C1", "Carol", "Checking");
    assert bank.accounts["C1"].kind.Checking?;
    var r := bank.CreateAccount("R1", "Rex", "regular");
    withdrawn := bank.Withdraw("C1", 300.0, 0);
    var deposited := bank.Deposit("C1", 100.0, 1);
    transferred := bank.Transfer("C1", "R1", 50.0, 2);
  }

  /** 1000 deposited into a Savings account, 250 of it moved to a Regular account:
      the transfer goes through and leaves 750 and 250. */
  method SavingsTransferScenario() returns (ok: bool, savings: real, regular: real)
    ensures ok && savings == 750.0 && regular == 250.0
  {
    var bank := new BankService();
    assert ToLowerAscii("SAVINGS") == "savings";
    var s := bank.CreateAccount("S1", "Sam", "SAVINGS");
    assert ToLowerAscii("other") == "other";
    var r := bank.CreateAccount("R1", "Rex", "other");
    var deposited := bank.Deposit("S1", 1000.0, 0);
    assert bank.Balances()["S1"] == 1000.0 && bank.Balances()["R1"] == 0.0;
    ok := bank.Transfer("S1", "R1", 250.0, 1);
    savings := bank.Balances()["S1"];
    regular := bank.Balances()["R1"];
  }

  /** A transfer out of an empty account is refused and leaves no record. */
  method RefusedTransferScenario() returns (ok: bool, logged: nat)
    ensures !ok && logged == 0
  {
    var bank := new BankService();
    var s := bank.CreateAccount("S1", "Sam", "Savings");
    var r := bank.CreateAccount("R1", "Rex", "Regular");
    ok := bank.Transfer("R1", "S1", 300.0, 0);
    logged := |bank.transactions|;
  }
}
