/** Bank accounts: BankAccount and its two subclasses SavingsAccount and CheckingAccount.
    The subclasses differ from the base class only in their own field and in one
    operation each, so the three are one class here whose `kind` records the variant.

    Each balance operation is specified by a pure function over (kind, balance,
    amount) giving a `Step`: how the call ended and the balance it leaves. The
    class methods are proved to follow those functions; the properties of the
    ledger rules are proved about the functions. */
module Accounts {

  /** How a balance operation ends. `Invalid` is the IllegalArgumentException the
      account throws for a non-positive amount; `Done(ok)` is a normal return, where
      `Done(false)` is a withdrawal refused for lack of funds. */
  datatype Outcome = Invalid | Done(ok: bool)

  /** The variant of an account and the field only that variant carries. */
  datatype Kind = Regular | Savings(interestRate: real) | Checking(overdraftLimit: real)

  /** The end of one balance operation: its outcome and the balance afterwards. */
  datatype Step = Step(outcome: Outcome, balance: real)

  /** BankAccount.deposit. */
  function DepositStep(balance: real, amount: real): (r: Step)
    ensures r.outcome == Invalid <==> amount <= 0.0
    ensures r.outcome != Invalid ==> r.outcome == Done(true) && r.balance == balance + amount
    ensures r.outcome == Invalid ==> r.balance == balance
    ensures r.balance >= balance
  {
    if amount > 0.0 then Step(Done(true), balance + amount) else Step(Invalid, balance)
  }

  /** BankAccount.withdraw, which SavingsAccount inherits: refuses an amount larger
      than the balance, so it never takes a non-negative balance below zero. */
  function RegularWithdrawStep(balance: real, amount: real): (r: Step)
    ensures r.outcome == Invalid <==> amount <= 0.0
    ensures r.outcome == Done(false) <==> 0.0 < amount && amount > balance
    ensures r.outcome == Done(true) <==> 0.0 < amount <= balance
    ensures r.outcome == Done(true) ==> r.balance == balance - amount
    ensures r.outcome != Done(true) ==> r.balance == balance
    ensures balance >= 0.0 ==> r.balance >= 0.0
  {
    if amount <= 0.0 then Step(Invalid, balance)
    else if amount > balance then Step(Done(false), balance)
    else Step(Done(true), balance - amount)
  }

  /** CheckingAccount.withdraw: once the overdraft test passes it moves the money with
      `deposit(-amount)`, which throws for every positive amount. So it never returns
      true and never changes the balance. */
  function CheckingWithdrawStep(overdraftLimit: real, balance: real, amount: real): (r: Step)
    ensures r.outcome == Done(false) <==> 0.0 < amount && amount > balance + overdraftLimit
    ensures r.outcome == Invalid <==> amount <= 0.0 || amount <= balance + overdraftLimit
    ensures r.outcome != Done(true)
    ensures r.balance == balance
  {
    if amount <= 0.0 then Step(Invalid, balance)
    else if amount > balance + overdraftLimit then Step(Done(false), balance)
    else
      var d := DepositStep(balance, -amount);
      if d.outcome == Invalid then Step(Invalid, d.balance) else Step(Done(true), d.balance)
  }

  /** withdraw, dispatched on the variant as Java dispatches on the subclass. */
  function WithdrawStep(kind: Kind, balance: real, amount: real): (r: Step)
    ensures r.outcome == Invalid <==>
              amount <= 0.0 || (kind.Checking? && amount <= balance + kind.overdraftLimit)
    ensures r.outcome == Done(true) <==> !kind.Checking? && 0.0 < amount <= balance
    ensures r.outcome == Done(true) ==> r.balance == balance - amount
    ensures r.outcome != Done(true) ==> r.balance == balance
    ensures balance >= 0.0 ==> r.balance >= 0.0
  {
    match kind
    case Checking(limit) => CheckingWithdrawStep(limit, balance, amount)
    case _ => RegularWithdrawStep(balance, amount)
  }

  /** SavingsAccount.addInterest: deposits `balance * interestRate / 100`, so it throws
      whenever that interest is not positive (in particular on a zero balance). */
  function InterestStep(interestRate: real, balance: real): (r: Step)
    ensures r.outcome == Invalid <==> balance * interestRate <= 0.0
    ensures r.outcome != Invalid ==> r.outcome == Done(true) && r.balance == balance + balance * interestRate / 100.0
    ensures r.outcome == Invalid ==> r.balance == balance
    ensures balance > 0.0 && interestRate > 0.0 ==> r.outcome == Done(true) && r.balance > balance
    ensures balance >= 0.0 ==> r.balance >= 0.0
  {
    DepositStep(balance, balance * interestRate / 100.0)
  }

  /** Interest on 1000 at the service's 3.5 percent is 35. */
  lemma InterestExample()
    ensures InterestStep(3.5, 1000.0) == Step(Done(true), 1035.0)
  {
  }

  class BankAccount {
    const accountNumber: string
    var accountHolderName: string
    var balance: real
    const accountType: string
    const kind: Kind

    /** BankAccount(accountNumber, accountHolderName, accountType). */
    constructor (accountNumber: string, accountHolderName: string, accountType: string)
      ensures this.accountNumber == accountNumber && this.accountHolderName == accountHolderName
      ensures this.accountType == accountType && balance == 0.0 && kind == Regular
    {
      this.accountNumber := accountNumber;
      this.accountHolderName := accountHolderName;
      this.accountType := accountType;
      balance := 0.0;
      kind := Regular;
    }

    /** BankAccount(accountNumber, accountHolderName, accountType, initialBalance):
        the initial balance is taken as given, negative or not. */
    constructor WithInitialBalance(accountNumber: string, accountHolderName: string, accountType: string,
                                   initialBalance: real)
      ensures this.accountNumber == accountNumber && this.accountHolderName == accountHolderName
      ensures this.accountType == accountType && balance == initialBalance && kind == Regular
    {
      this.accountNumber := accountNumber;
      this.accountHolderName := accountHolderName;
      this.accountType := accountType;
      balance := initialBalance;
      kind := Regular;
    }

    /** SavingsAccount(accountNumber, accountHolderName, interestRate). */
    constructor SavingsAccount(accountNumber: string, accountHolderName: string, interestRate: real)
      ensures this.accountNumber == accountNumber && this.accountHolderName == accountHolderName
      ensures accountType == "Savings" && balance == 0.0 && kind == Savings(interestRate)
    {
      this.accountNumber := accountNumber;
      this.accountHolderName := accountHolderName;
      accountType := "Savings";
      balance := 0.0;
      kind := Savings(interestRate);
    }

    /** SavingsAccount(accountNumber, accountHolderName, interestRate, initialBalance). */
    constructor SavingsAccountWithBalance(accountNumber: string, accountHolderName: string, interestRate: real,
                                          initialBalance: real)
      ensures this.accountNumber == accountNumber && this.accountHolderName == accountHolderName
      ensures accountType == "Savings" && balance == initialBalance && kind == Savings(interestRate)
    {
      this.accountNumber := accountNumber;
      this.accountHolderName := accountHolderName;
      accountType := "Savings";
      balance := initialBalance;
      kind := Savings(interestRate);
    }

    /** CheckingAccount(accountNumber, accountHolderName, overdraftLimit). */
    constructor CheckingAccount(accountNumber: string, accountHolderName: string, overdraftLimit: real)
      ensures this.accountNumber == accountNumber && this.accountHolderName == accountHolderName
      ensures accountType == "Checking" && balance == 0.0 && kind == Checking(overdraftLimit)
    {
      this.accountNumber := accountNumber;
      this.accountHolderName := accountHolderName;
      accountType := "Checking";
      balance := 0.0;
      kind := Checking(overdraftLimit);
    }

    /** CheckingAccount(accountNumber, accountHolderName, overdraftLimit, initialBalance). */
    constructor CheckingAccountWithBalance(accountNumber: string, accountHolderName: string, overdraftLimit: real,
                                           initialBalance: real)
      ensures this.accountNumber == accountNumber && this.accountHolderName == accountHolderName
      ensures accountType == "Checking" && balance == initialBalance && kind == Checking(overdraftLimit)
    {
      this.accountNumber := accountNumber;
      this.accountHolderName := accountHolderName;
      accountType := "Checking";
      balance := initialBalance;
      kind := Checking(overdraftLimit);
    }

    method Deposit(amount: real) returns (outcome: Outcome)
      modifies this`balance
      ensures Step(outcome, balance) == DepositStep(old(balance), amount)
    {
      if amount > 0.0 {
        balance := balance + amount;
        outcome := Done(true);
      } else {
        outcome := Invalid;
      }
    }

    method Withdraw(amount: real) returns (outcome: Outcome)
      modifies this`balance
      ensures Step(outcome, balance) == WithdrawStep(kind, old(balance), amount)
    {
      if amount <= 0.0 {
        return Invalid;
      }
      if kind.Checking? {
        if amount > balance + kind.overdraftLimit {
          return Done(false);
        }
        // The exception thrown by deposit propagates out of withdraw.
        var d := Deposit(-amount);
        outcome := if d == Invalid then Invalid else Done(true);
        return;
      }
      if amount > balance {
        return Done(false);
      }
      balance := balance - amount;
      outcome := Done(true);
    }

    /** Only a SavingsAccount has addInterest. */
    method AddInterest() returns (outcome: Outcome)
      requires kind.Savings?
      modifies this`balance
      ensures Step(outcome, balance) == InterestStep(kind.interestRate, old(balance))
    {
      var interest := balance * kind.interestRate / 100.0;
      outcome := Deposit(interest);
    }

    method SetAccountHolderName(accountHolderName: string)
      modifies this`accountHolderName
      ensures this.accountHolderName == accountHolderName
    {
      this.accountHolderName := accountHolderName;
    }
  }
}
