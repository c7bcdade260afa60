# Bank ledger — a Dafny model

This project models the ledger core of a small Java banking application. The ledger
has three parts:

- **Accounts.** A `BankAccount` holds a balance. `SavingsAccount` adds an interest rate
  and `addInterest`. `CheckingAccount` adds an overdraft limit and overrides `withdraw`.
- **Transactions.** A `Transaction` is an immutable record of one ledger event.
- **The service.** `BankService` owns a map from account number to account, an
  append-only list of transactions, and the counter that numbers them `TXN00001`,
  `TXN00002`, …

The Java code has two ways to fail. A non-positive amount throws
`IllegalArgumentException`. A withdrawal refused for lack of funds returns `false`.
Both are kept apart in the model by `Outcome = Invalid | Done(ok)`. `Invalid` is the
exception. `BankService` catches it and returns `false`.

Layout, one module per part:

- `accounts.dfy` (`Accounts`): the account class. The three Java classes differ only in
  one field and one operation each. So they are one Dafny class, `BankAccount`, whose
  constant `kind` is `Regular`, `Savings(interestRate)` or `Checking(overdraftLimit)`.
  `withdraw` dispatches on `kind` the way Java dispatches on the subclass. The Java
  subclass constructors are named constructors. Each balance operation is specified by
  a pure function that returns a `Step` (the outcome and the new balance). Each method
  is proved to follow its function, and the ledger rules are proved about the functions.
  Account number, type and kind are `const`: Java gives them no setter.
- `transactions.dfy` (`Transactions`): the `Transaction` record as a datatype. Its
  destructors are the Java getters.
- `txn_ids.dfy` (`TxnIds`): the `TXN%05d` identifier format, and a parser that reads the
  counter back.
- `totals.dfy` (`Totals`): the balance change a transfer makes, and the total money
  across the ledger.
- `ledger.dfy` (`Ledger`, `LedgerScenarios`): the `BankService` class, the transaction
  history filter, and two client scenarios.

`BankService.Valid()` is the invariant every service operation keeps. It says:

- every account is filed under its own number;
- every balance is non-negative;
- every account has one of the three kinds `createAccount` makes;
- the counter is one more than the number of records;
- record `i` carries the identifier `TxnId(i + 1)`.

Amounts are `real`, not IEEE doubles.

### What the code as written does

The model follows the code. Two behaviours go against the code's own comments, and a
third follows from the order in which `transfer` reads balances:

- **A Checking withdrawal never succeeds.** `CheckingAccount.withdraw` passes the
  overdraft test and then calls `super.deposit(-amount)`, and `deposit` throws for every
  non-positive amount. So a Checking withdrawal either returns `false` or throws. It
  never changes the balance. `BankService.withdraw` and `transfer` out of a Checking
  account therefore always return `false` and change nothing. The comments on the
  method say it should "allow overdraft up to the limit" and that the negative deposit
  should "bypass balance check" (CheckingAccount.java:22 and :33). As written, a Checking balance only
  ever grows, so every balance in the ledger stays non-negative
  (`CheckingWithdrawStep`, `LedgerScenarios.CheckingOverdraftScenario`).
- **Interest on a zero balance throws.** `addInterest` deposits an interest of zero,
  which throws, although nothing in the code or its comments asks for that. It also does not go through the service, so it writes no transaction
  record.
- **A self-transfer records the unchanged balance.** The `TRANSFER_OUT` record's
  `balanceAfter` is read only after the deposit into the target. For a transfer from an
  account to itself, the withdrawal and the deposit have then cancelled out, so both
  records carry the original balance (`Totals.Moved`).

## Model

| member | source | states |
|---|---|---|
| `Accounts.DepositStep` | src/com/banking/model/BankAccount.java:38-44 | deposit throws exactly when the amount is not positive, and then leaves the balance alone; otherwise it returns normally with the balance raised by exactly the amount; it never lowers a balance |
| `Accounts.RegularWithdrawStep` | src/com/banking/model/BankAccount.java:51-60 | withdraw throws exactly for a non-positive amount, returns false exactly for a positive amount above the balance, and returns true exactly for 0 < amount <= balance, lowering the balance by exactly the amount; a non-negative balance stays non-negative |
| `Accounts.CheckingWithdrawStep` | src/com/banking/model/CheckingAccount.java:25-35 | Checking withdraw returns false exactly when a positive amount exceeds balance + overdraftLimit and throws in every other case, because its `deposit(-amount)` throws; it never returns true and never changes the balance |
| `Accounts.WithdrawStep` | src/com/banking/model/BankAccount.java:51-60 | withdraw of any variant succeeds (Regular and Savings follow the base rule cited here, Checking its override at CheckingAccount.java:25-35) exactly for a non-Checking account and 0 < amount <= balance, then lowering the balance by exactly the amount; otherwise the balance is unchanged; a non-negative balance stays non-negative |
| `Accounts.InterestStep` | src/com/banking/model/SavingsAccount.java:24-27 | addInterest throws, changing nothing, exactly when balance * rate <= 0 (so on a zero balance); otherwise the balance becomes balance + balance * rate / 100; a positive balance at a positive rate strictly grows; a non-negative balance stays non-negative |
| `Accounts.InterestExample` | src/com/banking/model/SavingsAccount.java:24-27 | interest at 3.5 percent on 1000 brings the balance to 1035 |
| `Accounts.BankAccount.constructor` | src/com/banking/model/BankAccount.java:20-25 | stores number, holder and type verbatim, starts at balance 0, Regular kind |
| `Accounts.BankAccount.WithInitialBalance` | src/com/banking/model/BankAccount.java:28-31 | as above but the balance is the given initial balance, unchecked |
| `Accounts.BankAccount.SavingsAccount` | src/com/banking/model/SavingsAccount.java:11-14 | type "Savings", balance 0, the given interest rate |
| `Accounts.BankAccount.SavingsAccountWithBalance` | src/com/banking/model/SavingsAccount.java:16-19 | type "Savings", the given rate and initial balance |
| `Accounts.BankAccount.CheckingAccount` | src/com/banking/model/CheckingAccount.java:11-14 | type "Checking", balance 0, the given overdraft limit |
| `Accounts.BankAccount.CheckingAccountWithBalance` | src/com/banking/model/CheckingAccount.java:16-19 | type "Checking", the given limit and initial balance |
| `Accounts.BankAccount.Deposit` | src/com/banking/model/BankAccount.java:38-44 | outcome and new balance are those of DepositStep on the old balance; only the balance may change |
| `Accounts.BankAccount.Withdraw` | src/com/banking/model/BankAccount.java:51-60 | for the base rule here and the Checking override of CheckingAccount.java:25-35, the outcome and new balance are those of WithdrawStep for the account's kind; the Checking branch reaches its result through the account's own Deposit; only the balance may change |
| `Accounts.BankAccount.AddInterest` | src/com/banking/model/SavingsAccount.java:24-27 | for a Savings account, outcome and new balance are those of InterestStep; only the balance may change |
| `Accounts.BankAccount.SetAccountHolderName` | src/com/banking/model/BankAccount.java:84-86 | sets the holder name and changes no other field |
| `TxnIds.TxnId` | src/com/banking/service/BankService.java:156 | "TXN" then the counter's decimal digits, left-padded with '0' to five; it has no contract of its own, and its facts are `TxnIdShape`, `TxnIdRoundTrip` and `TxnIdInjective` |
| `TxnIds.TxnIdShape` | src/com/banking/service/BankService.java:156 | an identifier is "TXN" followed by at least five decimal digits |
| `TxnIds.DecimalDigits` | src/com/banking/service/BankService.java:156 | the `%d` rendering of a counter is a non-empty run of decimal digits, one digit exactly below ten |
| `TxnIds.TxnIdRoundTrip` | src/com/banking/service/BankService.java:156 | parsing the identifier made from a counter gives back that counter |
| `TxnIds.TxnIdInjective` | src/com/banking/service/BankService.java:156 | two counters give the same identifier exactly when they are equal |
| `TxnIds.FirstTxnId` | src/com/banking/service/BankService.java:22 | the first counter value, 1, gives "TXN00001" |
| `Totals.Moved` | src/com/banking/service/BankService.java:107-108 | a transfer lowers the source by the amount and raises the target by it; a self-transfer changes nothing; no other account changes |
| `Totals.TransferConservesTotal` | src/com/banking/service/BankService.java:107-108 | a transfer leaves the total of all balances in the ledger unchanged |
| `Ledger.ToLowerAscii` | src/com/banking/service/BankService.java:35 | ASCII lowercasing (`accountType.toLowerCase()` under a default locale that maps 'A' to 'Z' onto 'a' to 'z'): each 'A' to 'Z' becomes its lowercase letter and every other character is kept, in place; it has no contract of its own, and `BankService.CreateAccount` states the dispatch it drives |
| `Ledger.HistoryOf` | src/com/banking/service/BankService.java:134-142 | a history is no longer than the log and holds only records of the log that belong to the account |
| `Ledger.HistoryComplete` | src/com/banking/service/BankService.java:136-140 | every record of the log that belongs to the account is in its history |
| `Ledger.HistoryAppend` | src/com/banking/service/BankService.java:134-142 | the history of two logs joined is the first log's history followed by the second's, so appended records only extend a history |
| `Ledger.HistoryIsSubsequence` | src/com/banking/service/BankService.java:134-142 | a history keeps the log's order: it is a subsequence of the log |
| `Ledger.SequentialIdsAppend` | src/com/banking/service/BankService.java:154-160 | appending a record with the next identifier keeps the log numbered TXN00001, TXN00002, … |
| `Ledger.IdsIncrease` | src/com/banking/service/BankService.java:154-160 | in such a log, record i parses back to i + 1, the numbers strictly increase along the log, and no two records share an identifier |
| `Ledger.BankService.constructor` | src/com/banking/service/BankService.java:19-24 | a fresh ledger: no accounts, no records, counter 1 |
| `Ledger.BankService.CreateAccount` | src/com/banking/service/BankService.java:29-49 | a number already present is refused, and nothing changes; otherwise a fresh zero-balance account is filed under the number and no other entry changes; it is Savings at 3.5 when the ASCII-lowercased type is "savings", Checking with a 500 limit when it is "checking", and Regular with type "Regular" otherwise |
| `Ledger.BankService.RecordTransaction` | src/com/banking/service/BankService.java:154-160 | appends exactly one record whose identifier is made from the old counter, raises the counter by one, and leaves the balances alone |
| `Ledger.BankService.Deposit` | src/com/banking/service/BankService.java:54-70 | succeeds exactly when the account exists and the amount is positive; it then raises that balance by the amount and appends one DEPOSIT record carrying the new balance; on failure balances, log and counter are unchanged |
| `Ledger.BankService.Withdraw` | src/com/banking/service/BankService.java:75-93 | succeeds exactly when the account exists, is not Checking, and 0 < amount <= balance; it then lowers that balance by the amount and appends one WITHDRAWAL record; on failure nothing changes |
| `Ledger.BankService.WithdrawThenDeposit` | src/com/banking/service/BankService.java:107-108 | the source's withdraw succeeds exactly under the Withdraw condition, and then the balances are moved as by Moved; otherwise none changes |
| `Ledger.BankService.Transfer` | src/com/banking/service/BankService.java:98-122 | succeeds exactly when both accounts exist, the source is not Checking, and 0 < amount <= its balance; the balances then become Moved of the old ones, and exactly TRANSFER_OUT then TRANSFER_IN are appended with consecutive identifiers and the balances read after the deposit; on failure nothing changes |
| `Ledger.BankService.GetAccount` | src/com/banking/service/BankService.java:127-129 | returns the account filed under the number, whose own number is that number, or null exactly when there is none |
| `Ledger.BankService.AllAccounts` | src/com/banking/service/BankService.java:147-149 | the set of accounts is exactly the accounts of the map, each filed under its own number |
| `Ledger.BankService.GetTransactionHistory` | src/com/banking/service/BankService.java:134-142 | the loop returns exactly HistoryOf the log for the account and modifies nothing |
| `LedgerScenarios.CheckingOverdraftScenario` | src/com/banking/model/CheckingAccount.java:30-34 | on a fresh ledger, withdrawing 300 from a new Checking account with a 500 limit fails, and so does a transfer out of it after a deposit |
| `LedgerScenarios.SavingsTransferScenario` | src/com/banking/service/BankService.java:98-122 | 1000 deposited to Savings, 250 transferred to Regular: the transfer succeeds and leaves 750 and 250 |
| `LedgerScenarios.RefusedTransferScenario` | src/com/banking/service/BankService.java:98-122 | a transfer of 300 out of an empty Regular account is refused and records nothing |

## Left out

- Persistence: `saveData` and `loadData` use Java object serialization and file I/O. The
  service constructor therefore starts from an empty ledger, and saving is taken to
  leave in-memory state unchanged. The save/load round trip is not modelled.
- The clock: `LocalDateTime.now()` becomes a `now: Timestamp` parameter of the
  mutating service operations. A transfer stamps both of its records with the same
  `now`, where Java reads the clock once per record.
- IEEE-754 doubles: amounts are exact reals. Rounding, NaN and infinities are not
  modelled. `deposit` refuses NaN, and so does the Checking withdrawal through its
  `deposit(-amount)`. NaN slips through `BankAccount.withdraw`'s guards, though
  (BankAccount.java:52 and :55). So a transfer of NaN out of a Regular or Savings
  account leaves the source balance at NaN and still returns `false`, because the
  deposit into the target throws after the withdrawal. The real-number model cannot
  show that partial update.
- The 32-bit `int` counter: after 2,147,483,647 records Java wraps it to negative
  values. The model's counter is unbounded, so the proofs that identifiers are distinct
  and increasing cover the model only.
- `Ledger.BankService.CreateAccount`: lowercases ASCII letters only. Java's
  `toLowerCase` folds all of Unicode, using the default locale.
- `Ledger.ToLowerAscii`: assumes a default locale that lowercases 'A' to 'Z' to 'a' to
  'z'. Under a Turkish or Azerbaijani locale, Java lowercases 'I' to dotless 'ı'
  (U+0131). Both "savings" and "checking" contain an 'i', so any type string with an
  uppercase I, such as "SAVINGS" or "CHECKING", makes a Regular
  account there. The console front end passes only the lowercase literals "savings",
  "checking" and "regular" (BankingApp.java:93-101), and the JavaFX one only "savings",
  "checking" or "regular" (BankingAppFX.java:276-278). Every locale leaves those
  unchanged.
- `TxnIds.TxnId`: writes the ASCII digits '0' to '9'. Java's `String.format` uses the
  default locale's digits for `%05d` and its zero padding, so under a locale such as
  `th_TH_TH` the real identifiers use other digits. The proofs that identifiers are
  distinct and increasing rest only on the digit encoding being one-to-one.
- Console output: the error messages that `deposit`, `withdraw` and `transfer` print
  from their catch blocks are dropped. Only the `false` they return is modelled.
- `toString` and every `String.format("%.2f")` rendering in the account and
  transaction classes.
- The getters are the class fields and datatype destructors themselves.
  `getOverdraftLimit` and `getInterestRate` are `kind.overdraftLimit` and
  `kind.interestRate`.
- The `Account` interface has no behaviour of its own. It is folded into the single
  `BankAccount` class.
- Accounts handed out by `getAccount` can be changed by the caller outside the service.
  The service's invariant still holds after any account method, but the model does not
  re-prove it for such outside calls.
- The console and JavaFX front ends and the React pages are presentation only.
