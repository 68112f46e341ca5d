# In-memory bank: accounts, interest strategies, factory and registry

A Dafny model of a small console bank written in C#. The bank keeps a
registry of accounts keyed by account number. Each account is a savings or
checking account that holds a balance and an interest strategy. The strategy
pays 5% interest on savings and 1% on checking. A factory turns the type
strings `"savings"` and `"checking"` into new accounts and rejects any other
string.

Modules:

- `Interest` (`interest.dfy`): the two interest strategies, as a datatype
  with a pure `CalculateInterest`.
- `Accounts` (`accounts.dfy`): the account class, with a kind tag in place of
  the two subclasses. Its `Deposit`, `Withdraw` and `CalculateInterest`
  update `balance` in place. Each is specified by a function on the balance
  (`Deposited`, `Withdrawn`, `WithInterest`). `Step` and `Replay` apply a
  history of such operations. Several lemmas are stated about that history;
  the others are about a single operation.
- `Factory` (`factory.dfy`): `CreateAccount`. An unknown type string gives
  `Failure(InvalidAccountType(...))`; the program throws an exception there.
- `Registry` (`registry.dfy`): the `Bank` class, holding a
  `map<int, BankAccount>` that `AddAccount` updates in place.
- `Wrappers` (`wrappers.dfy`): `Option` and `Result`.

The program's `decimal` amounts are modelled as exact `real` numbers.

One property holds only under a condition the program does not state.
Depositing an amount x > 0 and then withdrawing x restores the balance only
when that balance is non-negative. On a negative balance b, the balance after
the deposit is b + x, which is less than x. So the withdrawal is refused and
the deposit stays (`DepositThenWithdrawRestores`). A negative balance can
arise because deposits are not checked (`NegativeDepositOverdraws`).

## Model

| member | source | states |
|---|---|---|
| `Interest.InterestCalculator.CalculateInterest` | Program.cs:129-143 | the interest has the sign of the balance and a strictly smaller magnitude (zero on a zero balance) |
| `Interest.InterestIsRate` | Program.cs:129-143 | interest is proportional to the balance, at a rate of 0.05 for savings and 0.01 for checking |
| `Interest.InterestIsLinear` | Program.cs:129-143 | interest is additive in the balance and scales with it |
| `Interest.InterestOnThousand` | Program.cs:129-143 | on a balance of 1000, savings interest is 50 and checking interest is 10 |
| `Accounts.BankAccount.constructor` | Program.cs:43-47 | a new account holds exactly the given number, balance, variant and strategy |
| `Accounts.BankAccount.Deposit` | Program.cs:62-66 | the balance becomes old balance + amount for any amount, with no guard; number, variant and strategy are unchanged (same for the checking variant, lines 84-88) |
| `Accounts.BankAccount.Withdraw` | Program.cs:68-79 | succeeds exactly when old balance >= amount; then the balance is old - amount and is >= 0; otherwise the balance is unchanged; only the balance can change (same for the checking variant, lines 90-101) |
| `Accounts.BankAccount.CalculateInterest` | Program.cs:52-57 | the returned interest is the strategy's interest on the old balance, and the new balance is old balance + that interest; only the balance changes |
| `Accounts.WithdrawNeverOverdraws` | Program.cs:90-101 | a withdrawal that the balance covers never leaves a negative balance |
| `Accounts.DepositThenWithdrawRestores` | Program.cs:62-79 | with amount >= 0 and balance >= 0, deposit then withdraw of the same amount restores the balance; with a negative balance the withdrawal is refused and the deposit stays |
| `Accounts.NegativeDepositOverdraws` | Program.cs:84-88 | a negative deposit on a new account leaves a negative balance |
| `Accounts.InterestFactor` | Program.cs:52-55 | paying interest multiplies the balance by 1.05 for savings and 1.01 for checking |
| `Accounts.ReplayAppend` | Program.cs:49-57 | a law of `Replay` itself, true whatever the step: applying two histories in turn is the same as applying their concatenation, so an account's history can be split at any point |
| `Accounts.StepKeepsNonNegative` | Program.cs:62-101 | a deposit of a non-negative amount, any withdrawal, or an interest payment keeps a non-negative balance non-negative |
| `Accounts.ReplayKeepsNonNegative` | Program.cs:62-101 | from a non-negative balance, any history without negative deposits ends non-negative |
| `Accounts.SavingsSession` | Program.cs:154-183 | a new savings account after deposit 500, withdraw 200 and interest has balance 315 |
| `Accounts.CheckingSession` | Program.cs:155-184 | a new checking account after deposit 1000, a refused withdrawal of 1500 and interest has balance 1010 |
| `Factory.AccountTypeOf` | Program.cs:106-119 | `"savings"` gives the savings variant, `"checking"` the checking variant, and exactly all other strings give none |
| `Factory.AccountTypeRoundTrip` | Program.cs:108-115 | each variant has exactly one accepted type string, and parsing its name gives it back |
| `Factory.CalculatorForIsInjective` | Program.cs:110-114 | the two variants receive different strategies |
| `Factory.CreateAccount` | Program.cs:106-120 | fails with the invalid-type error exactly on unknown strings; otherwise returns a fresh account of the named variant with the given number, balance 0 and that variant's strategy |
| `Registry.Bank.constructor` | Program.cs:13-16 | a new bank holds no accounts |
| `Registry.Bank.AddAccount` | Program.cs:30-33 | the account is stored under its number and replaces any earlier entry; all other entries are unchanged |
| `Registry.Bank.GetAccount` | Program.cs:35-39 | returns the account under the number when there is one, and null, with no error, when there is none |
| `Registry.LastRegistrationWins` | Program.cs:30-33 | registering two accounts under the same number leaves only the later one |

## Left out

- Console output: every message, including the insufficient-funds text. `Withdraw` returns a boolean for that outcome, and `CalculateInterest` returns the interest amount it reports.
- The driver `Main` (Program.cs:146-187), with its console reads and integer parsing. Its scripted sequence appears only as the two session lemmas, with fixed inputs.
- The lazy creation of the single process-wide `Bank` instance. The registry is an ordinary object here.
- The range, precision and overflow limits of `System.Decimal`. Amounts are exact reals.
- The public setters on account number, balance and strategy. The fields are mutable in the model too, but no operation assigns them other than as stated. No operation renumbers an account, and no contract ties a registry key to the current number of the account stored under it; after an outside change the key keeps the old number, as in the program.
- Null arguments. `AddAccount(null)` throws a null-reference exception in the program (Program.cs:32), and `CreateAccount` with a null type string reaches the invalid-type exception (Program.cs:118). The model's account and string parameters cannot be null, so these error paths are not modelled.
- The savings and checking subclasses and the strategy interface. They become a kind tag and a two-constructor datatype; dynamic dispatch is not modelled.
