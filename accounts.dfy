/**
  Bank accounts. The program's abstract account with its savings and checking
  variants is one class here with a kind tag: the two variants differ only in
  the text of their console messages, which the model leaves out.

  Each operation of an account is specified by a function on the balance
  (`Deposited`, `Withdrawn`, `WithInterest`); `Step` and `Replay` apply a
  history of such operations, which is how a balance evolves over the
  lifetime of an account.
 */
module Accounts {
  import opened Interest

  datatype AccountKind = Savings | Checking

  /** Balance after a deposit: the amount is added with no check of its sign. */
  function Deposited(balance: real, amount: real): (newBalance: real)
  {
    balance + amount
  }

  /** A withdrawal goes through exactly when the balance covers it. */
  predicate CanWithdraw(balance: real, amount: real)
  {
    balance >= amount
  }

  /** Balance after a withdrawal request; a refused request changes nothing. */
  function Withdrawn(balance: real, amount: real): (newBalance: real)
  {
    if CanWithdraw(balance, amount) then balance - amount else balance
  }

  /** Balance after the strategy's interest has been paid out. */
  function WithInterest(calculator: InterestCalculator, balance: real): (newBalance: real)
  {
    balance + calculator.CalculateInterest(balance)
  }

  /** One operation on an account. */
  datatype Transaction = Deposit(amount: real) | Withdrawal(amount: real) | InterestPayment

  function Step(calculator: InterestCalculator, balance: real, t: Transaction): (newBalance: real)
  {
    match t
    case Deposit(amount) => Deposited(balance, amount)
    case Withdrawal(amount) => Withdrawn(balance, amount)
    case InterestPayment => WithInterest(calculator, balance)
  }

  /** The balance after applying `history`, oldest first, to `balance`. */
  function Replay(calculator: InterestCalculator, balance: real, history: seq<Transaction>): (finalBalance: real)
    decreases |history|
  {
    if history == [] then balance
    else Replay(calculator, Step(calculator, balance, history[0]), history[1..])
  }

  /** No deposit in `history` has a negative amount. */
  predicate NoNegativeDeposits(history: seq<Transaction>)
  {
    forall i :: 0 <= i < |history| && history[i].Deposit? ==> history[i].amount >= 0.0
  }

  /** A withdrawal that goes through can never overdraw the account. */
  lemma WithdrawNeverOverdraws(balance: real, amount: real)
    requires CanWithdraw(balance, amount)
    ensures Withdrawn(balance, amount) >= 0.0
  {
  }

  /** Depositing a non-negative amount and withdrawing it again restores a
      non-negative balance. On a negative balance the withdrawal is not
      covered, so the deposit stays. */
  lemma DepositThenWithdrawRestores(calculator: InterestCalculator, balance: real, amount: real)
    requires amount >= 0.0
    ensures balance >= 0.0 ==> Withdrawn(Deposited(balance, amount), amount) == balance
    ensures balance < 0.0 ==> Withdrawn(Deposited(balance, amount), amount) == balance + amount
    ensures balance >= 0.0 ==> Replay(calculator, balance, [Deposit(amount), Withdrawal(amount)]) == balance
  {
    var history := [Deposit(amount), Withdrawal(amount)];
    assert history[1..] == [Withdrawal(amount)];
    assert Replay(calculator, balance, history)
        == Replay(calculator, Deposited(balance, amount), [Withdrawal(amount)]);
    assert Replay(calculator, Deposited(balance, amount), [Withdrawal(amount)])
        == Replay(calculator, Withdrawn(Deposited(balance, amount), amount), []);
  }

  /** Deposits are not checked: a negative deposit can drive the balance below zero. */
  lemma NegativeDepositOverdraws(calculator: InterestCalculator, amount: real)
    requires amount < 0.0
    ensures Replay(calculator, 0.0, [Deposit(amount)]) < 0.0
  {
  }

  /** Paying interest multiplies the balance by 1.05 (savings) or 1.01 (checking). */
  lemma InterestFactor(calculator: InterestCalculator, balance: real)
    ensures calculator.SavingsInterestCalculator? ==> WithInterest(calculator, balance) == balance * 1.05
    ensures calculator.CheckingInterestCalculator? ==> WithInterest(calculator, balance) == balance * 1.01
  {
  }

  /** Applying two histories one after the other is applying their concatenation. */
  lemma {:induction false} ReplayAppend(calculator: InterestCalculator, balance: real,
                                        first: seq<Transaction>, second: seq<Transaction>)
    ensures Replay(calculator, balance, first + second)
         == Replay(calculator, Replay(calculator, balance, first), second)
    decreases |first|
  {
    if first == [] {
      assert first + second == second;
    } else {
      assert (first + second)[0] == first[0];
      assert (first + second)[1..] == first[1..] + second;
      ReplayAppend(calculator, Step(calculator, balance, first[0]), first[1..], second);
    }
  }

  /** One step keeps a non-negative balance non-negative unless it is a negative deposit. */
  lemma StepKeepsNonNegative(calculator: InterestCalculator, balance: real, t: Transaction)
    requires balance >= 0.0
    requires t.Deposit? ==> t.amount >= 0.0
    ensures Step(calculator, balance, t) >= 0.0
  {
  }

  /** An account that starts non-negative stays non-negative through any
      sequence of deposits, withdrawals and interest payments, provided no
      deposit is negative. */
  lemma {:induction false} ReplayKeepsNonNegative(calculator: InterestCalculator, balance: real,
                                                  history: seq<Transaction>)
    requires balance >= 0.0
    requires NoNegativeDeposits(history)
    ensures Replay(calculator, balance, history) >= 0.0
    decreases |history|
  {
    if history != [] {
      StepKeepsNonNegative(calculator, balance, history[0]);
      assert NoNegativeDeposits(history[1..]) by {
        forall i | 0 <= i < |history[1..]| && history[1..][i].Deposit?
          ensures history[1..][i].amount >= 0.0
        {
          assert history[1..][i] == history[i + 1];
        }
      }
      ReplayKeepsNonNegative(calculator, Step(calculator, balance, history[0]), history[1..]);
    }
  }

  /** The scripted session on a new savings account: deposit 500, withdraw
      200, pay interest, ending at 315. */
  lemma SavingsSession()
    ensures Replay(SavingsInterestCalculator, 0.0,
                   [Deposit(500.0), Withdrawal(200.0), InterestPayment]) == 315.0
  {
  }

  /** The scripted session on a new checking account: deposit 1000, a refused
      withdrawal of 1500, pay interest, ending at 1010. */
  lemma CheckingSession()
    ensures Replay(CheckingInterestCalculator, 0.0,
                   [Deposit(1000.0), Withdrawal(1500.0), InterestPayment]) == 1010.0
  {
  }

  /** An account: its number, balance, variant and interest strategy. Only the
      balance changes under the account's operations. */
  class BankAccount {
    var accountNumber: int
    var balance: real
    var kind: AccountKind
    var interestCalculator: InterestCalculator

    constructor (kind: AccountKind, accountNumber: int, balance: real, interestCalculator: InterestCalculator)
      ensures this.kind == kind && this.accountNumber == accountNumber
      ensures this.balance == balance && this.interestCalculator == interestCalculator
    {
      this.kind := kind;
      this.accountNumber := accountNumber;
      this.balance := balance;
      this.interestCalculator := interestCalculator;
    }

    method Deposit(amount: real)
      modifies this`balance
      ensures balance == Deposited(old(balance), amount)
      ensures balance == Step(interestCalculator, old(balance), Transaction.Deposit(amount))
      ensures accountNumber == old(accountNumber) && kind == old(kind)
      ensures interestCalculator == old(interestCalculator)
    {
      balance := balance + amount;
    }

    /** Returns whether the withdrawal went through; when it did not, the
        program only reports insufficient funds. */
    method Withdraw(amount: real) returns (ok: bool)
      modifies this`balance
      ensures ok <==> CanWithdraw(old(balance), amount)
      ensures balance == Withdrawn(old(balance), amount)
      ensures balance == Step(interestCalculator, old(balance), Withdrawal(amount))
      ensures ok ==> balance >= 0.0
      ensures !ok ==> balance == old(balance)
      ensures accountNumber == old(accountNumber) && kind == old(kind)
      ensures interestCalculator == old(interestCalculator)
    {
      if balance >= amount {
        balance := balance - amount;
        ok := true;
      } else {
        ok := false;
      }
    }

    /** Pays out the strategy's interest; returns the interest the program reports. */
    method CalculateInterest() returns (interest: real)
      modifies this`balance
      ensures interest == interestCalculator.CalculateInterest(old(balance))
      ensures balance == old(balance) + interest
      ensures balance == Step(interestCalculator, old(balance), InterestPayment)
      ensures accountNumber == old(accountNumber) && kind == old(kind)
      ensures interestCalculator == old(interestCalculator)
    {
      interest := interestCalculator.CalculateInterest(balance);
      balance := balance + interest;
    }
  }
}
