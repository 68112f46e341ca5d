/**
  The bank: a registry of accounts keyed by account number. The program keeps
  one process-wide instance; here it is an ordinary object.
 */
module Registry {
  import opened Accounts

  class Bank {
    var accounts: map<int, BankAccount>

    constructor ()
      ensures accounts == map[]
    {
      accounts := map[];
    }

    /** Registers `account` under its number. An earlier account with the
        same number is silently replaced; every other entry is kept. */
    method AddAccount(account: BankAccount)
      modifies this`accounts
      ensures accounts == old(accounts)[account.accountNumber := account]
      ensures account.accountNumber in accounts && accounts[account.accountNumber] == account
      ensures accounts.Keys == old(accounts).Keys + {account.accountNumber}
      ensures forall n :: n in old(accounts) && n != account.accountNumber ==> accounts[n] == old(accounts)[n]
    {
      accounts := accounts[account.accountNumber := account];
    }

    /** The account registered under `accountNumber`, or null when there is
        none; a missing number is not an error. */
    method GetAccount(accountNumber: int) returns (account: BankAccount?)
      ensures account != null <==> accountNumber in accounts
      ensures account != null ==> account == accounts[accountNumber]
    {
      if accountNumber in accounts {
        account := accounts[accountNumber];
      } else {
        account := null;
      }
    }
  }

  /** Registering two accounts under the same number leaves only the later one. */
  lemma LastRegistrationWins(accounts: map<int, BankAccount>, first: BankAccount, second: BankAccount)
    requires first.accountNumber == second.accountNumber
    ensures accounts[first.accountNumber := first][second.accountNumber := second]
         == accounts[second.accountNumber := second]
  {
  }
}
