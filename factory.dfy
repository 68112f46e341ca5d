/**
  The account factory: maps the type strings "savings" and "checking" to a
  new account with balance zero and the matching interest strategy. Any
  other type string is the invalid-account-type error and yields no account.
 */
module Factory {
  import opened Wrappers
  import opened Interest
  import opened Accounts

  /** The program raises this error (message "Fel kontotyp") for an unknown type string. */
  datatype FactoryError = InvalidAccountType(accountType: string)

  /** The account variant a type string names, if any. */
  function AccountTypeOf(accountType: string): (kind: Option<AccountKind>)
    ensures kind == Some(Savings) <==> accountType == "savings"
    ensures kind == Some(Checking) <==> accountType == "checking"
    ensures kind == None <==> accountType != "savings" && accountType != "checking"
  {
    if accountType == "savings" then Some(Savings)
    else if accountType == "checking" then Some(Checking)
    else None
  }

  /** The type string that names a variant. */
  function TypeName(kind: AccountKind): (accountType: string)
  {
    match kind
    case Savings => "savings"
    case Checking => "checking"
  }

  /** The strategy a new account of each variant receives. */
  function CalculatorFor(kind: AccountKind): (calculator: InterestCalculator)
  {
    match kind
    case Savings => SavingsInterestCalculator
    case Checking => CheckingInterestCalculator
  }

  /** Each variant is named by exactly one type string: `TypeName` and
      `AccountTypeOf` are inverse on the accepted strings. */
  lemma AccountTypeRoundTrip(accountType: string, kind: AccountKind)
    ensures AccountTypeOf(TypeName(kind)) == Some(kind)
    ensures AccountTypeOf(accountType) == Some(kind) <==> accountType == TypeName(kind)
  {
  }

  /** Distinct variants get distinct strategies, so the factory's choice of
      strategy determines the variant. */
  lemma CalculatorForIsInjective(a: AccountKind, b: AccountKind)
    ensures CalculatorFor(a) == CalculatorFor(b) <==> a == b
  {
  }

  method CreateAccount(accountType: string, accountNumber: int) returns (r: Result<BankAccount, FactoryError>)
    ensures r.Failure? <==> AccountTypeOf(accountType) == None
    ensures r.Failure? ==> r.error == InvalidAccountType(accountType)
    ensures r.Success? ==>
              fresh(r.value) &&
              Some(r.value.kind) == AccountTypeOf(accountType) &&
              r.value.accountNumber == accountNumber &&
              r.value.balance == 0.0 &&
              r.value.interestCalculator == CalculatorFor(r.value.kind)
  {
    if accountType == "savings" {
      var account := new BankAccount(Savings, accountNumber, 0.0, SavingsInterestCalculator);
      r := Success(account);
    } else if accountType == "checking" {
      var account := new BankAccount(Checking, accountNumber, 0.0, CheckingInterestCalculator);
      r := Success(account);
    } else {
      r := Failure(InvalidAccountType(accountType));
    }
  }
}
