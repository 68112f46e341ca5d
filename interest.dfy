/**
  The interest strategies. Each strategy is a stateless calculator that maps a
  balance to the interest earned on it: 5% for savings accounts, 1% for
  checking accounts. Monetary amounts are exact decimals in the program and
  are modelled as `real`.
 */
module Interest {

  datatype InterestCalculator = SavingsInterestCalculator | CheckingInterestCalculator {

    /** The interest on `balance`: a fixed fraction of it, below 100%, so it
        has the sign of the balance and a smaller magnitude. */
    function CalculateInterest(balance: real): (interest: real)
      ensures balance > 0.0 ==> 0.0 < interest < balance
      ensures balance == 0.0 ==> interest == 0.0
      ensures balance < 0.0 ==> balance < interest < 0.0
    {
      match this
      case SavingsInterestCalculator => balance * 0.05
      case CheckingInterestCalculator => balance * 0.01
    }
  }

  /** Interest is proportional to the balance, with rate 5% for savings and
      1% for checking. */
  lemma InterestIsRate(calculator: InterestCalculator, balance: real)
    ensures calculator.CalculateInterest(balance) == balance * calculator.CalculateInterest(1.0)
    ensures SavingsInterestCalculator.CalculateInterest(1.0) == 0.05
    ensures CheckingInterestCalculator.CalculateInterest(1.0) == 0.01
  {
  }

  /** Scaling the balance scales the interest by the same factor. */
  lemma InterestIsLinear(calculator: InterestCalculator, a: real, b: real, k: real)
    ensures calculator.CalculateInterest(a + b)
         == calculator.CalculateInterest(a) + calculator.CalculateInterest(b)
    ensures calculator.CalculateInterest(k * a) == k * calculator.CalculateInterest(a)
  {
  }

  /** The worked figures: on a balance of 1000, savings earn 50 and checking 10. */
  lemma InterestOnThousand()
    ensures SavingsInterestCalculator.CalculateInterest(1000.0) == 50.0
    ensures CheckingInterestCalculator.CalculateInterest(1000.0) == 10.0
  {
  }
}
