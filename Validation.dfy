/**
 * The amount checks of the server's ValidationTest: a predicate and a
 * validator that throws IllegalArgumentException, here an `Err` with the
 * exception's message. Amounts are the test's Double values as reals.
 */
module Validation {
  import opened Wrappers

  const AmountMessage := "Transaction amount must be greater than 0"

  /**
   * isValidTransactionAmount. Its contract only repeats the comparison; what
   * the tests promise of it is stated by ValidatorAgreesWithPredicate and
   * ValidationTestCases.
   */
  function IsValidTransactionAmount(amount: real): (r: bool)
    ensures r <==> amount > 0.0
  {
    amount > 0.0
  }

  /** validateTransactionAmount: throws for zero and every negative amount, returns normally otherwise. */
  function ValidateTransactionAmount(amount: real): (r: Result<()>)
    ensures r.Err? <==> amount <= 0.0
    ensures r.Err? ==> r.error == AmountMessage
  {
    if amount <= 0.0 then Err(AmountMessage) else Ok(())
  }

  /** The validator throws exactly for the amounts the predicate rejects. */
  lemma ValidatorAgreesWithPredicate(amount: real)
    ensures ValidateTransactionAmount(amount).Ok? <==> IsValidTransactionAmount(amount)
    ensures !IsValidTransactionAmount(amount) ==> ValidateTransactionAmount(amount) == Err(AmountMessage)
  {
  }

  /** The six test cases. */
  lemma ValidationTestCases()
    ensures IsValidTransactionAmount(100.0)
    ensures !IsValidTransactionAmount(0.0)
    ensures !IsValidTransactionAmount(-50.0)
    ensures ValidateTransactionAmount(0.0) == Err(AmountMessage)
    ensures ValidateTransactionAmount(-100.0) == Err(AmountMessage)
    ensures ValidateTransactionAmount(250.5).Ok?
  {
  }
}
