/** The input form of the calculator screen: the ordered validation of the four
    text fields (MortgageCalculator.swift and MortgageCalculator/Views/ContentView.swift
    hold the same checks, the first parsing with `Decimal(string:)`, the second with
    `Double(_:)`) and the `calculateResults` action that guards the service call
    with it. A field's parse is an input: `None` when the text does not parse. */
module InputForm {
  import opened Common
  import opened Amortization
  import opened CalculatorService

  const LoanAmountMessage := "Please enter a valid loan amount greater than 0"
  const InterestRateMessage := "Please enter a valid interest rate greater than 0"
  const LoanTermMessage := "Please enter a valid loan term greater than 0"
  const AdditionalPaymentMessage := "Please enter a valid additional payment (0 or greater)"

  /** A field that parses to a value above 0. */
  predicate Positive(field: Option<real>) {
    field.Some? && field.value > 0.0
  }

  /** A field that parses to a value of 0 or more. */
  predicate NonNegative(field: Option<real>) {
    field.Some? && field.value >= 0.0
  }

  /** The message of the first failing check, in the order amount, rate, term,
      additional payment; none when every check passes. */
  function FirstInputError(
    loanAmount: Option<real>, interestRate: Option<real>, loanTerm: Option<real>, additionalPayment: Option<real>): (e: Option<string>)
    ensures e.None? <==>
      Positive(loanAmount) && Positive(interestRate) && Positive(loanTerm) && NonNegative(additionalPayment)
    ensures e == Some(LoanAmountMessage) <==> !Positive(loanAmount)
    ensures e == Some(InterestRateMessage) <==> Positive(loanAmount) && !Positive(interestRate)
    ensures e == Some(LoanTermMessage) <==> Positive(loanAmount) && Positive(interestRate) && !Positive(loanTerm)
    ensures e == Some(AdditionalPaymentMessage) <==>
      Positive(loanAmount) && Positive(interestRate) && Positive(loanTerm) && !NonNegative(additionalPayment)
  {
    if !Positive(loanAmount) then Some(LoanAmountMessage)
    else if !Positive(interestRate) then Some(InterestRateMessage)
    else if !Positive(loanTerm) then Some(LoanTermMessage)
    else if !NonNegative(additionalPayment) then Some(AdditionalPaymentMessage)
    else None
  }

  /** The screen's state: the error shown to the user and the last result. */
  class ContentView {
    var inputErrorMessage: string
    var showInputError: bool
    var calculationResult: Option<CalculationResult>

    constructor()
      ensures inputErrorMessage == "" && !showInputError && calculationResult == None
    {
      inputErrorMessage := "";
      showInputError := false;
      calculationResult := None;
    }

    /** `validateInputs`: the first failing check sets its message and raises the
        error flag; when every check passes nothing changes. */
    method ValidateInputs(
      loanAmount: Option<real>, interestRate: Option<real>, loanTerm: Option<real>, additionalPayment: Option<real>)
      returns (valid: bool)
      modifies this
      ensures valid <==> FirstInputError(loanAmount, interestRate, loanTerm, additionalPayment).None?
      ensures valid ==> inputErrorMessage == old(inputErrorMessage) && showInputError == old(showInputError)
      ensures !valid ==>
        Some(inputErrorMessage) == FirstInputError(loanAmount, interestRate, loanTerm, additionalPayment) && showInputError
      ensures calculationResult == old(calculationResult)
    {
      if !(loanAmount.Some? && loanAmount.value > 0.0) {
        inputErrorMessage := LoanAmountMessage;
        showInputError := true;
        return false;
      }
      if !(interestRate.Some? && interestRate.value > 0.0) {
        inputErrorMessage := InterestRateMessage;
        showInputError := true;
        return false;
      }
      if !(loanTerm.Some? && loanTerm.value > 0.0) {
        inputErrorMessage := LoanTermMessage;
        showInputError := true;
        return false;
      }
      if !(additionalPayment.Some? && additionalPayment.value >= 0.0) {
        inputErrorMessage := AdditionalPaymentMessage;
        showInputError := true;
        return false;
      }
      return true;
    }

    /** `calculateResults`: on invalid input the error is shown and the previous
        result stays; otherwise the result is replaced by the service's calculation
        for the parsed values. `periodicPayment` is the service's closed-form payment
        for them; the term must give at least one period and, with a positive
        additional payment, the payment must be non-zero (the service divides by it
        there), which the checks do not ensure. */
    method CalculateResults(
      frequencies: map<string, int>, loanAmount: Option<real>, interestRate: Option<real>, loanTerm: Option<real>,
      frequency: string, additionalPayment: Option<real>, periodicPayment: real)
      modifies this
      requires FirstInputError(loanAmount, interestRate, loanTerm, additionalPayment).None? ==>
        ValidLoan(frequencies, loanAmount.value, loanTerm.value, frequency) &&
        (additionalPayment.value > 0.0 ==> periodicPayment != 0.0)
      ensures var e := FirstInputError(loanAmount, interestRate, loanTerm, additionalPayment);
        e.Some? ==> calculationResult == old(calculationResult) && Some(inputErrorMessage) == e && showInputError
      ensures var e := FirstInputError(loanAmount, interestRate, loanTerm, additionalPayment);
        e.None? ==>
          inputErrorMessage == old(inputErrorMessage) && showInputError == old(showInputError) &&
          calculationResult.Some? &&
          calculationResult.value.periodicPayment == periodicPayment &&
          calculationResult.value.amortizationSchedule ==
            StandardSchedule(frequencies, loanAmount.value, interestRate.value, loanTerm.value, frequency, periodicPayment) &&
          calculationResult.value.totalInterest ==
            TotalInterestOf(StandardSchedule(frequencies, loanAmount.value, interestRate.value, loanTerm.value, frequency, periodicPayment)) &&
          calculationResult.value.totalCost == loanAmount.value + calculationResult.value.totalInterest &&
          calculationResult.value.comparisonScenarios ==
            ComparisonsFor(frequencies, loanAmount.value, interestRate.value, loanTerm.value, frequency,
              periodicPayment, calculationResult.value.totalInterest, Increases) &&
          calculationResult.value.additionalPaymentScenario ==
            (if additionalPayment.value > 0.0
             then AdditionalPaymentScenario(frequencies, loanAmount.value, interestRate.value, loanTerm.value, frequency,
               periodicPayment, additionalPayment.value, calculationResult.value.totalInterest)
             else None)
    {
      var valid := ValidateInputs(loanAmount, interestRate, loanTerm, additionalPayment);
      if !valid {
        return;
      }
      var result: Option<CalculationResult> := None;
      if loanAmount.Some? && interestRate.Some? && loanTerm.Some? && additionalPayment.Some? {
        var mortgage := CalculateMortgage(frequencies, loanAmount.value, interestRate.value, loanTerm.value,
          frequency, additionalPayment.value, periodicPayment);
        result := Some(mortgage);
      }
      calculationResult := result;
    }
  }
}
