/** The value types of MortgageCalculator/Models/Models.swift, which the lump-sum
    engine of MortgageCalculator/Services/MortgageCalculator.swift works on. */
module Models {
  import opened Common

  datatype PaymentFrequency = Weekly | Biweekly | Monthly

  /** `paymentsPerYear`. */
  function PaymentsPerYear(frequency: PaymentFrequency): (ppy: int)
    ensures ppy >= 12
    ensures ppy == 52 <==> frequency == Weekly
    ensures ppy == 26 <==> frequency == Biweekly
    ensures ppy == 12 <==> frequency == Monthly
  {
    match frequency
    case Weekly => 52
    case Biweekly => 26
    case Monthly => 12
  }

  /** The `String` raw value: the case name. */
  function RawValue(frequency: PaymentFrequency): string {
    match frequency
    case Weekly => "weekly"
    case Biweekly => "biweekly"
    case Monthly => "monthly"
  }

  /** `PaymentFrequency(rawValue:)`: the case whose name is the string, if any. */
  function FromRawValue(raw: string): (r: Option<PaymentFrequency>)
    ensures r.Some? ==> RawValue(r.value) == raw
  {
    if raw == "weekly" then Some(Weekly)
    else if raw == "biweekly" then Some(Biweekly)
    else if raw == "monthly" then Some(Monthly)
    else None
  }

  /** Every case is found again from its raw value, and no two cases share one. */
  lemma RawValueRoundTrip(frequency: PaymentFrequency, other: PaymentFrequency)
    ensures FromRawValue(RawValue(frequency)) == Some(frequency)
    ensures RawValue(frequency) == RawValue(other) ==> frequency == other
  {
    assert RawValue(frequency)[0] == RawValue(other)[0] ==> frequency == other;
  }

  datatype LumpSumPayment = LumpSumPayment(paymentNumber: int, amount: real)

  datatype MortgageScenario = MortgageScenario(
    loanAmount: real,
    interestRate: real,
    loanTermYears: real,
    paymentFrequency: PaymentFrequency,
    regularPayment: real,
    effectivePayment: real,
    lumpSumPayments: seq<LumpSumPayment>)

  /** `MortgageScenario.init`, an argument left out being `None`: the frequency
      defaults to monthly, the effective payment to the regular payment and the lump
      sums to none; every other argument is stored as given. */
  function NewScenario(
    loanAmount: real, interestRate: real, loanTermYears: real, paymentFrequency: Option<PaymentFrequency>,
    regularPayment: real, effectivePayment: Option<real>, lumpSumPayments: Option<seq<LumpSumPayment>>): (s: MortgageScenario)
    ensures s.loanAmount == loanAmount && s.interestRate == interestRate && s.loanTermYears == loanTermYears
    ensures s.regularPayment == regularPayment
    ensures s.paymentFrequency == (if paymentFrequency.Some? then paymentFrequency.value else Monthly)
    ensures s.effectivePayment == (if effectivePayment.Some? then effectivePayment.value else regularPayment)
    ensures s.lumpSumPayments == (if lumpSumPayments.Some? then lumpSumPayments.value else [])
  {
    MortgageScenario(
      loanAmount, interestRate, loanTermYears,
      if paymentFrequency.Some? then paymentFrequency.value else Monthly,
      regularPayment,
      if effectivePayment.Some? then effectivePayment.value else regularPayment,
      if lumpSumPayments.Some? then lumpSumPayments.value else [])
  }
}
