/** The value types of MortgageCalculator/Models/MortgageModel.swift, which the
    scenario store and the lump-sum editor work on. The closed-form payment that
    `regularPayment` computes is an input: `paymentFor(loanAmount, interestRate,
    loanTermYears, paymentsPerYear)`. Ids and dates (`UUID()`, `Date()`) are
    inputs too. */
module MortgageModel {
  import opened Common

  datatype LoanType = Fixed | Variable

  function LoanTypeRawValue(loanType: LoanType): string {
    match loanType
    case Fixed => "Fixed Rate"
    case Variable => "Variable Rate"
  }

  datatype PaymentFrequency = Weekly | BiWeekly | Monthly

  /** `paymentsPerYear`. */
  function PaymentsPerYear(frequency: PaymentFrequency): (ppy: int)
    ensures ppy >= 12
    ensures ppy == 52 <==> frequency == Weekly
    ensures ppy == 26 <==> frequency == BiWeekly
    ensures ppy == 12 <==> frequency == Monthly
  {
    match frequency
    case Weekly => 52
    case BiWeekly => 26
    case Monthly => 12
  }

  /** The `String` raw value shown to the user and stored in a scenario. */
  function RawValue(frequency: PaymentFrequency): string {
    match frequency
    case Weekly => "Weekly"
    case BiWeekly => "Bi-Weekly"
    case Monthly => "Monthly"
  }

  /** `PaymentFrequency(rawValue:)`. */
  function FromRawValue(raw: string): (r: Option<PaymentFrequency>)
    ensures r.Some? ==> RawValue(r.value) == raw
  {
    if raw == "Weekly" then Some(Weekly)
    else if raw == "Bi-Weekly" then Some(BiWeekly)
    else if raw == "Monthly" then Some(Monthly)
    else None
  }

  /** `PaymentFrequency(rawValue: f.rawValue) == f`, and the raw values differ. */
  lemma RawValueRoundTrip(frequency: PaymentFrequency, other: PaymentFrequency)
    ensures FromRawValue(RawValue(frequency)) == Some(frequency)
    ensures RawValue(frequency) == RawValue(other) ==> frequency == other
  {
    assert RawValue(frequency)[0] == RawValue(other)[0] ==> frequency == other;
  }

  datatype LumpSumPayment = LumpSumPayment(id: int, amount: real, paymentDate: int, paymentNumber: int)

  /** `LumpSumPayment(amount:paymentNumber:)`: both values stored as given, with
      a fresh id and the current date. */
  function NewLumpSumPayment(id: int, amount: real, paymentNumber: int, now: int): (p: LumpSumPayment)
    ensures p.amount == amount && p.paymentNumber == paymentNumber
    ensures p.id == id && p.paymentDate == now
  {
    LumpSumPayment(id, amount, now, paymentNumber)
  }

  datatype MortgageScenario = MortgageScenario(
    id: int,
    name: string,
    loanAmount: real,
    interestRate: real,
    loanTermYears: real,
    loanType: string,
    paymentFrequency: string,
    lumpSumPayments: seq<LumpSumPayment>,
    additionalPayment: real)

  const DefaultName := "Default Scenario"

  /** The memberwise initialiser without the defaulted fields: the name "Default
      Scenario", no lump sums and no additional payment. */
  function NewScenario(
    id: int, loanAmount: real, interestRate: real, loanTermYears: real, loanType: string, paymentFrequency: string): (s: MortgageScenario)
    ensures s.id == id && s.loanAmount == loanAmount && s.interestRate == interestRate
    ensures s.loanTermYears == loanTermYears && s.loanType == loanType && s.paymentFrequency == paymentFrequency
    ensures s.name == DefaultName && s.lumpSumPayments == [] && s.additionalPayment == 0.0
  {
    MortgageScenario(id, DefaultName, loanAmount, interestRate, loanTermYears, loanType, paymentFrequency, [], 0.0)
  }

  /** The frequency `regularPayment` computes with: the scenario's, or monthly when
      its string is not a raw value. */
  function RegularFrequency(scenario: MortgageScenario): (f: PaymentFrequency)
    ensures FromRawValue(scenario.paymentFrequency).Some? ==> RawValue(f) == scenario.paymentFrequency
    ensures FromRawValue(scenario.paymentFrequency).None? ==> f == Monthly
  {
    match FromRawValue(scenario.paymentFrequency)
    case Some(f) => f
    case None => Monthly
  }

  /** `regularPayment`: the closed-form payment at the scenario's frequency. */
  function RegularPayment(scenario: MortgageScenario, paymentFor: (real, real, real, int) -> real): real {
    paymentFor(scenario.loanAmount, scenario.interestRate, scenario.loanTermYears, PaymentsPerYear(RegularFrequency(scenario)))
  }

  /** `effectivePayment`: the regular payment plus the additional payment. */
  function EffectivePayment(scenario: MortgageScenario, paymentFor: (real, real, real, int) -> real): real {
    RegularPayment(scenario, paymentFor) + scenario.additionalPayment
  }

  /** A scenario made with the defaults pays exactly its regular payment, and one
      whose frequency string is unknown pays the monthly one. */
  lemma DefaultScenarioPayments(
    id: int, loanAmount: real, interestRate: real, loanTermYears: real, loanType: string, paymentFrequency: string,
    paymentFor: (real, real, real, int) -> real)
    ensures var s := NewScenario(id, loanAmount, interestRate, loanTermYears, loanType, paymentFrequency);
      EffectivePayment(s, paymentFor) == RegularPayment(s, paymentFor) &&
      (FromRawValue(paymentFrequency).None? ==>
        RegularPayment(s, paymentFor) == paymentFor(loanAmount, interestRate, loanTermYears, 12))
  {
  }
}
