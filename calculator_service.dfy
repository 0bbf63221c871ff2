/** The Double copy of the engine (MortgageCalculator/Models/MortgageCalculatorService.swift):
    one loop, `generateSchedule`, serves both the standard schedule (run for the
    whole term) and the fixed-payment schedule (stops at a zero balance, capped at
    twice the term). The closed-form payment is an input: `periodicPayment` stands
    for `calculatePeriodicPayment` on the same loan, and the frequency table the
    service reads is passed in as `frequencies`. */
module CalculatorService {
  import opened Common
  import opened Amortization

  /** The frequency table the service reads; every entry is a positive count. */
  predicate ValidTable(frequencies: map<string, int>) {
    forall f :: f in frequencies ==> frequencies[f] >= 1
  }

  /** `frequencies[frequency] ?? 12`. */
  function PaymentsPerYear(frequencies: map<string, int>, frequency: string): (ppy: int)
    requires ValidTable(frequencies)
    ensures ppy >= 1
    ensures frequency in frequencies ==> ppy == frequencies[frequency]
    ensures frequency !in frequencies ==> ppy == 12
  {
    if frequency in frequencies then frequencies[frequency] else 12
  }

  /** The annual percentage rate spread over the periods of a year. */
  function PeriodicRate(interestRate: real, paymentsPerYear: int): real
    requires paymentsPerYear >= 1
  {
    (interestRate / 100.0) / paymentsPerYear as real
  }

  /** `Int(loanTerm * paymentsPerYear)`: the periods of the standard schedule. */
  function NumberOfPayments(loanTerm: real, paymentsPerYear: int): int {
    Trunc(loanTerm * paymentsPerYear as real)
  }

  /** `Int(loanTerm * paymentsPerYear * 2)`: the cap on the fixed-payment schedule. */
  function MaxPayments(loanTerm: real, paymentsPerYear: int): int {
    Trunc(loanTerm * paymentsPerYear as real * 2.0)
  }

  /** What the loop runs with: the periodic rate of the frequency, and a period's
      `payment` recorded as principal + interest. */
  function ScheduleTerms(frequencies: map<string, int>, loanAmount: real, interestRate: real, frequency: string, payment: real): Terms
    requires ValidTable(frequencies)
  {
    var ppy := PaymentsPerYear(frequencies, frequency);
    Terms(loanAmount, PeriodicRate(interestRate, ppy), payment, ppy, false)
  }

  /** The inputs under which the service does not trap: a non-zero loan (the
      percentage paid divides by it) and a term giving at least one period. */
  predicate ValidLoan(frequencies: map<string, int>, loanAmount: real, loanTerm: real, frequency: string) {
    ValidTable(frequencies) && loanAmount != 0.0 &&
    NumberOfPayments(loanTerm, PaymentsPerYear(frequencies, frequency)) >= 1
  }

  /** The standard schedule: every one of the `Int(loanTerm * ppy)` periods, at the
      periodic payment, with no stop at a zero balance. */
  function StandardSchedule(
    frequencies: map<string, int>, loanAmount: real, interestRate: real, loanTerm: real,
    frequency: string, periodicPayment: real): seq<PaymentPeriod>
    requires ValidLoan(frequencies, loanAmount, loanTerm, frequency)
  {
    var t := ScheduleTerms(frequencies, loanAmount, interestRate, frequency, periodicPayment);
    Run(t, false, Start(t), 1, NumberOfPayments(loanTerm, t.paymentsPerYear))
  }

  /** The fixed-payment schedule: at `max(fixedPayment, minimum)` per period, stopping
      at a zero balance, with at most `Int(loanTerm * ppy * 2)` periods. */
  function FixedPaymentSchedule(
    frequencies: map<string, int>, loanAmount: real, interestRate: real, loanTerm: real,
    frequency: string, periodicPayment: real, fixedPayment: real): seq<PaymentPeriod>
    requires ValidLoan(frequencies, loanAmount, loanTerm, frequency)
  {
    var t := ScheduleTerms(frequencies, loanAmount, interestRate, frequency, Max(fixedPayment, periodicPayment));
    CapCoversTerm(loanTerm, t.paymentsPerYear);
    Run(t, true, Start(t), 1, MaxPayments(loanTerm, t.paymentsPerYear))
  }

  /** The cap is at least the standard number of periods (and so at least 1 when
      the term gives one period). */
  lemma CapCoversTerm(loanTerm: real, paymentsPerYear: int)
    requires NumberOfPayments(loanTerm, paymentsPerYear) >= 1
    ensures MaxPayments(loanTerm, paymentsPerYear) >= NumberOfPayments(loanTerm, paymentsPerYear) + 1
  {
  }

  /** `generateSchedule`: the loop over `1...numberOfPayments`, carrying the balance,
      the interest totals and the year number, and breaking after a period whose
      balance is 0 when `stopAtZeroBalance` is set. */
  method GenerateSchedule(
    loanAmount: real, periodicRate: real, payment: real, numberOfPayments: int,
    paymentsPerYear: int, stopAtZeroBalance: bool) returns (schedule: seq<PaymentPeriod>)
    requires loanAmount != 0.0 && paymentsPerYear >= 1 && numberOfPayments >= 1
    ensures var t := Terms(loanAmount, periodicRate, payment, paymentsPerYear, false);
      schedule == Run(t, stopAtZeroBalance, Start(t), 1, numberOfPayments)
  {
    ghost var t := Terms(loanAmount, periodicRate, payment, paymentsPerYear, false);
    schedule := [];
    var remainingBalance := loanAmount;
    var totalInterestPaid := 0.0;
    var annualInterest := 0.0;
    var yearNumber := 1;
    var totalPrincipalPaid := 0.0;
    for periodNumber := 1 to numberOfPayments + 1
      invariant |schedule| == periodNumber - 1 && Chained(t, Start(t), 1, schedule)
      invariant Carry(remainingBalance, totalInterestPaid, annualInterest, yearNumber, totalPrincipalPaid)
        == Before(schedule, |schedule|, Start(t))
      invariant forall i :: 0 <= i < |schedule| ==> !(stopAtZeroBalance && schedule[i].remainingBalance == 0.0)
    {
      ghost var before := Carry(remainingBalance, totalInterestPaid, annualInterest, yearNumber, totalPrincipalPaid);
      var interestPayment := remainingBalance * periodicRate;
      var principalPayment := payment - interestPayment;
      if remainingBalance < principalPayment {
        principalPayment := remainingBalance;
      }
      remainingBalance := remainingBalance - principalPayment;
      totalInterestPaid := totalInterestPaid + interestPayment;
      annualInterest := annualInterest + interestPayment;
      totalPrincipalPaid := totalPrincipalPaid + principalPayment;
      var currentYear := YearIndex(periodNumber, paymentsPerYear);
      if currentYear != yearNumber {
        annualInterest := interestPayment;
        yearNumber := currentYear;
      }
      if remainingBalance < 0.0 {
        remainingBalance := 0.0;
      }
      var period := PaymentPeriod(
        periodNumber,
        principalPayment + interestPayment,
        principalPayment,
        interestPayment,
        remainingBalance,
        totalInterestPaid,
        annualInterest,
        ((loanAmount - remainingBalance) / loanAmount) * 100.0,
        currentYear,
        totalPrincipalPaid);
      LoopBodyIsNextPeriod(t, before, periodNumber, interestPayment, principalPayment, remainingBalance, annualInterest, currentYear);
      ChainedSnoc(t, Start(t), 1, schedule, period);
      schedule := schedule + [period];
      if remainingBalance == 0.0 && stopAtZeroBalance {
        ChainedIsRun(t, stopAtZeroBalance, Start(t), 1, schedule, numberOfPayments);
        break;
      }
    }
    ChainedIsRun(t, stopAtZeroBalance, Start(t), 1, schedule, numberOfPayments);
  }

  /** `generateAmortizationSchedule`: the shared loop over `Int(loanTerm * ppy)`
      periods at the periodic payment, never stopping early. */
  method GenerateAmortizationSchedule(
    frequencies: map<string, int>, loanAmount: real, interestRate: real, loanTerm: real,
    frequency: string, periodicPayment: real) returns (schedule: seq<PaymentPeriod>)
    requires ValidLoan(frequencies, loanAmount, loanTerm, frequency)
    ensures schedule == StandardSchedule(frequencies, loanAmount, interestRate, loanTerm, frequency, periodicPayment)
  {
    var paymentsPerYear := PaymentsPerYear(frequencies, frequency);
    var periodicRate := PeriodicRate(interestRate, paymentsPerYear);
    var payment := periodicPayment;
    schedule := GenerateSchedule(loanAmount, periodicRate, payment, NumberOfPayments(loanTerm, paymentsPerYear), paymentsPerYear, false);
  }

  /** `generateScheduleWithFixedPayment`: the shared loop at `max(fixedPayment,
      minPayment)`, stopping at a zero balance, over at most `Int(loanTerm * ppy * 2)`
      periods. */
  method GenerateScheduleWithFixedPayment(
    frequencies: map<string, int>, loanAmount: real, interestRate: real, loanTerm: real,
    frequency: string, periodicPayment: real, fixedPayment: real) returns (schedule: seq<PaymentPeriod>)
    requires ValidLoan(frequencies, loanAmount, loanTerm, frequency)
    ensures schedule == FixedPaymentSchedule(frequencies, loanAmount, interestRate, loanTerm, frequency, periodicPayment, fixedPayment)
  {
    var paymentsPerYear := PaymentsPerYear(frequencies, frequency);
    var periodicRate := PeriodicRate(interestRate, paymentsPerYear);
    var minPayment := periodicPayment;
    var payment := Max(fixedPayment, minPayment);
    var maxPayments := MaxPayments(loanTerm, paymentsPerYear);
    CapCoversTerm(loanTerm, paymentsPerYear);
    schedule := GenerateSchedule(loanAmount, periodicRate, payment, maxPayments, paymentsPerYear, true);
  }

  /** The standard schedule has exactly `Int(loanTerm * ppy)` periods, numbered from
      1, each paying its principal plus its interest. */
  lemma StandardScheduleLength(
    frequencies: map<string, int>, loanAmount: real, interestRate: real, loanTerm: real,
    frequency: string, periodicPayment: real)
    requires ValidLoan(frequencies, loanAmount, loanTerm, frequency)
    ensures var s := StandardSchedule(frequencies, loanAmount, interestRate, loanTerm, frequency, periodicPayment);
      |s| == NumberOfPayments(loanTerm, PaymentsPerYear(frequencies, frequency)) &&
      forall i :: 0 <= i < |s| ==> s[i].periodNumber == i + 1 && s[i].payment == s[i].principalPayment + s[i].interestPayment
  {
    var t := ScheduleTerms(frequencies, loanAmount, interestRate, frequency, periodicPayment);
    var n := NumberOfPayments(loanTerm, t.paymentsPerYear);
    RunFromStartTotals(t, false, n);
    RunPayments(t, false, Start(t), 1, n);
  }

  /** The standard schedule runs on after the balance reaches 0: under an amortizing
      payment every later period repays nothing, charges nothing and pays nothing. */
  lemma StandardScheduleTrailingZeros(
    frequencies: map<string, int>, loanAmount: real, interestRate: real, loanTerm: real,
    frequency: string, periodicPayment: real)
    requires ValidLoan(frequencies, loanAmount, loanTerm, frequency) && loanAmount > 0.0
    requires Amortizing(ScheduleTerms(frequencies, loanAmount, interestRate, frequency, periodicPayment))
    ensures var s := StandardSchedule(frequencies, loanAmount, interestRate, loanTerm, frequency, periodicPayment);
      forall i, j :: 0 <= i < j < |s| && s[i].remainingBalance == 0.0 ==>
        s[j].remainingBalance == 0.0 && s[j].principalPayment == 0.0 && s[j].interestPayment == 0.0 && s[j].payment == 0.0
  {
    var t := ScheduleTerms(frequencies, loanAmount, interestRate, frequency, periodicPayment);
    var n := NumberOfPayments(loanTerm, t.paymentsPerYear);
    var s := Run(t, false, Start(t), 1, n);
    AmortizingPaymentPositive(t);
    RunPayments(t, false, Start(t), 1, n);
    RunZeroBalanceStaysZero(t, false, Start(t), 1, n, s);
    forall i, j | 0 <= i < j < |s| && s[i].remainingBalance == 0.0
      ensures s[j].remainingBalance == 0.0 && s[j].principalPayment == 0.0 && s[j].interestPayment == 0.0 && s[j].payment == 0.0
    {
      assert s[j].payment == s[j].principalPayment + s[j].interestPayment;
    }
  }

  /** The fixed-payment schedule has between 1 and `Int(loanTerm * ppy * 2)` periods,
      ends at the first period whose balance is 0 (or at the cap), and pays
      `max(fixedPayment, minPayment)` on every period but the one that clears the
      loan, which pays no more than that. */
  lemma FixedPaymentScheduleShape(
    frequencies: map<string, int>, loanAmount: real, interestRate: real, loanTerm: real,
    frequency: string, periodicPayment: real, fixedPayment: real)
    requires ValidLoan(frequencies, loanAmount, loanTerm, frequency)
    ensures var s := FixedPaymentSchedule(frequencies, loanAmount, interestRate, loanTerm, frequency, periodicPayment, fixedPayment);
      var cap := MaxPayments(loanTerm, PaymentsPerYear(frequencies, frequency));
      var payment := Max(fixedPayment, periodicPayment);
      1 <= |s| <= cap &&
      (forall i :: 0 <= i < |s| - 1 ==> s[i].remainingBalance != 0.0) &&
      (|s| < cap ==> s[|s| - 1].remainingBalance == 0.0) &&
      (forall i :: 0 <= i < |s| ==>
        periodicPayment <= payment && s[i].payment <= payment &&
        (s[i].remainingBalance != 0.0 ==> s[i].payment == payment))
  {
    var t := ScheduleTerms(frequencies, loanAmount, interestRate, frequency, Max(fixedPayment, periodicPayment));
    var cap := MaxPayments(loanTerm, t.paymentsPerYear);
    CapCoversTerm(loanTerm, t.paymentsPerYear);
    RunStopsAtFirstZero(t, Start(t), 1, cap);
    RunPayments(t, true, Start(t), 1, cap);
  }

  /** A scenario at an increased payment: the fixed-payment schedule at that payment
      (never below the minimum), summarised against the base schedule's interest;
      none when that schedule is empty. Both the additional-payment scenario and each
      comparison scenario are one of these. */
  function IncreasedScenario(
    frequencies: map<string, int>, loanAmount: real, interestRate: real, loanTerm: real,
    frequency: string, basePayment: real, baseTotalInterest: real,
    increasePercentage: real, increasedPayment: real): Option<ComparisonScenario>
    requires ValidLoan(frequencies, loanAmount, loanTerm, frequency)
  {
    var increased := FixedPaymentSchedule(frequencies, loanAmount, interestRate, loanTerm, frequency, basePayment, increasedPayment);
    if increased == [] then None
    else Some(ScenarioFrom(increasePercentage, increasedPayment, loanAmount, loanTerm, baseTotalInterest, increased, PaymentsPerYear(frequencies, frequency)))
  }

  /** On a valid loan the increased schedule is never empty, so the scenario always
      exists; its years are the schedule's period count over the payments per year,
      its time saved is the term less those years, its interest saved is the base
      interest less the schedule's final cumulative interest, and its total saved
      equals its interest saved. */
  lemma IncreasedScenarioShape(
    frequencies: map<string, int>, loanAmount: real, interestRate: real, loanTerm: real,
    frequency: string, basePayment: real, baseTotalInterest: real,
    increasePercentage: real, increasedPayment: real)
    requires ValidLoan(frequencies, loanAmount, loanTerm, frequency)
    ensures var r := IncreasedScenario(frequencies, loanAmount, interestRate, loanTerm, frequency, basePayment, baseTotalInterest, increasePercentage, increasedPayment);
      var increased := FixedPaymentSchedule(frequencies, loanAmount, interestRate, loanTerm, frequency, basePayment, increasedPayment);
      r.Some? &&
      r.value.increasePercentage == increasePercentage &&
      r.value.newPayment == increasedPayment &&
      r.value.yearsToPay * PaymentsPerYear(frequencies, frequency) as real == |increased| as real &&
      r.value.timeSaved == loanTerm - r.value.yearsToPay &&
      r.value.interestSavings == baseTotalInterest - TotalInterestOf(increased) &&
      r.value.totalPaid == loanAmount + TotalInterestOf(increased) &&
      r.value.totalSaved == r.value.interestSavings
  {
    FixedPaymentScheduleNonEmpty(frequencies, loanAmount, interestRate, loanTerm, frequency, basePayment, increasedPayment);
  }

  /** `calculateAdditionalPaymentScenario`: the scenario at base + additional, whose
      percentage is the additional payment relative to the base. */
  function AdditionalPaymentScenario(
    frequencies: map<string, int>, loanAmount: real, interestRate: real, loanTerm: real,
    frequency: string, basePayment: real, additionalPayment: real, baseTotalInterest: real): Option<ComparisonScenario>
    requires ValidLoan(frequencies, loanAmount, loanTerm, frequency) && basePayment != 0.0
  {
    IncreasedScenario(frequencies, loanAmount, interestRate, loanTerm, frequency, basePayment, baseTotalInterest,
      PercentOf(additionalPayment, basePayment), basePayment + additionalPayment)
  }

  method CalculateAdditionalPaymentScenario(
    frequencies: map<string, int>, loanAmount: real, interestRate: real, loanTerm: real,
    frequency: string, basePayment: real, additionalPayment: real, baseTotalInterest: real) returns (r: Option<ComparisonScenario>)
    requires ValidLoan(frequencies, loanAmount, loanTerm, frequency) && basePayment != 0.0
    ensures r == AdditionalPaymentScenario(frequencies, loanAmount, interestRate, loanTerm, frequency, basePayment, additionalPayment, baseTotalInterest)
  {
    var increasedPayment := basePayment + additionalPayment;
    var increasedSchedule := GenerateScheduleWithFixedPayment(frequencies, loanAmount, interestRate, loanTerm, frequency, basePayment, increasedPayment);
    if |increasedSchedule| > 0 {
      var paymentsPerYear := PaymentsPerYear(frequencies, frequency);
      return Some(ScenarioFrom(
        PercentOf(additionalPayment, basePayment), increasedPayment, loanAmount, loanTerm,
        baseTotalInterest, increasedSchedule, paymentsPerYear));
    }
    return None;
  }

  /** The additional-payment scenario always exists on a valid loan, and its
      percentage times the base payment is 100 times the additional payment. */
  lemma AdditionalPaymentScenarioShape(
    frequencies: map<string, int>, loanAmount: real, interestRate: real, loanTerm: real,
    frequency: string, basePayment: real, additionalPayment: real, baseTotalInterest: real)
    requires ValidLoan(frequencies, loanAmount, loanTerm, frequency) && basePayment != 0.0
    ensures var r := AdditionalPaymentScenario(frequencies, loanAmount, interestRate, loanTerm, frequency, basePayment, additionalPayment, baseTotalInterest);
      r.Some? &&
      r.value.increasePercentage * basePayment == additionalPayment * 100.0 &&
      r.value.newPayment == basePayment + additionalPayment
  {
    var percentage := PercentOf(additionalPayment, basePayment);
    FixedPaymentScheduleNonEmpty(frequencies, loanAmount, interestRate, loanTerm, frequency, basePayment,
      basePayment + additionalPayment);
    var increased := FixedPaymentSchedule(frequencies, loanAmount, interestRate, loanTerm, frequency, basePayment,
      basePayment + additionalPayment);
    assert AdditionalPaymentScenario(frequencies, loanAmount, interestRate, loanTerm, frequency, basePayment, additionalPayment, baseTotalInterest)
      == Some(ScenarioFrom(percentage, basePayment + additionalPayment, loanAmount, loanTerm, baseTotalInterest, increased,
        PaymentsPerYear(frequencies, frequency)));
  }

  /** A fixed-payment schedule of a valid loan has at least one period. */
  lemma FixedPaymentScheduleNonEmpty(
    frequencies: map<string, int>, loanAmount: real, interestRate: real, loanTerm: real,
    frequency: string, periodicPayment: real, fixedPayment: real)
    requires ValidLoan(frequencies, loanAmount, loanTerm, frequency)
    ensures |FixedPaymentSchedule(frequencies, loanAmount, interestRate, loanTerm, frequency, periodicPayment, fixedPayment)| >= 1
  {
    var t := ScheduleTerms(frequencies, loanAmount, interestRate, frequency, Max(fixedPayment, periodicPayment));
    var cap := MaxPayments(loanTerm, t.paymentsPerYear);
    CapCoversTerm(loanTerm, t.paymentsPerYear);
    RunStopsAtFirstZero(t, Start(t), 1, cap);
  }

  /** The comparison scenarios for the given increases: one per increase whose
      scenario exists, in the order of the increases. */
  function ComparisonsFor(
    frequencies: map<string, int>, loanAmount: real, interestRate: real, loanTerm: real,
    frequency: string, basePayment: real, baseTotalInterest: real, increases: seq<real>): seq<ComparisonScenario>
    requires ValidLoan(frequencies, loanAmount, loanTerm, frequency)
  {
    if increases == [] then [] else
    var earlier := ComparisonsFor(frequencies, loanAmount, interestRate, loanTerm, frequency, basePayment, baseTotalInterest, increases[..|increases| - 1]);
    var increase := increases[|increases| - 1];
    match IncreasedScenario(frequencies, loanAmount, interestRate, loanTerm, frequency, basePayment, baseTotalInterest,
      increase, IncreasedPayment(basePayment, increase))
    case None => earlier
    case Some(scenario) => earlier + [scenario]
  }

  /** `calculateComparisonScenarios`: the loop over 10%, 25% and 50%. */
  method CalculateComparisonScenarios(
    frequencies: map<string, int>, loanAmount: real, interestRate: real, loanTerm: real,
    frequency: string, basePayment: real, baseTotalInterest: real) returns (scenarios: seq<ComparisonScenario>)
    requires ValidLoan(frequencies, loanAmount, loanTerm, frequency)
    ensures scenarios == ComparisonsFor(frequencies, loanAmount, interestRate, loanTerm, frequency, basePayment, baseTotalInterest, Increases)
  {
    var increases := Increases;
    scenarios := [];
    for k := 0 to |increases|
      invariant scenarios == ComparisonsFor(frequencies, loanAmount, interestRate, loanTerm, frequency, basePayment, baseTotalInterest, increases[..k])
    {
      var increase := increases[k];
      var increasedPayment := IncreasedPayment(basePayment, increase);
      var increasedSchedule := GenerateScheduleWithFixedPayment(frequencies, loanAmount, interestRate, loanTerm, frequency, basePayment, increasedPayment);
      assert increases[..k + 1][..k] == increases[..k];
      if |increasedSchedule| > 0 {
        var paymentsPerYear := PaymentsPerYear(frequencies, frequency);
        var scenario := ScenarioFrom(increase, increasedPayment, loanAmount, loanTerm, baseTotalInterest, increasedSchedule, paymentsPerYear);
        scenarios := scenarios + [scenario];
      }
    }
    assert increases[..|increases|] == increases;
  }

  /** On a valid loan every increase yields a scenario: the k-th scenario is the k-th
      increase, paying `basePayment * (1 + increase / 100)`, and saves in total exactly
      the interest it saves. */
  lemma {:induction false} ComparisonsForAll(
    frequencies: map<string, int>, loanAmount: real, interestRate: real, loanTerm: real,
    frequency: string, basePayment: real, baseTotalInterest: real, increases: seq<real>)
    requires ValidLoan(frequencies, loanAmount, loanTerm, frequency)
    ensures var r := ComparisonsFor(frequencies, loanAmount, interestRate, loanTerm, frequency, basePayment, baseTotalInterest, increases);
      |r| == |increases| &&
      forall k :: 0 <= k < |r| ==>
        r[k].increasePercentage == increases[k] &&
        r[k].newPayment == IncreasedPayment(basePayment, increases[k]) &&
        r[k].timeSaved == loanTerm - r[k].yearsToPay &&
        r[k].totalSaved == r[k].interestSavings
  {
    if increases != [] {
      var front := increases[..|increases| - 1];
      var increase := increases[|increases| - 1];
      var r := ComparisonsFor(frequencies, loanAmount, interestRate, loanTerm, frequency, basePayment, baseTotalInterest, increases);
      var earlier := ComparisonsFor(frequencies, loanAmount, interestRate, loanTerm, frequency, basePayment, baseTotalInterest, front);
      ComparisonsForAll(frequencies, loanAmount, interestRate, loanTerm, frequency, basePayment, baseTotalInterest, front);
      IncreasedScenarioShape(frequencies, loanAmount, interestRate, loanTerm, frequency, basePayment, baseTotalInterest,
        increase, IncreasedPayment(basePayment, increase));
      var c := IncreasedScenario(frequencies, loanAmount, interestRate, loanTerm, frequency, basePayment, baseTotalInterest,
        increase, IncreasedPayment(basePayment, increase)).value;
      assert r == earlier + [c];
      forall k | 0 <= k < |r|
        ensures r[k].increasePercentage == increases[k] &&
          r[k].newPayment == IncreasedPayment(basePayment, increases[k]) &&
          r[k].timeSaved == loanTerm - r[k].yearsToPay &&
          r[k].totalSaved == r[k].interestSavings
      {
        if k < |earlier| {
          assert r[k] == earlier[k] && increases[k] == front[k];
        }
      }
    }
  }

  /** `calculateMortgage`: the standard schedule, its total interest and cost, the
      additional-payment scenario only for a positive additional payment, and the
      comparison scenarios. */
  method CalculateMortgage(
    frequencies: map<string, int>, loanAmount: real, interestRate: real, loanTerm: real,
    frequency: string, additionalPayment: real, periodicPayment: real) returns (r: CalculationResult)
    requires ValidLoan(frequencies, loanAmount, loanTerm, frequency)
    requires additionalPayment > 0.0 ==> periodicPayment != 0.0
    ensures r.periodicPayment == periodicPayment
    ensures r.amortizationSchedule == StandardSchedule(frequencies, loanAmount, interestRate, loanTerm, frequency, periodicPayment)
    ensures r.totalInterest == TotalInterestOf(r.amortizationSchedule)
    ensures r.totalCost == loanAmount + r.totalInterest
    ensures r.additionalPaymentScenario ==
      if additionalPayment > 0.0
      then AdditionalPaymentScenario(frequencies, loanAmount, interestRate, loanTerm, frequency, periodicPayment, additionalPayment, r.totalInterest)
      else None
    ensures r.comparisonScenarios == ComparisonsFor(frequencies, loanAmount, interestRate, loanTerm, frequency, periodicPayment, r.totalInterest, Increases)
  {
    var basePayment := periodicPayment;
    var schedule := GenerateAmortizationSchedule(frequencies, loanAmount, interestRate, loanTerm, frequency, periodicPayment);
    var totalInterest := if |schedule| > 0 then schedule[|schedule| - 1].totalInterestPaid else 0.0;
    var additionalPaymentResult: Option<ComparisonScenario> := None;
    if additionalPayment > 0.0 {
      additionalPaymentResult := CalculateAdditionalPaymentScenario(
        frequencies, loanAmount, interestRate, loanTerm, frequency, basePayment, additionalPayment, totalInterest);
    }
    var scenarios := CalculateComparisonScenarios(frequencies, loanAmount, interestRate, loanTerm, frequency, basePayment, totalInterest);
    r := CalculationResult(basePayment, totalInterest, loanAmount + totalInterest, schedule, scenarios, additionalPaymentResult);
  }

  /** The total interest of the standard schedule is the sum of its periods'
      interest. */
  lemma StandardTotalInterest(
    frequencies: map<string, int>, loanAmount: real, interestRate: real, loanTerm: real,
    frequency: string, periodicPayment: real)
    requires ValidLoan(frequencies, loanAmount, loanTerm, frequency)
    ensures var s := StandardSchedule(frequencies, loanAmount, interestRate, loanTerm, frequency, periodicPayment);
      TotalInterestOf(s) == SumInterest(s)
  {
    var t := ScheduleTerms(frequencies, loanAmount, interestRate, frequency, periodicPayment);
    var s := Run(t, false, Start(t), 1, NumberOfPayments(loanTerm, t.paymentsPerYear));
    StandardScheduleLength(frequencies, loanAmount, interestRate, loanTerm, frequency, periodicPayment);
    RunFromStartTotals(t, false, NumberOfPayments(loanTerm, t.paymentsPerYear));
    assert s[..|s|] == s;
  }

  /** `generateYearlySummary`: the yearly entries of a schedule at the frequency's
      payments per year. */
  method GenerateYearlySummary(frequencies: map<string, int>, schedule: seq<PaymentPeriod>, frequency: string)
    returns (years: seq<YearlySummary>)
    requires ValidTable(frequencies) && |schedule| >= 1
    ensures var ppy := PaymentsPerYear(frequencies, frequency);
      years == YearEntries(schedule, ppy, (|schedule| + ppy - 1) / ppy)
  {
    var frequencyPerYear := PaymentsPerYear(frequencies, frequency);
    years := YearlySummaries(schedule, frequencyPerYear);
  }
}
