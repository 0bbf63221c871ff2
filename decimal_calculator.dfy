/** The Decimal copy of the engine in the top-level MortgageCalculator.swift: its
    own frequency table, a standard schedule that stops at a zero balance and
    records the full payment, a `while` loop for the fixed-payment schedule whose
    cap check lets one period past the cap, the comparison loop, the
    `calculationResult` property over the parsed text fields, and the yearly
    summary of the schedule view. The closed-form payment is an input
    (`periodicPayment`, `minPayment`, `basePayment`), and text parsing is one too:
    a parsed field is `Some(value)`, a field that does not parse is `None`. */
module DecimalCalculator {
  import opened Common
  import opened Amortization

  /** `PAYMENT_FREQUENCIES`. */
  const PaymentFrequencies: map<string, int> := map["Weekly" := 52, "Fortnightly" := 26, "Monthly" := 12]

  /** `PAYMENT_FREQUENCIES[frequency] ?? 12`. */
  function PaymentsPerYear(frequency: string): (ppy: int)
    ensures frequency == "Weekly" ==> ppy == 52
    ensures frequency == "Fortnightly" ==> ppy == 26
    ensures frequency == "Monthly" ==> ppy == 12
    ensures frequency != "Weekly" && frequency != "Fortnightly" ==> ppy == 12
  {
    if frequency in PaymentFrequencies then PaymentFrequencies[frequency] else 12
  }

  /** The periodic rate: the annual percentage over the periods of a year. */
  function PeriodicRate(interestRate: real, frequency: string): real {
    (interestRate / 100.0) / PaymentsPerYear(frequency) as real
  }

  /** `Int(loanTerm * paymentsPerYear)`. */
  function NumberOfPayments(loanTerm: real, frequency: string): int {
    Trunc(loanTerm * PaymentsPerYear(frequency) as real)
  }

  /** `Int(loanTerm * paymentsPerYear * 2)`, the safety cap of the fixed-payment loop. */
  function SafetyCap(loanTerm: real, frequency: string): int {
    Trunc(loanTerm * PaymentsPerYear(frequency) as real * 2.0)
  }

  /** The standard schedule records the full periodic payment in every period; the
      fixed-payment schedule records principal + interest. */
  function DecimalTerms(loanAmount: real, interestRate: real, frequency: string, payment: real, recordFullPayment: bool): Terms {
    Terms(loanAmount, PeriodicRate(interestRate, frequency), payment, PaymentsPerYear(frequency), recordFullPayment)
  }

  /** The standard schedule: at most `Int(loanTerm * ppy)` periods at the periodic
      payment, ending right after the first period whose balance is 0. */
  function StandardSchedule(loanAmount: real, interestRate: real, loanTerm: real, frequency: string, periodicPayment: real): seq<PaymentPeriod>
    requires loanAmount != 0.0 && NumberOfPayments(loanTerm, frequency) >= 1
  {
    var t := DecimalTerms(loanAmount, interestRate, frequency, periodicPayment, true);
    Run(t, true, Start(t), 1, NumberOfPayments(loanTerm, frequency))
  }

  /** The number of periods the fixed-payment loop can run: it breaks after the
      period whose number first exceeds the cap, so one more than the cap (and at
      least one). */
  function FixedPaymentLimit(loanTerm: real, frequency: string): (limit: nat)
    ensures limit >= 1 && limit >= SafetyCap(loanTerm, frequency) + 1
    ensures limit == 1 || limit == SafetyCap(loanTerm, frequency) + 1
  {
    if SafetyCap(loanTerm, frequency) >= 0 then SafetyCap(loanTerm, frequency) + 1 else 1
  }

  /** The fixed-payment schedule: nothing for a loan that is not positive (the
      `while remainingBalance > 0` loop never starts); otherwise periods at
      `max(fixedPayment, minPayment)` up to the first zero balance, or up to one
      past the cap. */
  function FixedPaymentSchedule(loanAmount: real, interestRate: real, loanTerm: real, frequency: string, minPayment: real, fixedPayment: real): seq<PaymentPeriod>
  {
    if loanAmount <= 0.0 then [] else
    var t := DecimalTerms(loanAmount, interestRate, frequency, Max(fixedPayment, minPayment), false);
    Run(t, true, Start(t), 1, FixedPaymentLimit(loanTerm, frequency))
  }

  /** `generateAmortizationSchedule`: the `for periodNumber in 1...numberOfPayments`
      loop, breaking after the period that leaves a zero balance. */
  method GenerateAmortizationSchedule(loanAmount: real, interestRate: real, loanTerm: real, frequency: string, periodicPayment: real)
    returns (schedule: seq<PaymentPeriod>)
    requires loanAmount != 0.0 && NumberOfPayments(loanTerm, frequency) >= 1
    ensures schedule == StandardSchedule(loanAmount, interestRate, loanTerm, frequency, periodicPayment)
  {
    var paymentsPerYear := PaymentsPerYear(frequency);
    var periodicRate := PeriodicRate(interestRate, frequency);
    var payment := periodicPayment;
    ghost var t := Terms(loanAmount, periodicRate, payment, paymentsPerYear, true);
    schedule := [];
    var remainingBalance := loanAmount;
    var totalInterestPaid := 0.0;
    var annualInterest := 0.0;
    var yearNumber := 1;
    var totalPrincipalPaid := 0.0;
    var numberOfPayments := NumberOfPayments(loanTerm, frequency);
    assert t == DecimalTerms(loanAmount, interestRate, frequency, periodicPayment, true);
    for periodNumber := 1 to numberOfPayments + 1
      invariant |schedule| == periodNumber - 1 && Chained(t, Start(t), 1, schedule)
      invariant Carry(remainingBalance, totalInterestPaid, annualInterest, yearNumber, totalPrincipalPaid)
        == Before(schedule, |schedule|, Start(t))
      invariant forall i :: 0 <= i < |schedule| ==> schedule[i].remainingBalance != 0.0
    {
      ghost var before := Carry(remainingBalance, totalInterestPaid, annualInterest, yearNumber, totalPrincipalPaid);
      var interestPayment := remainingBalance * periodicRate;
      var principalPayment := payment - interestPayment;
      if remainingBalance < principalPayment {
        principalPayment := remainingBalance;
      }
      remainingBalance := remainingBalance - principalPayment;
      totalInterestPaid := totalInterestPaid + interestPayment;
      annualInterest := annualInterest + interestPayment;
      totalPrincipalPaid := totalPrincipalPaid + principalPayment;
      var currentYear := YearIndex(periodNumber, paymentsPerYear);
      if currentYear != yearNumber {
        annualInterest := interestPayment;
        yearNumber := currentYear;
      }
      if remainingBalance < 0.0 {
        remainingBalance := 0.0;
      }
      var period := PaymentPeriod(
        periodNumber,
        payment,
        principalPayment,
        interestPayment,
        remainingBalance,
        totalInterestPaid,
        annualInterest,
        PercentagePaid(loanAmount, remainingBalance),
        currentYear,
        totalPrincipalPaid);
      LoopBodyIsNextPeriod(t, before, periodNumber, interestPayment, principalPayment, remainingBalance, annualInterest, currentYear);
      ChainedSnoc(t, Start(t), 1, schedule, period);
      schedule := schedule + [period];
      if remainingBalance == 0.0 {
        ChainedIsRun(t, true, Start(t), 1, schedule, numberOfPayments);
        return;
      }
    }
    ChainedIsRun(t, true, Start(t), 1, schedule, numberOfPayments);
  }

  /** One pass of the `while` loop of `generateScheduleWithFixedPayment`: the
      period it appends, recording principal + interest as the payment. */
  method FixedPaymentPeriod(t: Terms, c: Carry, periodNumber: int) returns (period: PaymentPeriod)
    requires ValidTerms(t) && periodNumber >= 1 && !t.recordFullPayment
    ensures period == NextPeriod(t, c, periodNumber)
  {
    var interestPayment := c.balance * t.periodicRate;
    var principalPayment := t.payment - interestPayment;
    if principalPayment > c.balance {
      principalPayment := c.balance;
    }
    var remainingBalance := c.balance - principalPayment;
    var totalInterestPaid := c.totalInterest + interestPayment;
    var annualInterest := c.annualInterest + interestPayment;
    var totalPrincipalPaid := c.totalPrincipal + principalPayment;
    var currentYear := YearIndex(periodNumber, t.paymentsPerYear);
    if currentYear != c.yearNumber {
      annualInterest := interestPayment;
    }
    if remainingBalance < 0.0 {
      remainingBalance := 0.0;
    }
    period := PaymentPeriod(
      periodNumber,
      principalPayment + interestPayment,
      principalPayment,
      interestPayment,
      remainingBalance,
      totalInterestPaid,
      annualInterest,
      PercentagePaid(t.loanAmount, remainingBalance),
      currentYear,
      totalPrincipalPaid);
    LoopBodyIsNextPeriod(t, c, periodNumber, interestPayment, principalPayment, remainingBalance, annualInterest, currentYear);
  }

  /** `generateScheduleWithFixedPayment`: `while remainingBalance > 0`, breaking
      after appending a period whose number exceeds the safety cap. The loop's
      balance, totals and year are kept together as a `Carry`. */
  method GenerateScheduleWithFixedPayment(loanAmount: real, interestRate: real, loanTerm: real, frequency: string, minPayment: real, fixedPayment: real)
    returns (schedule: seq<PaymentPeriod>)
    ensures schedule == FixedPaymentSchedule(loanAmount, interestRate, loanTerm, frequency, minPayment, fixedPayment)
  {
    var t := DecimalTerms(loanAmount, interestRate, frequency, Max(fixedPayment, minPayment), false);
    ghost var limit := FixedPaymentLimit(loanTerm, frequency);
    schedule := [];
    var c := Start(t);
    var periodNumber := 1;
    while c.balance > 0.0
      invariant |schedule| == periodNumber - 1 && 1 <= periodNumber <= limit
      invariant schedule != [] ==> loanAmount > 0.0
      invariant loanAmount > 0.0 ==> Chained(t, Start(t), 1, schedule)
      invariant c == Before(schedule, |schedule|, Start(t))
      invariant schedule != [] ==> c.balance >= 0.0
      invariant forall i :: 0 <= i < |schedule| - 1 ==> schedule[i].remainingBalance != 0.0
      decreases limit - periodNumber
    {
      var period := FixedPaymentPeriod(t, c, periodNumber);
      ChainedSnoc(t, Start(t), 1, schedule, period);
      schedule := schedule + [period];
      c := CarryAfter(period);
      if periodNumber > SafetyCap(loanTerm, frequency) {
        ChainedIsRun(t, true, Start(t), 1, schedule, limit);
        return;
      }
      periodNumber := periodNumber + 1;
    }
    if loanAmount > 0.0 {
      ChainedIsRun(t, true, Start(t), 1, schedule, limit);
    }
  }

  /** The standard schedule has between 1 and `Int(loanTerm * ppy)` periods,
      numbered from 1; it ends at the first period whose balance is 0, or at the
      last period of the term; every period records the full periodic payment. */
  lemma StandardScheduleShape(loanAmount: real, interestRate: real, loanTerm: real, frequency: string, periodicPayment: real)
    requires loanAmount != 0.0 && NumberOfPayments(loanTerm, frequency) >= 1
    ensures var s := StandardSchedule(loanAmount, interestRate, loanTerm, frequency, periodicPayment);
      1 <= |s| <= NumberOfPayments(loanTerm, frequency) &&
      (forall i :: 0 <= i < |s| - 1 ==> s[i].remainingBalance != 0.0) &&
      (|s| < NumberOfPayments(loanTerm, frequency) ==> s[|s| - 1].remainingBalance == 0.0) &&
      (forall i :: 0 <= i < |s| ==> s[i].periodNumber == i + 1 && s[i].payment == periodicPayment)
  {
    var t := DecimalTerms(loanAmount, interestRate, frequency, periodicPayment, true);
    var n := NumberOfPayments(loanTerm, frequency);
    var s := Run(t, true, Start(t), 1, n);
    RunStopsAtFirstZero(t, Start(t), 1, n);
    RunFromStartTotals(t, true, n);
    RunRecordsFullPayment(t, true, Start(t), 1, n, s);
  }

  /** The fixed-payment schedule is empty exactly when the loan is not positive;
      otherwise it has at most one period more than the safety cap, ends at the
      first period whose balance is 0 unless it ran out of periods, and pays
      `max(fixedPayment, minPayment)` on every period but the one that clears the
      loan, which pays no more. */
  lemma FixedPaymentScheduleShape(loanAmount: real, interestRate: real, loanTerm: real, frequency: string, minPayment: real, fixedPayment: real)
    ensures var s := FixedPaymentSchedule(loanAmount, interestRate, loanTerm, frequency, minPayment, fixedPayment);
      var limit := FixedPaymentLimit(loanTerm, frequency);
      (s == [] <==> loanAmount <= 0.0) &&
      |s| <= limit &&
      (SafetyCap(loanTerm, frequency) >= 0 ==> |s| <= SafetyCap(loanTerm, frequency) + 1) &&
      (forall i :: 0 <= i < |s| - 1 ==> s[i].remainingBalance != 0.0) &&
      (0 < |s| < limit ==> s[|s| - 1].remainingBalance == 0.0) &&
      (forall i :: 0 <= i < |s| ==>
        s[i].payment <= Max(fixedPayment, minPayment) &&
        (s[i].remainingBalance != 0.0 ==> s[i].payment == Max(fixedPayment, minPayment)))
  {
    if loanAmount > 0.0 {
      var t := DecimalTerms(loanAmount, interestRate, frequency, Max(fixedPayment, minPayment), false);
      var limit := FixedPaymentLimit(loanTerm, frequency);
      RunStopsAtFirstZero(t, Start(t), 1, limit);
      RunPayments(t, true, Start(t), 1, limit);
    }
  }

  /** A scenario at an increased payment against the standard schedule's interest:
      the Decimal fixed-payment schedule at that payment, summarised; none when
      that schedule is empty. */
  function IncreasedScenario(
    loanAmount: real, interestRate: real, loanTerm: real, frequency: string,
    basePayment: real, baseTotalInterest: real, increasePercentage: real, increasedPayment: real): Option<ComparisonScenario>
  {
    var increased := FixedPaymentSchedule(loanAmount, interestRate, loanTerm, frequency, basePayment, increasedPayment);
    if increased == [] then None
    else Some(ScenarioFrom(increasePercentage, increasedPayment, loanAmount, loanTerm, baseTotalInterest, increased, PaymentsPerYear(frequency)))
  }

  /** The scenario exists exactly when the loan is positive; its time saved is the
      term less the years the increased schedule takes, and its total saved is its
      interest saved. */
  lemma IncreasedScenarioShape(
    loanAmount: real, interestRate: real, loanTerm: real, frequency: string,
    basePayment: real, baseTotalInterest: real, increasePercentage: real, increasedPayment: real)
    ensures var r := IncreasedScenario(loanAmount, interestRate, loanTerm, frequency, basePayment, baseTotalInterest, increasePercentage, increasedPayment);
      var increased := FixedPaymentSchedule(loanAmount, interestRate, loanTerm, frequency, basePayment, increasedPayment);
      (r.Some? <==> loanAmount > 0.0) &&
      (r.Some? ==>
        r.value.increasePercentage == increasePercentage &&
        r.value.newPayment == increasedPayment &&
        r.value.yearsToPay * PaymentsPerYear(frequency) as real == |increased| as real &&
        r.value.timeSaved == loanTerm - r.value.yearsToPay &&
        r.value.interestSavings == baseTotalInterest - TotalInterestOf(increased) &&
        r.value.totalPaid == loanAmount + TotalInterestOf(increased) &&
        r.value.totalSaved == r.value.interestSavings)
  {
    var increased := FixedPaymentSchedule(loanAmount, interestRate, loanTerm, frequency, basePayment, increasedPayment);
    if loanAmount > 0.0 {
      assert |increased| > 0;
    }
  }

  /** The comparison scenarios for the given increases, in their order, skipping an
      increase whose schedule is empty. */
  function ComparisonsFor(
    loanAmount: real, interestRate: real, loanTerm: real, frequency: string,
    basePayment: real, baseTotalInterest: real, increases: seq<real>): seq<ComparisonScenario>
  {
    if increases == [] then [] else
    var earlier := ComparisonsFor(loanAmount, interestRate, loanTerm, frequency, basePayment, baseTotalInterest, increases[..|increases| - 1]);
    var increase := increases[|increases| - 1];
    match IncreasedScenario(loanAmount, interestRate, loanTerm, frequency, basePayment, baseTotalInterest,
      increase, IncreasedPayment(basePayment, increase))
    case None => earlier
    case Some(scenario) => earlier + [scenario]
  }

  /** `calculateComparisonScenarios`: the loop over 10%, 25% and 50%. */
  method CalculateComparisonScenarios(
    loanAmount: real, interestRate: real, loanTerm: real, frequency: string,
    basePayment: real, baseTotalInterest: real) returns (scenarios: seq<ComparisonScenario>)
    ensures scenarios == ComparisonsFor(loanAmount, interestRate, loanTerm, frequency, basePayment, baseTotalInterest, Increases)
  {
    var increases := Increases;
    scenarios := [];
    for k := 0 to |increases|
      invariant scenarios == ComparisonsFor(loanAmount, interestRate, loanTerm, frequency, basePayment, baseTotalInterest, increases[..k])
    {
      var increase := increases[k];
      var increasedPayment := IncreasedPayment(basePayment, increase);
      var increasedSchedule := GenerateScheduleWithFixedPayment(loanAmount, interestRate, loanTerm, frequency, basePayment, increasedPayment);
      assert increases[..k + 1][..k] == increases[..k];
      if |increasedSchedule| > 0 {
        var scenario := ScenarioFrom(increase, increasedPayment, loanAmount, loanTerm, baseTotalInterest, increasedSchedule, PaymentsPerYear(frequency));
        scenarios := scenarios + [scenario];
      }
    }
    assert increases[..|increases|] == increases;
  }

  /** A positive loan yields one scenario per increase, in order, each at
      `basePayment * (1 + increase / 100)`; any other loan yields none. */
  lemma {:induction false} ComparisonsForAll(
    loanAmount: real, interestRate: real, loanTerm: real, frequency: string,
    basePayment: real, baseTotalInterest: real, increases: seq<real>)
    ensures var r := ComparisonsFor(loanAmount, interestRate, loanTerm, frequency, basePayment, baseTotalInterest, increases);
      (loanAmount <= 0.0 ==> r == []) &&
      (loanAmount > 0.0 ==> |r| == |increases|) &&
      (forall k :: 0 <= k < |r| ==>
        r[k].increasePercentage == increases[k] &&
        r[k].newPayment == IncreasedPayment(basePayment, increases[k]) &&
        r[k].totalSaved == r[k].interestSavings)
  {
    if increases != [] {
      var front := increases[..|increases| - 1];
      var increase := increases[|increases| - 1];
      var r := ComparisonsFor(loanAmount, interestRate, loanTerm, frequency, basePayment, baseTotalInterest, increases);
      var earlier := ComparisonsFor(loanAmount, interestRate, loanTerm, frequency, basePayment, baseTotalInterest, front);
      ComparisonsForAll(loanAmount, interestRate, loanTerm, frequency, basePayment, baseTotalInterest, front);
      IncreasedScenarioShape(loanAmount, interestRate, loanTerm, frequency, basePayment, baseTotalInterest,
        increase, IncreasedPayment(basePayment, increase));
      if loanAmount > 0.0 {
        var c := IncreasedScenario(loanAmount, interestRate, loanTerm, frequency, basePayment, baseTotalInterest,
          increase, IncreasedPayment(basePayment, increase)).value;
        assert r == earlier + [c];
        forall k | 0 <= k < |r|
          ensures r[k].increasePercentage == increases[k] &&
            r[k].newPayment == IncreasedPayment(basePayment, increases[k]) &&
            r[k].totalSaved == r[k].interestSavings
        {
          if k < |earlier| {
            assert r[k] == earlier[k] && increases[k] == front[k];
          }
        }
      }
    }
  }

  /** The additional-payment scenario built inside `calculationResult`: the fixed
      schedule at base + additional, whose percentage is the additional payment
      relative to the base. */
  function AdditionalPaymentScenario(
    loanAmount: real, interestRate: real, loanTerm: real, frequency: string,
    basePayment: real, additionalPayment: real, baseTotalInterest: real): Option<ComparisonScenario>
    requires basePayment != 0.0
  {
    IncreasedScenario(loanAmount, interestRate, loanTerm, frequency, basePayment, baseTotalInterest,
      PercentOf(additionalPayment, basePayment), basePayment + additionalPayment)
  }

  /** The additional-payment scenario exists exactly when the loan is positive; it
      pays base + additional, its percentage times the base is 100 times the
      additional payment, and its total saved is its interest saved. */
  lemma AdditionalPaymentScenarioShape(
    loanAmount: real, interestRate: real, loanTerm: real, frequency: string,
    basePayment: real, additionalPayment: real, baseTotalInterest: real)
    requires basePayment != 0.0
    ensures var r := AdditionalPaymentScenario(loanAmount, interestRate, loanTerm, frequency, basePayment, additionalPayment, baseTotalInterest);
      (r.Some? <==> loanAmount > 0.0) &&
      (r.Some? ==>
        r.value.increasePercentage * basePayment == additionalPayment * 100.0 &&
        r.value.newPayment == basePayment + additionalPayment &&
        r.value.timeSaved == loanTerm - r.value.yearsToPay &&
        r.value.totalSaved == r.value.interestSavings)
  {
    var percentage := PercentOf(additionalPayment, basePayment);
    var increased := FixedPaymentSchedule(loanAmount, interestRate, loanTerm, frequency, basePayment, basePayment + additionalPayment);
    if loanAmount > 0.0 {
      assert |increased| > 0;
      var r := AdditionalPaymentScenario(loanAmount, interestRate, loanTerm, frequency, basePayment, additionalPayment, baseTotalInterest);
      assert r.Some? && r.value.increasePercentage == percentage;
    }
  }

  /** What `calculationResult` needs of its parsed inputs for its arithmetic to be
      defined once all three of them parse: a non-zero loan, at least one period in
      the term, and a non-zero base payment whenever the additional payment is
      divided by it. */
  predicate Computable(
    loanAmount: Option<real>, interestRate: Option<real>, loanTerm: Option<real>, frequency: string,
    additionalPayment: Option<real>, basePayment: real)
  {
    loanAmount.Some? && interestRate.Some? && loanTerm.Some? ==>
      loanAmount.value != 0.0 && NumberOfPayments(loanTerm.value, frequency) >= 1 &&
      (additionalPayment.Some? && additionalPayment.value > 0.0 ==> basePayment != 0.0)
  }

  /** `calculationResult`: nothing unless the loan amount, interest rate and term
      all parse; otherwise the standard schedule and its totals, the comparison
      scenarios, and the additional-payment scenario, present exactly when the
      additional payment parses, is positive and the loan is positive. The parsed
      values are `Decimal(string:)` results and `basePayment` is the closed-form
      periodic payment for them. */
  method CalculateResult(
    loanAmount: Option<real>, interestRate: Option<real>, loanTerm: Option<real>, frequency: string,
    additionalPayment: Option<real>, basePayment: real) returns (r: Option<CalculationResult>)
    requires Computable(loanAmount, interestRate, loanTerm, frequency, additionalPayment, basePayment)
    ensures r.None? <==> loanAmount.None? || interestRate.None? || loanTerm.None?
    ensures r.Some? ==>
      var loan := loanAmount.value;
      var schedule := StandardSchedule(loan, interestRate.value, loanTerm.value, frequency, basePayment);
      r.value.periodicPayment == basePayment &&
      r.value.amortizationSchedule == schedule &&
      r.value.totalInterest == TotalInterestOf(schedule) &&
      r.value.totalCost == loan + r.value.totalInterest &&
      r.value.comparisonScenarios ==
        ComparisonsFor(loan, interestRate.value, loanTerm.value, frequency, basePayment, r.value.totalInterest, Increases) &&
      r.value.additionalPaymentScenario ==
        (if additionalPayment.Some? && additionalPayment.value > 0.0
         then AdditionalPaymentScenario(loan, interestRate.value, loanTerm.value, frequency, basePayment, additionalPayment.value, r.value.totalInterest)
         else None)
  {
    if loanAmount.None? || interestRate.None? || loanTerm.None? {
      return None;
    }
    var loanAmountValue := loanAmount.value;
    var interestRateValue := interestRate.value;
    var loanTermValue := loanTerm.value;
    var schedule := GenerateAmortizationSchedule(loanAmountValue, interestRateValue, loanTermValue, frequency, basePayment);
    var totalInterest := if |schedule| > 0 then schedule[|schedule| - 1].totalInterestPaid else 0.0;
    var additionalPaymentResult: Option<ComparisonScenario> := None;
    if additionalPayment.Some? && additionalPayment.value > 0.0 {
      var additionalPaymentValue := additionalPayment.value;
      var increasedPayment := basePayment + additionalPaymentValue;
      var increasedSchedule := GenerateScheduleWithFixedPayment(
        loanAmountValue, interestRateValue, loanTermValue, frequency, basePayment, increasedPayment);
      if |increasedSchedule| > 0 {
        additionalPaymentResult := Some(ScenarioFrom(
          PercentOf(additionalPaymentValue, basePayment), increasedPayment, loanAmountValue, loanTermValue,
          totalInterest, increasedSchedule, PaymentsPerYear(frequency)));
      }
    }
    var scenarios := CalculateComparisonScenarios(loanAmountValue, interestRateValue, loanTermValue, frequency, basePayment, totalInterest);
    r := Some(CalculationResult(basePayment, totalInterest, loanAmountValue + totalInterest, schedule, scenarios, additionalPaymentResult));
  }

  /** The yearly summary of `AmortizationScheduleView`, at the frequency's payments
      per year. */
  method YearlySummary(schedule: seq<PaymentPeriod>, frequency: string) returns (years: seq<YearlySummary>)
    requires |schedule| >= 1
    ensures var ppy := PaymentsPerYear(frequency);
      years == YearEntries(schedule, ppy, (|schedule| + ppy - 1) / ppy)
  {
    var frequencyPerYear := PaymentsPerYear(frequency);
    years := YearlySummaries(schedule, frequencyPerYear);
  }
}
