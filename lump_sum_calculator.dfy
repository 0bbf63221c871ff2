/** The lump-sum-aware copy of the engine, MortgageCalculator/Services/MortgageCalculator.swift:
    every period pays the scenario's effective payment, and the lump sums booked for
    a payment number are added to that period's principal. Lump sums are visited in
    ascending payment number through one index that only moves on an exact match.
    Payment dates are not modelled; the closed-form payment is an input through the
    scenario's `regularPayment` and `effectivePayment`. */
module LumpSumCalculator {
  import opened Common
  import opened Models
  import Amortization

  datatype PaymentDetails = PaymentDetails(
    paymentNumber: int,
    principal: real,
    interest: real,
    totalPayment: real,
    remainingBalance: real,
    principalToDatePercentage: real,
    interestToDate: real)

  /** The loop's fixed inputs: the loan, the periodic rate, the effective payment
      and the lump sums sorted by payment number. */
  datatype Plan = Plan(loanAmount: real, periodicRate: real, payment: real, lumpSums: seq<LumpSumPayment>)

  /** The loop's running state. */
  datatype State = State(balance: real, totalInterest: real, lumpSumIndex: nat)

  function PaymentNumberOf(p: LumpSumPayment): int {
    p.paymentNumber
  }

  /** `interestRate / ppy / 100`. */
  function PeriodicRate(scenario: MortgageScenario): real {
    scenario.interestRate / PaymentsPerYear(scenario.paymentFrequency) as real / 100.0
  }

  /** A period's interest on the balance. */
  function Interest(balance: real, periodicRate: real): real {
    balance * periodicRate
  }

  /** `Int(loanTermYears * ppy)`. */
  function NumberOfPayments(scenario: MortgageScenario): int {
    Trunc(scenario.loanTermYears * PaymentsPerYear(scenario.paymentFrequency) as real)
  }

  /** What `calculateAmortizationSchedule` needs: a non-zero loan (the percentage
      divides by it) and a term of at least one period (`1...n`). */
  predicate Schedulable(scenario: MortgageScenario) {
    scenario.loanAmount != 0.0 && NumberOfPayments(scenario) >= 1
  }

  function PlanOf(scenario: MortgageScenario): Plan {
    Plan(scenario.loanAmount, PeriodicRate(scenario), scenario.effectivePayment,
      SortByKey(scenario.lumpSumPayments, PaymentNumberOf))
  }

  function SumAmounts(lumpSums: seq<LumpSumPayment>): real {
    if lumpSums == [] then 0.0 else lumpSums[0].amount + SumAmounts(lumpSums[1..])
  }

  /** The inner `while`: from `index`, the lump sums booked for `paymentNumber`;
      their total and the index after them. */
  function LumpSumsAt(lumpSums: seq<LumpSumPayment>, index: nat, paymentNumber: int): (r: (real, nat))
    requires index <= |lumpSums|
    ensures index <= r.1 <= |lumpSums|
    decreases |lumpSums| - index
  {
    if index < |lumpSums| && lumpSums[index].paymentNumber == paymentNumber then
      var rest := LumpSumsAt(lumpSums, index + 1, paymentNumber);
      (lumpSums[index].amount + rest.0, rest.1)
    else
      (0.0, index)
  }

  /** The inner loop takes every lump sum booked for the payment number from the
      index on, adds up their amounts, and stops at the first one booked for
      another number; the index moves only past exact matches. */
  lemma {:induction false} LumpSumsAtTakesMatches(lumpSums: seq<LumpSumPayment>, index: nat, paymentNumber: int)
    requires index <= |lumpSums|
    ensures var r := LumpSumsAt(lumpSums, index, paymentNumber);
      (forall k :: index <= k < r.1 ==> lumpSums[k].paymentNumber == paymentNumber) &&
      (r.1 < |lumpSums| ==> lumpSums[r.1].paymentNumber != paymentNumber) &&
      r.0 == SumAmounts(lumpSums[index..r.1])
    decreases |lumpSums| - index
  {
    if index < |lumpSums| && lumpSums[index].paymentNumber == paymentNumber {
      var rest := LumpSumsAt(lumpSums, index + 1, paymentNumber);
      LumpSumsAtTakesMatches(lumpSums, index + 1, paymentNumber);
      assert lumpSums[index..rest.1] == [lumpSums[index]] + lumpSums[index + 1..rest.1];
    } else {
      assert lumpSums[index..index] == [];
    }
  }

  /** One period: interest on the balance, the effective payment's principal plus
      the period's lump sums, clamped to the balance. */
  function Step(plan: Plan, st: State, paymentNumber: int): (PaymentDetails, State)
    requires plan.loanAmount != 0.0 && st.lumpSumIndex <= |plan.lumpSums|
  {
    var lumpSum := LumpSumsAt(plan.lumpSums, st.lumpSumIndex, paymentNumber);
    var interestPayment := Interest(st.balance, plan.periodicRate);
    var principalPayment := plan.payment - interestPayment + lumpSum.0;
    var principal := if principalPayment > st.balance then st.balance else principalPayment;
    var remainingBalance := st.balance - principal;
    var totalInterestPaid := st.totalInterest + interestPayment;
    (PaymentDetails(paymentNumber, principal, interestPayment, principal + interestPayment, remainingBalance,
      Amortization.PercentagePaid(plan.loanAmount, remainingBalance), totalInterestPaid),
     State(remainingBalance, totalInterestPaid, lumpSum.1))
  }

  /** The values the loop body computes are those of `Step`. */
  lemma LoopBodyIsStep(
    plan: Plan, st: State, paymentNumber: int, lumpSum: (real, nat),
    interestPayment: real, principal: real, remainingBalance: real, totalInterestPaid: real)
    requires plan.loanAmount != 0.0 && st.lumpSumIndex <= |plan.lumpSums|
    requires lumpSum == LumpSumsAt(plan.lumpSums, st.lumpSumIndex, paymentNumber)
    requires interestPayment == Interest(st.balance, plan.periodicRate)
    requires principal ==
      if plan.payment - interestPayment + lumpSum.0 > st.balance then st.balance
      else plan.payment - interestPayment + lumpSum.0
    requires remainingBalance == st.balance - principal
    requires totalInterestPaid == st.totalInterest + interestPayment
    ensures Step(plan, st, paymentNumber) ==
      (PaymentDetails(paymentNumber, principal, interestPayment, principal + interestPayment, remainingBalance,
        Amortization.PercentagePaid(plan.loanAmount, remainingBalance), totalInterestPaid),
       State(remainingBalance, totalInterestPaid, lumpSum.1))
  {
    var r := Step(plan, st, paymentNumber);
    assert r.1 == State(remainingBalance, totalInterestPaid, lumpSum.1);
    assert r.0.principal == principal;
    assert r.0.remainingBalance == remainingBalance;
  }

  /** The periods from `paymentNumber` on, at most `left` of them, stopping after
      the first whose balance is at most 0.01. */
  function Schedule(plan: Plan, st: State, paymentNumber: int, left: nat): (s: seq<PaymentDetails>)
    requires plan.loanAmount != 0.0 && st.lumpSumIndex <= |plan.lumpSums|
    ensures |s| <= left
    decreases left
  {
    if left == 0 then [] else
    var (details, next) := Step(plan, st, paymentNumber);
    if details.remainingBalance <= 0.01 then [details]
    else [details] + Schedule(plan, next, paymentNumber + 1, left - 1)
  }

  /** One period of a schedule, and the rest after it. */
  lemma ScheduleUnfold(plan: Plan, st: State, paymentNumber: int, left: nat, details: PaymentDetails, next: State)
    requires plan.loanAmount != 0.0 && st.lumpSumIndex <= |plan.lumpSums| && left >= 1
    requires Step(plan, st, paymentNumber) == (details, next)
    ensures next.lumpSumIndex <= |plan.lumpSums|
    ensures Schedule(plan, st, paymentNumber, left) ==
      if details.remainingBalance <= 0.01 then [details]
      else [details] + Schedule(plan, next, paymentNumber + 1, left - 1)
  {
  }

  lemma Regroup(done: seq<PaymentDetails>, details: PaymentDetails, rest: seq<PaymentDetails>)
    ensures done + ([details] + rest) == (done + [details]) + rest
  {
  }

  function Start(plan: Plan): State {
    State(plan.loanAmount, 0.0, 0)
  }

  /** The schedule of a scenario. */
  function ScheduleOf(scenario: MortgageScenario): seq<PaymentDetails>
    requires Schedulable(scenario)
  {
    var plan := PlanOf(scenario);
    Schedule(plan, Start(plan), 1, NumberOfPayments(scenario))
  }

  /** The inner `while` of `calculateAmortizationSchedule`: consumes the lump sums
      booked for the payment number from the index on. */
  method ApplyLumpSums(sortedLumpSums: seq<LumpSumPayment>, index: nat, paymentNumber: int)
    returns (lumpSumAmount: real, lumpSumIndex: nat)
    requires index <= |sortedLumpSums|
    ensures (lumpSumAmount, lumpSumIndex) == LumpSumsAt(sortedLumpSums, index, paymentNumber)
  {
    lumpSumAmount := 0.0;
    lumpSumIndex := index;
    while lumpSumIndex < |sortedLumpSums| && sortedLumpSums[lumpSumIndex].paymentNumber == paymentNumber
      invariant index <= lumpSumIndex <= |sortedLumpSums|
      invariant LumpSumsAt(sortedLumpSums, index, paymentNumber) ==
        (lumpSumAmount + LumpSumsAt(sortedLumpSums, lumpSumIndex, paymentNumber).0,
         LumpSumsAt(sortedLumpSums, lumpSumIndex, paymentNumber).1)
      decreases |sortedLumpSums| - lumpSumIndex
    {
      lumpSumAmount := lumpSumAmount + sortedLumpSums[lumpSumIndex].amount;
      lumpSumIndex := lumpSumIndex + 1;
    }
  }

  /** One pass of the outer loop of `calculateAmortizationSchedule`: the period it
      appends and the balance, interest total and lump-sum index it leaves. */
  method Period(plan: Plan, st: State, paymentNumber: int) returns (payment: PaymentDetails, next: State)
    requires plan.loanAmount != 0.0 && st.lumpSumIndex <= |plan.lumpSums|
    ensures (payment, next) == Step(plan, st, paymentNumber)
  {
    var lumpSumAmount, lumpSumIndex := ApplyLumpSums(plan.lumpSums, st.lumpSumIndex, paymentNumber);
    var interestPayment := Interest(st.balance, plan.periodicRate);
    var principalPayment := plan.payment - interestPayment;
    principalPayment := principalPayment + lumpSumAmount;
    if principalPayment > st.balance {
      principalPayment := st.balance;
    }
    var remainingBalance := st.balance - principalPayment;
    var totalInterestPaid := st.totalInterest + interestPayment;
    var principalToDatePercentage := Amortization.PercentagePaid(plan.loanAmount, remainingBalance);
    payment := PaymentDetails(paymentNumber, principalPayment, interestPayment, principalPayment + interestPayment,
      remainingBalance, principalToDatePercentage, totalInterestPaid);
    next := State(remainingBalance, totalInterestPaid, lumpSumIndex);
    LoopBodyIsStep(plan, st, paymentNumber, (lumpSumAmount, lumpSumIndex), interestPayment, principalPayment,
      remainingBalance, totalInterestPaid);
  }

  /** The `for paymentNumber in 1...numberOfPayments` loop of
      `calculateAmortizationSchedule`, breaking after the period whose balance is
      at most 0.01. */
  method ScheduleLoop(plan: Plan, numberOfPayments: nat) returns (schedule: seq<PaymentDetails>)
    requires plan.loanAmount != 0.0
    ensures schedule == Schedule(plan, Start(plan), 1, numberOfPayments)
  {
    var st := Start(plan);
    ghost var whole := Schedule(plan, st, 1, numberOfPayments);
    schedule := [];
    for paymentNumber := 1 to numberOfPayments + 1
      invariant st.lumpSumIndex <= |plan.lumpSums|
      invariant whole == schedule + Schedule(plan, st, paymentNumber, numberOfPayments + 1 - paymentNumber)
    {
      var payment, next := Period(plan, st, paymentNumber);
      ScheduleUnfold(plan, st, paymentNumber, numberOfPayments + 1 - paymentNumber, payment, next);
      Regroup(schedule, payment, Schedule(plan, next, paymentNumber + 1, numberOfPayments - paymentNumber));
      schedule := schedule + [payment];
      st := next;
      if payment.remainingBalance <= 0.01 {
        break;
      }
    }
  }

  /** `calculateAmortizationSchedule`: the rate, the number of payments and the
      lump sums sorted by payment number, then the loop. */
  method CalculateAmortizationSchedule(scenario: MortgageScenario) returns (schedule: seq<PaymentDetails>)
    requires Schedulable(scenario)
    ensures schedule == ScheduleOf(scenario)
  {
    var numberOfPayments := NumberOfPayments(scenario);
    var plan := PlanOf(scenario);
    schedule := ScheduleLoop(plan, numberOfPayments);
  }

  /** The balance a period starts from: the state's for the first, the previous
      period's remaining balance after that. */
  function OpeningBalance(st: State, s: seq<PaymentDetails>, i: int): real
    requires 0 <= i < |s|
  {
    if i == 0 then st.balance else s[i - 1].remainingBalance
  }

  /** The lump-sum index a period starts from: the state's for the first, and
      after that the index the inner loop left behind for the previous period's
      payment number. */
  function IndexBefore(lumpSums: seq<LumpSumPayment>, index: nat, s: seq<PaymentDetails>, i: int): (r: nat)
    requires index <= |lumpSums| && 0 <= i <= |s|
    ensures index <= r <= |lumpSums|
  {
    if i == 0 then index else LumpSumsAt(lumpSums, IndexBefore(lumpSums, index, s, i - 1), s[i - 1].paymentNumber).1
  }

  lemma {:induction false} IndexBeforeCons(
    lumpSums: seq<LumpSumPayment>, index: nat, first: PaymentDetails, rest: seq<PaymentDetails>, i: int)
    requires index <= |lumpSums| && 0 <= i <= |rest|
    ensures IndexBefore(lumpSums, index, [first] + rest, i + 1) ==
      IndexBefore(lumpSums, LumpSumsAt(lumpSums, index, first.paymentNumber).1, rest, i)
  {
    if i > 0 {
      IndexBeforeCons(lumpSums, index, first, rest, i - 1);
      assert ([first] + rest)[i] == rest[i - 1];
    }
  }

  /** A schedule numbers its periods on from the first, has at most `left` of them
      (at least one when `left` is positive), and ends at the first period whose
      balance is at most 0.01 unless it ran out of periods. */
  lemma {:induction false} ScheduleShape(plan: Plan, st: State, paymentNumber: int, left: nat)
    requires plan.loanAmount != 0.0 && st.lumpSumIndex <= |plan.lumpSums|
    ensures var s := Schedule(plan, st, paymentNumber, left);
      (left > 0 ==> |s| > 0) &&
      (forall i :: 0 <= i < |s| ==> s[i].paymentNumber == paymentNumber + i) &&
      (forall i :: 0 <= i < |s| - 1 ==> s[i].remainingBalance > 0.01) &&
      (0 < |s| < left ==> s[|s| - 1].remainingBalance <= 0.01)
    decreases left
  {
    if left > 0 {
      var (details, next) := Step(plan, st, paymentNumber);
      ScheduleUnfold(plan, st, paymentNumber, left, details, next);
      if details.remainingBalance > 0.01 {
        ScheduleShape(plan, next, paymentNumber + 1, left - 1);
      }
    }
  }

  /** The principal of the period at `i`: the effective payment less the
      interest plus the lump sums the index reaches for its payment number,
      clamped to the opening balance. */
  function ClampedPrincipal(plan: Plan, st: State, s: seq<PaymentDetails>, i: int): real
    requires st.lumpSumIndex <= |plan.lumpSums| && 0 <= i < |s|
  {
    var lumpSum := LumpSumsAt(plan.lumpSums, IndexBefore(plan.lumpSums, st.lumpSumIndex, s, i), s[i].paymentNumber).0;
    if plan.payment - s[i].interest + lumpSum > OpeningBalance(st, s, i) then OpeningBalance(st, s, i)
    else plan.payment - s[i].interest + lumpSum
  }

  /** In every period the principal is the effective payment less the interest
      plus the lump sums booked for its payment number (those the index reaches),
      clamped to the opening balance. */
  lemma {:induction false} SchedulePrincipal(plan: Plan, st: State, paymentNumber: int, left: nat)
    requires plan.loanAmount != 0.0 && st.lumpSumIndex <= |plan.lumpSums| && st.balance >= 0.0
    ensures var s := Schedule(plan, st, paymentNumber, left);
      forall i :: 0 <= i < |s| ==> s[i].principal == ClampedPrincipal(plan, st, s, i)
    decreases left
  {
    var s := Schedule(plan, st, paymentNumber, left);
    if left > 0 {
      var (details, next) := Step(plan, st, paymentNumber);
      ScheduleUnfold(plan, st, paymentNumber, left, details, next);
      StepAmounts(plan, st, paymentNumber);
      if details.remainingBalance > 0.01 {
        var rest := Schedule(plan, next, paymentNumber + 1, left - 1);
        SchedulePrincipal(plan, next, paymentNumber + 1, left - 1);
        assert s == [details] + rest;
        forall i | 1 <= i < |s|
          ensures s[i].principal == ClampedPrincipal(plan, st, s, i)
        {
          IndexBeforeCons(plan.lumpSums, st.lumpSumIndex, details, rest, i - 1);
          assert s[i] == rest[i - 1] && OpeningBalance(st, s, i) == OpeningBalance(next, rest, i - 1);
          assert ClampedPrincipal(plan, st, s, i) == ClampedPrincipal(plan, next, rest, i - 1);
        }
      }
    }
  }

  /** In every period the principal is the effective payment less the interest
      plus the lump sums booked for its payment number, clamped to the opening
      balance (`ClampedPrincipal`); the balance drops by the principal and stays
      non-negative, and the total payment is principal plus interest. */
  lemma {:induction false} ScheduleAmounts(plan: Plan, st: State, paymentNumber: int, left: nat)
    requires plan.loanAmount != 0.0 && st.lumpSumIndex <= |plan.lumpSums| && st.balance >= 0.0
    ensures var s := Schedule(plan, st, paymentNumber, left);
      forall i :: 0 <= i < |s| ==>
        s[i].principal == ClampedPrincipal(plan, st, s, i) &&
        s[i].principal <= OpeningBalance(st, s, i) &&
        s[i].remainingBalance == OpeningBalance(st, s, i) - s[i].principal &&
        s[i].remainingBalance >= 0.0 &&
        s[i].totalPayment == s[i].principal + s[i].interest
  {
    SchedulePrincipal(plan, st, paymentNumber, left);
    ScheduleBalances(plan, st, paymentNumber, left);
  }

  lemma {:induction false} ScheduleBalances(plan: Plan, st: State, paymentNumber: int, left: nat)
    requires plan.loanAmount != 0.0 && st.lumpSumIndex <= |plan.lumpSums| && st.balance >= 0.0
    ensures var s := Schedule(plan, st, paymentNumber, left);
      forall i :: 0 <= i < |s| ==>
        s[i].principal <= OpeningBalance(st, s, i) &&
        s[i].remainingBalance == OpeningBalance(st, s, i) - s[i].principal &&
        s[i].remainingBalance >= 0.0 &&
        s[i].totalPayment == s[i].principal + s[i].interest
    decreases left
  {
    var s := Schedule(plan, st, paymentNumber, left);
    if left > 0 {
      var (details, next) := Step(plan, st, paymentNumber);
      ScheduleUnfold(plan, st, paymentNumber, left, details, next);
      StepAmounts(plan, st, paymentNumber);
      if details.remainingBalance > 0.01 {
        var rest := Schedule(plan, next, paymentNumber + 1, left - 1);
        ScheduleBalances(plan, next, paymentNumber + 1, left - 1);
        assert s == [details] + rest;
        forall i | 1 <= i < |s|
          ensures s[i] == rest[i - 1] && OpeningBalance(st, s, i) == OpeningBalance(next, rest, i - 1)
        {
        }
      }
    }
  }

  /** Every period's `interestToDate` is the opening total plus the interest of
      the periods up to and including it. */
  lemma {:induction false} ScheduleInterestToDate(plan: Plan, st: State, paymentNumber: int, left: nat)
    requires plan.loanAmount != 0.0 && st.lumpSumIndex <= |plan.lumpSums|
    ensures var s := Schedule(plan, st, paymentNumber, left);
      forall i :: 0 <= i < |s| ==> s[i].interestToDate == st.totalInterest + InterestThrough(s, i)
    decreases left
  {
    var s := Schedule(plan, st, paymentNumber, left);
    if left > 0 {
      var (details, next) := Step(plan, st, paymentNumber);
      ScheduleUnfold(plan, st, paymentNumber, left, details, next);
      assert details.interestToDate == st.totalInterest + details.interest;
      assert next.totalInterest == details.interestToDate;
      if details.remainingBalance > 0.01 {
        var rest := Schedule(plan, next, paymentNumber + 1, left - 1);
        ScheduleInterestToDate(plan, next, paymentNumber + 1, left - 1);
        assert s == [details] + rest;
        forall i | 1 <= i < |s| ensures s[i].interestToDate == st.totalInterest + InterestThrough(s, i) {
          assert s[i] == rest[i - 1];
          InterestThroughCons(details, rest, i - 1);
        }
      }
    }
  }

  /** Every period charges interest at the periodic rate on its opening balance,
      and reports as `principalToDatePercentage` the share of the loan repaid, in
      percent (`PercentagePaid`). */
  lemma {:induction false} ScheduleRates(plan: Plan, st: State, paymentNumber: int, left: nat)
    requires plan.loanAmount != 0.0 && st.lumpSumIndex <= |plan.lumpSums|
    ensures var s := Schedule(plan, st, paymentNumber, left);
      forall i :: 0 <= i < |s| ==>
        s[i].interest == Interest(OpeningBalance(st, s, i), plan.periodicRate) &&
        s[i].principalToDatePercentage == Amortization.PercentagePaid(plan.loanAmount, s[i].remainingBalance)
    decreases left
  {
    var s := Schedule(plan, st, paymentNumber, left);
    if left > 0 {
      var (details, next) := Step(plan, st, paymentNumber);
      ScheduleUnfold(plan, st, paymentNumber, left, details, next);
      if details.remainingBalance > 0.01 {
        var rest := Schedule(plan, next, paymentNumber + 1, left - 1);
        ScheduleRates(plan, next, paymentNumber + 1, left - 1);
        assert s == [details] + rest;
        forall i | 1 <= i < |s|
          ensures s[i] == rest[i - 1] && OpeningBalance(st, s, i) == OpeningBalance(next, rest, i - 1)
        {
        }
      }
    }
  }

  /** One period's amounts: the interest is charged on the opening balance, the
      principal is the payment less that interest plus the lump sums booked for
      this payment number, clamped to the opening balance, the balance drops by the
      principal, the total is principal plus interest, the interest to date grows
      by the period's interest, and the index moves past the lump sums taken. */
  lemma StepAmounts(plan: Plan, st: State, paymentNumber: int)
    requires plan.loanAmount != 0.0 && st.lumpSumIndex <= |plan.lumpSums| && st.balance >= 0.0
    ensures var (details, next) := Step(plan, st, paymentNumber);
      var lumpSum := LumpSumsAt(plan.lumpSums, st.lumpSumIndex, paymentNumber);
      details.paymentNumber == paymentNumber &&
      details.interest == Interest(st.balance, plan.periodicRate) &&
      details.principal ==
        (if plan.payment - details.interest + lumpSum.0 > st.balance then st.balance
         else plan.payment - details.interest + lumpSum.0) &&
      next.lumpSumIndex == lumpSum.1 &&
      details.principal <= st.balance && details.remainingBalance == st.balance - details.principal &&
      details.remainingBalance >= 0.0 && details.totalPayment == details.principal + details.interest &&
      details.interestToDate == st.totalInterest + details.interest &&
      next.balance == details.remainingBalance && next.totalInterest == details.interestToDate
  {
  }

  /** The interest of the periods up to and including `i`. */
  function InterestThrough(s: seq<PaymentDetails>, i: int): real
    requires 0 <= i < |s|
  {
    if i == 0 then s[0].interest else InterestThrough(s, i - 1) + s[i].interest
  }

  lemma {:induction false} InterestThroughCons(first: PaymentDetails, rest: seq<PaymentDetails>, i: int)
    requires 0 <= i < |rest|
    ensures InterestThrough([first] + rest, i + 1) == first.interest + InterestThrough(rest, i)
  {
    if i > 0 {
      InterestThroughCons(first, rest, i - 1);
    }
  }

  /** Once the index stands at a lump sum booked for an earlier payment number, it
      never moves again: no lump sum is applied from then on, and the schedule is
      the one without lump sums. */
  lemma {:induction false} BlockedLumpSums(plan: Plan, st: State, paymentNumber: int, left: nat)
    requires plan.loanAmount != 0.0 && st.lumpSumIndex < |plan.lumpSums|
    requires plan.lumpSums[st.lumpSumIndex].paymentNumber < paymentNumber
    ensures Schedule(plan, st, paymentNumber, left) ==
      Schedule(plan.(lumpSums := []), st.(lumpSumIndex := 0), paymentNumber, left)
    decreases left
  {
    if left > 0 {
      var bare := plan.(lumpSums := []);
      var (details, next) := Step(plan, st, paymentNumber);
      var (bareDetails, bareNext) := Step(bare, st.(lumpSumIndex := 0), paymentNumber);
      assert LumpSumsAt(plan.lumpSums, st.lumpSumIndex, paymentNumber) == (0.0, st.lumpSumIndex);
      assert LumpSumsAt(bare.lumpSums, 0, paymentNumber) == (0.0, 0);
      assert details == bareDetails && next.(lumpSumIndex := 0) == bareNext;
      ScheduleUnfold(plan, st, paymentNumber, left, details, next);
      ScheduleUnfold(bare, st.(lumpSumIndex := 0), paymentNumber, left, bareDetails, bareNext);
      if details.remainingBalance > 0.01 {
        BlockedLumpSums(plan, next, paymentNumber + 1, left - 1);
      }
    }
  }

  /** A lump sum booked for a payment number below 1 is never reached, and since
      the lump sums are visited in order it keeps every other one from being
      applied: the schedule is the one without lump sums. */
  lemma LumpSumBelowOneBlocksAll(scenario: MortgageScenario, k: int)
    requires Schedulable(scenario)
    requires 0 <= k < |scenario.lumpSumPayments| && scenario.lumpSumPayments[k].paymentNumber < 1
    ensures ScheduleOf(scenario) == ScheduleOf(scenario.(lumpSumPayments := []))
  {
    var plan := PlanOf(scenario);
    var sorted := plan.lumpSums;
    var lump := scenario.lumpSumPayments[k];
    assert lump in multiset(scenario.lumpSumPayments);
    assert lump in sorted;
    var j :| 0 <= j < |sorted| && sorted[j] == lump;
    SortedFirstIsLeast(sorted, j);
    BlockedLumpSums(plan, Start(plan), 1, NumberOfPayments(scenario));
    WithoutLumpSums(scenario);
  }

  lemma SortedFirstIsLeast(sorted: seq<LumpSumPayment>, j: int)
    requires SortedBy(sorted, PaymentNumberOf) && 0 <= j < |sorted|
    ensures sorted[0].paymentNumber <= sorted[j].paymentNumber
  {
    assert PaymentNumberOf(sorted[0]) <= PaymentNumberOf(sorted[j]);
  }

  /** Dropping the lump sums changes only the plan's lump sums. */
  lemma WithoutLumpSums(scenario: MortgageScenario)
    requires Schedulable(scenario)
    ensures var bare := scenario.(lumpSumPayments := []);
      Schedulable(bare) && NumberOfPayments(bare) == NumberOfPayments(scenario) &&
      PlanOf(bare) == PlanOf(scenario).(lumpSums := []) &&
      ScheduleOf(bare) ==
        Schedule(PlanOf(scenario).(lumpSums := []), Start(PlanOf(scenario)).(lumpSumIndex := 0), 1, NumberOfPayments(scenario))
  {
    assert SortByKey([], PaymentNumberOf) == [];
  }

  /** `calculateSavings` on the two schedules: the years saved, each count over its
      own frequency, and the interest saved, a schedule's interest being its last
      interest to date (0 when it is empty). */
  function Savings(baseScenario: MortgageScenario, comparisonScenario: MortgageScenario): (real, real)
    requires Schedulable(baseScenario) && Schedulable(comparisonScenario)
  {
    var baseSchedule := ScheduleOf(baseScenario);
    var comparisonSchedule := ScheduleOf(comparisonScenario);
    (|baseSchedule| as real / PaymentsPerYear(baseScenario.paymentFrequency) as real -
       |comparisonSchedule| as real / PaymentsPerYear(comparisonScenario.paymentFrequency) as real,
     TotalInterest(baseSchedule) - TotalInterest(comparisonSchedule))
  }

  /** `schedule.last?.interestToDate ?? 0`. */
  function TotalInterest(schedule: seq<PaymentDetails>): real {
    if schedule == [] then 0.0 else schedule[|schedule| - 1].interestToDate
  }

  /** Comparing a scenario with itself saves nothing, and swapping the two
      scenarios negates both savings. */
  lemma SavingsAntisymmetric(a: MortgageScenario, b: MortgageScenario)
    requires Schedulable(a) && Schedulable(b)
    ensures Savings(a, a) == (0.0, 0.0)
    ensures Savings(b, a).0 == -Savings(a, b).0 && Savings(b, a).1 == -Savings(a, b).1
  {
  }

  /** `calculateSavings`. */
  method CalculateSavings(baseScenario: MortgageScenario, comparisonScenario: MortgageScenario)
    returns (timeSaved: real, interestSaved: real)
    requires Schedulable(baseScenario) && Schedulable(comparisonScenario)
    ensures (timeSaved, interestSaved) == Savings(baseScenario, comparisonScenario)
  {
    var baseSchedule := CalculateAmortizationSchedule(baseScenario);
    var comparisonSchedule := CalculateAmortizationSchedule(comparisonScenario);
    var basePaymentCount := |baseSchedule|;
    var comparisonPaymentCount := |comparisonSchedule|;
    var baseFrequency := baseScenario.paymentFrequency;
    var comparisonFrequency := comparisonScenario.paymentFrequency;
    timeSaved := basePaymentCount as real / PaymentsPerYear(baseFrequency) as real -
      comparisonPaymentCount as real / PaymentsPerYear(comparisonFrequency) as real;
    var baseTotalInterest := if |baseSchedule| > 0 then baseSchedule[|baseSchedule| - 1].interestToDate else 0.0;
    var comparisonTotalInterest := if |comparisonSchedule| > 0 then comparisonSchedule[|comparisonSchedule| - 1].interestToDate else 0.0;
    interestSaved := baseTotalInterest - comparisonTotalInterest;
  }
}
