/** The per-period amortization step and the records it produces, shared by the
    Decimal copy (MortgageCalculator.swift) and the Double copy
    (MortgageCalculator/Models/MortgageCalculatorService.swift): both compute each
    period with the same statements, in the same order, and differ only in what
    they store in `payment` and in how the loop around the step stops. */
module Amortization {
  import opened Common

  /** One row of a schedule. `id` equals `periodNumber` in the source and is left out.
      `totalPrincipalPaid` is read by the yearly summaries but not declared by the
      source; here it is carried like `totalInterestPaid`, as the running sum of
      `principalPayment`. */
  datatype PaymentPeriod = PaymentPeriod(
    periodNumber: int,
    payment: real,
    principalPayment: real,
    interestPayment: real,
    remainingBalance: real,
    totalInterestPaid: real,
    annualInterest: real,
    percentagePaid: real,
    year: int,
    totalPrincipalPaid: real)

  datatype YearlySummary = YearlySummary(year: int, remainingBalance: real, principalPaid: real, interestPaid: real)

  datatype ComparisonScenario = ComparisonScenario(
    increasePercentage: real,
    newPayment: real,
    yearsToPay: real,
    interestSavings: real,
    timeSaved: real,
    totalPaid: real,
    totalSaved: real)

  datatype CalculationResult = CalculationResult(
    periodicPayment: real,
    totalInterest: real,
    totalCost: real,
    amortizationSchedule: seq<PaymentPeriod>,
    comparisonScenarios: seq<ComparisonScenario>,
    additionalPaymentScenario: Option<ComparisonScenario>)

  /** What a schedule loop runs with. `recordFullPayment` says whether a period's
      `payment` is the full periodic payment (the standard Decimal schedule) or
      principal + interest (every other schedule). */
  datatype Terms = Terms(
    loanAmount: real,
    periodicRate: real,
    payment: real,
    paymentsPerYear: int,
    recordFullPayment: bool)

  /** `percentagePaid` divides by the loan amount (a zero loan gives NaN, which
      the model does not have), and the year index by the number of payments per
      year. */
  predicate ValidTerms(t: Terms) {
    t.loanAmount != 0.0 && t.paymentsPerYear >= 1
  }

  /** The payment strictly exceeds the interest on the whole loan, so every period
      repays some principal. */
  predicate Amortizing(t: Terms) {
    t.periodicRate >= 0.0 && t.payment > t.loanAmount * t.periodicRate
  }

  /** An amortizing payment on a positive loan is positive. */
  lemma AmortizingPaymentPositive(t: Terms)
    requires Amortizing(t) && t.loanAmount > 0.0
    ensures t.payment > 0.0
  {
    MulMonotone(0.0, t.loanAmount, t.periodicRate);
  }

  /** The loop variables the source carries from one period to the next. */
  datatype Carry = Carry(balance: real, totalInterest: real, annualInterest: real, yearNumber: int, totalPrincipal: real)

  function Start(t: Terms): Carry {
    Carry(t.loanAmount, 0.0, 0.0, 1, 0.0)
  }

  function CarryAfter(p: PaymentPeriod): Carry {
    Carry(p.remainingBalance, p.totalInterestPaid, p.annualInterest, p.year, p.totalPrincipalPaid)
  }

  /** The share of the loan repaid once the balance is down to `balance`, in percent. */
  function PercentagePaid(loanAmount: real, balance: real): (r: real)
    requires loanAmount != 0.0
    ensures r * loanAmount == (loanAmount - balance) * 100.0
  {
    (loanAmount - balance) / loanAmount * 100.0
  }

  /** One iteration of the loop body: interest on the balance, principal clamped
      to the balance, running totals, the year reset, the clamp at zero. */
  function NextPeriod(t: Terms, c: Carry, n: int): (p: PaymentPeriod)
    requires ValidTerms(t) && n >= 1
    ensures p.periodNumber == n && p.year == (n - 1) / t.paymentsPerYear + 1
    ensures p.interestPayment == c.balance * t.periodicRate
    ensures p.principalPayment <= c.balance
    ensures p.principalPayment == c.balance || p.principalPayment == t.payment - p.interestPayment
    ensures p.remainingBalance >= 0.0 && p.remainingBalance == c.balance - p.principalPayment
    ensures p.totalInterestPaid == c.totalInterest + p.interestPayment
    ensures p.totalPrincipalPaid == c.totalPrincipal + p.principalPayment
    ensures !t.recordFullPayment ==> p.payment == p.principalPayment + p.interestPayment
    ensures t.recordFullPayment ==> p.payment == t.payment
    ensures p.percentagePaid == PercentagePaid(t.loanAmount, p.remainingBalance)
  {
    var interestPayment := c.balance * t.periodicRate;
    var principal := t.payment - interestPayment;
    var principalPayment := if c.balance < principal then c.balance else principal;
    var balance := c.balance - principalPayment;
    var totalInterestPaid := c.totalInterest + interestPayment;
    var runningAnnual := c.annualInterest + interestPayment;
    var currentYear := YearIndex(n, t.paymentsPerYear);
    var annualInterest := if currentYear != c.yearNumber then interestPayment else runningAnnual;
    var remainingBalance := if balance < 0.0 then 0.0 else balance;
    PaymentPeriod(
      n,
      if t.recordFullPayment then t.payment else principalPayment + interestPayment,
      principalPayment,
      interestPayment,
      remainingBalance,
      totalInterestPaid,
      annualInterest,
      PercentagePaid(t.loanAmount, remainingBalance),
      currentYear,
      c.totalPrincipal + principalPayment)
  }

  /** The loop bodies compute `NextPeriod` one assignment at a time: given the
      values of those assignments, the period they record is `NextPeriod`. */
  lemma LoopBodyIsNextPeriod(
    t: Terms, c: Carry, n: int, interestPayment: real, principalPayment: real,
    remainingBalance: real, annualInterest: real, currentYear: int)
    requires ValidTerms(t) && n >= 1
    requires interestPayment == c.balance * t.periodicRate
    requires principalPayment == if c.balance < t.payment - interestPayment then c.balance else t.payment - interestPayment
    requires remainingBalance == if c.balance - principalPayment < 0.0 then 0.0 else c.balance - principalPayment
    requires currentYear == YearIndex(n, t.paymentsPerYear)
    requires annualInterest == if currentYear != c.yearNumber then interestPayment else c.annualInterest + interestPayment
    ensures NextPeriod(t, c, n) == PaymentPeriod(
      n, if t.recordFullPayment then t.payment else principalPayment + interestPayment,
      principalPayment, interestPayment, remainingBalance, c.totalInterest + interestPayment, annualInterest,
      PercentagePaid(t.loanAmount, remainingBalance), currentYear, c.totalPrincipal + principalPayment)
  {
  }

  /** The periods a loop produces from carry `c`, starting at period `n`, with at
      most `left` iterations to go; with `stopAtZeroBalance` it stops right after
      the first period whose balance is 0. */
  function Run(t: Terms, stopAtZeroBalance: bool, c: Carry, n: int, left: nat): (s: seq<PaymentPeriod>)
    requires ValidTerms(t) && n >= 1
    ensures |s| <= left
    ensures left > 0 ==> |s| > 0
    ensures !stopAtZeroBalance ==> |s| == left
    decreases left
  {
    if left == 0 then []
    else
      var p := NextPeriod(t, c, n);
      if stopAtZeroBalance && p.remainingBalance == 0.0 then [p]
      else [p] + Run(t, stopAtZeroBalance, CarryAfter(p), n + 1, left - 1)
  }

  /** The state a period starts from: the carry given, or what the previous period left. */
  function Before(s: seq<PaymentPeriod>, i: int, c: Carry): Carry
    requires 0 <= i <= |s|
  {
    if i == 0 then c else CarryAfter(s[i - 1])
  }

  /** Every period of `s` is the loop body applied to the state the previous one
      left (the first one to `c`), numbered on from `n`. */
  ghost predicate Chained(t: Terms, c: Carry, n: int, s: seq<PaymentPeriod>) {
    ValidTerms(t) && n >= 1 &&
    forall i {:trigger Before(s, i, c)} :: 0 <= i < |s| ==> s[i] == NextPeriod(t, Before(s, i, c), n + i)
  }

  lemma ChainedAt(t: Terms, c: Carry, n: int, s: seq<PaymentPeriod>, i: int)
    requires Chained(t, c, n, s) && 0 <= i < |s|
    ensures s[i] == NextPeriod(t, Before(s, i, c), n + i)
  {
  }

  lemma {:induction false} RunIsChained(t: Terms, stopAtZeroBalance: bool, c: Carry, n: int, left: nat)
    requires ValidTerms(t) && n >= 1
    ensures Chained(t, c, n, Run(t, stopAtZeroBalance, c, n, left))
    decreases left
  {
    var s := Run(t, stopAtZeroBalance, c, n, left);
    if left > 0 {
      var p := NextPeriod(t, c, n);
      if !(stopAtZeroBalance && p.remainingBalance == 0.0) {
        var rest := Run(t, stopAtZeroBalance, CarryAfter(p), n + 1, left - 1);
        RunIsChained(t, stopAtZeroBalance, CarryAfter(p), n + 1, left - 1);
        assert s == [p] + rest;
        forall i | 0 <= i < |s| ensures s[i] == NextPeriod(t, Before(s, i, c), n + i) {
          if i > 0 {
            assert s[i] == rest[i - 1];
            assert Before(s, i, c) == Before(rest, i - 1, CarryAfter(p));
          }
        }
      }
    }
  }

  /** Appending the step taken from where `s` leaves off keeps a schedule chained. */
  lemma ChainedSnoc(t: Terms, c: Carry, n: int, s: seq<PaymentPeriod>, p: PaymentPeriod)
    requires Chained(t, c, n, s) && p == NextPeriod(t, Before(s, |s|, c), n + |s|)
    ensures Chained(t, c, n, s + [p])
  {
    var s' := s + [p];
    forall i | 0 <= i < |s'| ensures s'[i] == NextPeriod(t, Before(s', i, c), n + i) {
      if i < |s| {
        ChainedAt(t, c, n, s, i);
        assert Before(s', i, c) == Before(s, i, c);
      } else {
        assert Before(s', i, c) == Before(s, |s|, c);
      }
    }
  }

  lemma ChainedTail(t: Terms, c: Carry, n: int, s: seq<PaymentPeriod>)
    requires Chained(t, c, n, s) && |s| > 0
    ensures Chained(t, CarryAfter(s[0]), n + 1, s[1..])
  {
    var r := s[1..];
    forall i | 0 <= i < |r| ensures r[i] == NextPeriod(t, Before(r, i, CarryAfter(s[0])), n + 1 + i) {
      ChainedAt(t, c, n, s, i + 1);
      assert Before(r, i, CarryAfter(s[0])) == Before(s, i + 1, c);
    }
  }

  /** One iteration of `Run`. */
  lemma RunUnfold(t: Terms, stopAtZeroBalance: bool, c: Carry, n: int, left: nat)
    requires ValidTerms(t) && n >= 1 && left > 0
    ensures var p := NextPeriod(t, c, n);
      Run(t, stopAtZeroBalance, c, n, left) ==
        if stopAtZeroBalance && p.remainingBalance == 0.0 then [p]
        else [p] + Run(t, stopAtZeroBalance, CarryAfter(p), n + 1, left - 1)
  {
  }

  /** A schedule with no zero balance before its last period has none in its tail either. */
  lemma NoEarlyZeroTail(stopAtZeroBalance: bool, s: seq<PaymentPeriod>)
    requires |s| > 0
    requires forall i :: 0 <= i < |s| - 1 ==> !(stopAtZeroBalance && s[i].remainingBalance == 0.0)
    ensures forall i :: 0 <= i < |s[1..]| - 1 ==> !(stopAtZeroBalance && s[1..][i].remainingBalance == 0.0)
  {
    forall i | 0 <= i < |s[1..]| - 1 ensures !(stopAtZeroBalance && s[1..][i].remainingBalance == 0.0) {
      assert s[1..][i] == s[i + 1];
    }
  }

  /** A loop that has chained its periods and stopped where `Run` stops has built
      exactly `Run`'s schedule: stopping early is only allowed right after a zero
      balance, when the loop stops at zero balances. */
  lemma {:induction false} ChainedIsRun(t: Terms, stopAtZeroBalance: bool, c: Carry, n: int, s: seq<PaymentPeriod>, left: nat)
    requires Chained(t, c, n, s) && |s| <= left
    requires forall i :: 0 <= i < |s| - 1 ==> !(stopAtZeroBalance && s[i].remainingBalance == 0.0)
    requires |s| < left ==> |s| > 0 && stopAtZeroBalance && s[|s| - 1].remainingBalance == 0.0
    ensures s == Run(t, stopAtZeroBalance, c, n, left)
    decreases left
  {
    if left > 0 {
      ChainedAt(t, c, n, s, 0);
      var p := s[0];
      RunUnfold(t, stopAtZeroBalance, c, n, left);
      if stopAtZeroBalance && p.remainingBalance == 0.0 {
        assert |s| == 1;
      } else {
        var r := s[1..];
        ChainedTail(t, c, n, s);
        NoEarlyZeroTail(stopAtZeroBalance, s);
        ChainedIsRun(t, stopAtZeroBalance, CarryAfter(p), n + 1, r, left - 1);
        assert s == [p] + r;
      }
    }
  }

  /** With `stopAtZeroBalance` the schedule ends at the first period whose balance
      is 0, and only a schedule that ran out of iterations can end elsewhere. */
  lemma {:induction false} RunStopsAtFirstZero(t: Terms, c: Carry, n: int, left: nat)
    requires ValidTerms(t) && n >= 1
    ensures var s := Run(t, true, c, n, left);
      (forall i :: 0 <= i < |s| - 1 ==> s[i].remainingBalance != 0.0) &&
      (|s| < left ==> s[|s| - 1].remainingBalance == 0.0)
    decreases left
  {
    if left > 0 {
      var p := NextPeriod(t, c, n);
      if p.remainingBalance != 0.0 {
        RunStopsAtFirstZero(t, CarryAfter(p), n + 1, left - 1);
        var rest := Run(t, true, CarryAfter(p), n + 1, left - 1);
        assert Run(t, true, c, n, left) == [p] + rest;
      }
    }
  }

  // ----- sums over a schedule -----

  function SumInterest(s: seq<PaymentPeriod>): real {
    if s == [] then 0.0 else SumInterest(s[..|s| - 1]) + s[|s| - 1].interestPayment
  }

  function SumPrincipal(s: seq<PaymentPeriod>): real {
    if s == [] then 0.0 else SumPrincipal(s[..|s| - 1]) + s[|s| - 1].principalPayment
  }

  lemma {:induction false} SumPrincipalSplit(s: seq<PaymentPeriod>, a: nat, b: nat)
    requires a <= b <= |s|
    ensures SumPrincipal(s[..b]) == SumPrincipal(s[..a]) + SumPrincipal(s[a..b])
    decreases b - a
  {
    if b > a {
      SumPrincipalSplit(s, a, b - 1);
      assert s[..b][..b - 1] == s[..b - 1];
      assert s[a..b][..b - 1 - a] == s[a..b - 1];
    } else {
      assert s[a..b] == [];
    }
  }

  lemma {:induction false} SumInterestSplit(s: seq<PaymentPeriod>, a: nat, b: nat)
    requires a <= b <= |s|
    ensures SumInterest(s[..b]) == SumInterest(s[..a]) + SumInterest(s[a..b])
    decreases b - a
  {
    if b > a {
      SumInterestSplit(s, a, b - 1);
      assert s[..b][..b - 1] == s[..b - 1];
      assert s[a..b][..b - 1 - a] == s[a..b - 1];
    } else {
      assert s[a..b] == [];
    }
  }

  // ----- properties of chained schedules -----

  lemma MulMonotone(x: real, y: real, r: real)
    requires x <= y && r >= 0.0
    ensures x * r <= y * r
  {
  }

  /** One step under an amortizing payment, from a balance between 0 and the loan:
      the balance stays between 0 and where it was, drops while it is positive,
      and neither portion is negative. */
  lemma NextPeriodBalance(t: Terms, c: Carry, n: int)
    requires ValidTerms(t) && n >= 1 && Amortizing(t)
    requires 0.0 <= c.balance <= t.loanAmount
    ensures var p := NextPeriod(t, c, n);
      0.0 <= p.remainingBalance <= c.balance &&
      (c.balance > 0.0 ==> p.remainingBalance < c.balance) &&
      p.interestPayment >= 0.0 && p.principalPayment >= 0.0
  {
    InterestBelowPayment(c.balance, t.loanAmount, t.periodicRate, t.payment);
    var p := NextPeriod(t, c, n);
  }

  lemma InterestBelowPayment(balance: real, loan: real, rate: real, payment: real)
    requires 0.0 <= balance <= loan && rate >= 0.0 && payment > loan * rate
    ensures 0.0 <= balance * rate < payment
  {
    MulMonotone(balance, loan, rate);
    MulMonotone(0.0, balance, rate);
  }

  /** Under an amortizing payment the balance never goes negative and never grows,
      shrinks strictly while it is positive, and no portion is negative. */
  lemma {:induction false} ChainedBalanceAt(t: Terms, c: Carry, n: int, s: seq<PaymentPeriod>, i: nat)
    requires Chained(t, c, n, s) && Amortizing(t)
    requires 0.0 <= c.balance <= t.loanAmount
    requires i < |s|
    ensures 0.0 <= s[i].remainingBalance <= Before(s, i, c).balance <= t.loanAmount
    ensures Before(s, i, c).balance > 0.0 ==> s[i].remainingBalance < Before(s, i, c).balance
    ensures s[i].interestPayment >= 0.0 && s[i].principalPayment >= 0.0
  {
    if i > 0 {
      ChainedBalanceAt(t, c, n, s, i - 1);
    }
    ChainedAt(t, c, n, s, i);
    NextPeriodBalance(t, Before(s, i, c), n + i);
  }

  lemma ChainedBalances(t: Terms, c: Carry, n: int, s: seq<PaymentPeriod>)
    requires Chained(t, c, n, s) && Amortizing(t)
    requires 0.0 <= c.balance <= t.loanAmount
    ensures forall i :: 0 <= i < |s| ==>
      0.0 <= s[i].remainingBalance <= Before(s, i, c).balance <= t.loanAmount &&
      s[i].interestPayment >= 0.0 && s[i].principalPayment >= 0.0
  {
    forall i | 0 <= i < |s|
      ensures 0.0 <= s[i].remainingBalance <= Before(s, i, c).balance <= t.loanAmount
      ensures s[i].interestPayment >= 0.0 && s[i].principalPayment >= 0.0
    {
      ChainedBalanceAt(t, c, n, s, i);
    }
  }

  /** `totalInterestPaid` is the running sum of `interestPayment`. */
  lemma {:induction false} ChainedInterestTotal(t: Terms, c: Carry, n: int, s: seq<PaymentPeriod>, i: nat)
    requires Chained(t, c, n, s) && i < |s|
    ensures s[i].totalInterestPaid == c.totalInterest + SumInterest(s[..i + 1])
  {
    assert s[..i + 1][..i] == s[..i];
    if i > 0 {
      ChainedInterestTotal(t, c, n, s, i - 1);
    }
    ChainedAt(t, c, n, s, i);
  }

  /** Where the year block of period index `i` starts, and how it relates to the
      block of index `i - 1`. */
  lemma BlockStart(i: nat, ppy: int)
    requires ppy >= 1
    ensures 0 <= (i / ppy) * ppy <= i
    ensures i > 0 && i % ppy == 0 ==> (i / ppy) * ppy == i && (i - 1) / ppy + 1 == i / ppy
    ensures i > 0 && i % ppy != 0 ==> (i - 1) / ppy == i / ppy
  {
    var q := i / ppy;
    var r := i % ppy;
    assert i == q * ppy + r && 0 <= r < ppy;
    MulLeft(0, q, ppy);
    if i > 0 && r != 0 {
      DivUnique(i - 1, ppy, q, r - 1);
    }
    if i > 0 && r == 0 {
      DivUnique(i - 1, ppy, q - 1, ppy - 1);
    }
  }

  lemma DivUnique(a: int, b: int, q: int, r: int)
    requires b >= 1 && 0 <= r < b && a == q * b + r
    ensures a / b == q
  {
    var q0 := a / b;
    assert a == q0 * b + a % b;
    if q0 < q {
      MulLeft(q0 + 1, q, b);
    } else if q0 > q {
      MulLeft(q + 1, q0, b);
    }
  }

  /** `totalPrincipalPaid` is the running sum of `principalPayment`. */
  lemma {:induction false} ChainedPrincipalTotal(t: Terms, c: Carry, n: int, s: seq<PaymentPeriod>, i: nat)
    requires Chained(t, c, n, s) && i < |s|
    ensures s[i].totalPrincipalPaid == c.totalPrincipal + SumPrincipal(s[..i + 1])
  {
    assert s[..i + 1][..i] == s[..i];
    if i > 0 {
      ChainedPrincipalTotal(t, c, n, s, i - 1);
    }
    ChainedAt(t, c, n, s, i);
  }

  /** `annualInterest` is the interest of the periods so far in the current year:
      the sum from the first period of that year up to this one. */
  lemma {:induction false} AnnualInterestAt(t: Terms, s: seq<PaymentPeriod>, i: nat)
    requires Chained(t, Start(t), 1, s) && i < |s|
    ensures var first := (i / t.paymentsPerYear) * t.paymentsPerYear;
      0 <= first <= i && s[i].annualInterest == SumInterest(s[first..i + 1])
  {
    var ppy := t.paymentsPerYear;
    var first := (i / ppy) * ppy;
    BlockStart(i, ppy);
    ChainedAt(t, Start(t), 1, s, i);
    assert s[first..i + 1][..i - first] == s[first..i];
    if i == 0 {
      assert s[0..1][..0] == [];
    } else {
      AnnualInterestAt(t, s, i - 1);
      ChainedAt(t, Start(t), 1, s, i - 1);
      if i % ppy == 0 {
        assert s[i..i + 1][..0] == [];
      } else {
        assert ((i - 1) / ppy) * ppy == first;
      }
    }
  }

  /** A schedule that records the full payment records the same payment in every
      period, the final clamped one included. */
  lemma RunRecordsFullPayment(t: Terms, stopAtZeroBalance: bool, c: Carry, n: int, left: nat, s: seq<PaymentPeriod>)
    requires ValidTerms(t) && n >= 1 && t.recordFullPayment && s == Run(t, stopAtZeroBalance, c, n, left)
    ensures forall i :: 0 <= i < |s| ==> s[i].payment == t.payment
  {
    RunIsChained(t, stopAtZeroBalance, c, n, left);
    forall i | 0 <= i < |s| ensures s[i].payment == t.payment {
      ChainedAt(t, c, n, s, i);
    }
  }

  /** Once the balance reaches 0 under a positive payment, every later period
      repays nothing and charges no interest. */
  lemma {:induction false} ZeroBalanceStaysZero(t: Terms, c: Carry, n: int, s: seq<PaymentPeriod>, i: nat, j: nat)
    requires Chained(t, c, n, s) && t.payment > 0.0
    requires i < j < |s| && s[i].remainingBalance == 0.0
    ensures s[j].remainingBalance == 0.0
    ensures s[j].principalPayment == 0.0 && s[j].interestPayment == 0.0
    decreases j - i
  {
    if j > i + 1 {
      ZeroBalanceStaysZero(t, c, n, s, i, j - 1);
    }
    assert Before(s, j, c).balance == 0.0;
    ChainedAt(t, c, n, s, j);
  }

  /** What every schedule built from the start of the loan satisfies, whatever the
      payment: periods are numbered 1, 2, ..., the year is the integer quotient,
      `totalInterestPaid` is the running sum of interest and `annualInterest` the
      sum over the current year so far. */
  lemma RunFromStartTotals(t: Terms, stopAtZeroBalance: bool, left: nat)
    requires ValidTerms(t)
    ensures var s := Run(t, stopAtZeroBalance, Start(t), 1, left);
      forall i :: 0 <= i < |s| ==>
        s[i].periodNumber == i + 1 &&
        s[i].year == i / t.paymentsPerYear + 1 &&
        s[i].totalInterestPaid == SumInterest(s[..i + 1]) &&
        s[i].totalPrincipalPaid == SumPrincipal(s[..i + 1]) &&
        0 <= (i / t.paymentsPerYear) * t.paymentsPerYear <= i &&
        s[i].annualInterest == SumInterest(s[(i / t.paymentsPerYear) * t.paymentsPerYear..i + 1])
  {
    var s := Run(t, stopAtZeroBalance, Start(t), 1, left);
    RunIsChained(t, stopAtZeroBalance, Start(t), 1, left);
    forall i | 0 <= i < |s|
      ensures s[i].periodNumber == i + 1 && s[i].year == i / t.paymentsPerYear + 1
      ensures s[i].totalInterestPaid == SumInterest(s[..i + 1])
      ensures s[i].totalPrincipalPaid == SumPrincipal(s[..i + 1])
      ensures 0 <= (i / t.paymentsPerYear) * t.paymentsPerYear <= i
      ensures s[i].annualInterest == SumInterest(s[(i / t.paymentsPerYear) * t.paymentsPerYear..i + 1])
    {
      ChainedAt(t, Start(t), 1, s, i);
      ChainedInterestTotal(t, Start(t), 1, s, i);
      ChainedPrincipalTotal(t, Start(t), 1, s, i);
      AnnualInterestAt(t, s, i);
    }
  }

  /** Under an amortizing payment, a schedule from the start of a positive loan
      keeps every balance between 0 and the loan, never lets it grow, never charges
      negative interest, so `totalInterestPaid` never falls, and reports
      `percentagePaid` between 0 and 100. */
  lemma RunFromStartBalances(t: Terms, stopAtZeroBalance: bool, left: nat)
    requires ValidTerms(t) && Amortizing(t) && t.loanAmount > 0.0
    ensures var s := Run(t, stopAtZeroBalance, Start(t), 1, left);
      (forall i :: 0 <= i < |s| ==>
        0.0 <= s[i].remainingBalance <= t.loanAmount &&
        s[i].interestPayment >= 0.0 && s[i].principalPayment >= 0.0 &&
        0.0 <= s[i].percentagePaid <= 100.0) &&
      (forall i, j :: 0 <= i < j < |s| ==>
        s[j].remainingBalance <= s[i].remainingBalance &&
        s[i].totalInterestPaid <= s[j].totalInterestPaid)
  {
    var s := Run(t, stopAtZeroBalance, Start(t), 1, left);
    RunIsChained(t, stopAtZeroBalance, Start(t), 1, left);
    ChainedBalances(t, Start(t), 1, s);
    forall i | 0 <= i < |s|
      ensures 0.0 <= s[i].percentagePaid <= 100.0
    {
      ChainedBalanceAt(t, Start(t), 1, s, i);
      PercentageAt(t, s, i);
    }
    forall i, j | 0 <= i < j < |s|
      ensures s[j].remainingBalance <= s[i].remainingBalance
      ensures s[i].totalInterestPaid <= s[j].totalInterestPaid
    {
      ChainedMonotone(t, s, i, j);
    }
  }

  lemma PercentageAt(t: Terms, s: seq<PaymentPeriod>, i: nat)
    requires Chained(t, Start(t), 1, s) && i < |s|
    requires 0.0 <= s[i].remainingBalance <= t.loanAmount
    ensures 0.0 <= s[i].percentagePaid <= 100.0
  {
    ChainedAt(t, Start(t), 1, s, i);
    PercentageBounds(t.loanAmount, s[i].remainingBalance);
  }

  lemma PercentageBounds(loan: real, balance: real)
    requires 0.0 <= balance <= loan && loan > 0.0
    ensures 0.0 <= (loan - balance) / loan * 100.0 <= 100.0
  {
    QuotientAtMost(loan - balance, loan, 1.0);
  }

  lemma {:induction false} ChainedMonotone(t: Terms, s: seq<PaymentPeriod>, i: nat, j: nat)
    requires Chained(t, Start(t), 1, s) && Amortizing(t) && t.loanAmount > 0.0
    requires i < j < |s|
    ensures s[j].remainingBalance <= s[i].remainingBalance
    ensures s[i].totalInterestPaid <= s[j].totalInterestPaid
    decreases j - i
  {
    if j > i + 1 {
      ChainedMonotone(t, s, i, j - 1);
    }
    ChainedBalanceAt(t, Start(t), 1, s, j);
    ChainedAt(t, Start(t), 1, s, j);
  }

  /** What a period records as `payment` when that is principal + interest: never
      more than the periodic payment, and exactly it on every period that leaves a
      balance (only the period that clears the loan can pay less). */
  lemma {:induction false} RunPayments(t: Terms, stopAtZeroBalance: bool, c: Carry, n: int, left: nat)
    requires ValidTerms(t) && n >= 1 && !t.recordFullPayment
    ensures var s := Run(t, stopAtZeroBalance, c, n, left);
      forall i :: 0 <= i < |s| ==>
        s[i].payment == s[i].principalPayment + s[i].interestPayment &&
        s[i].payment <= t.payment &&
        (s[i].remainingBalance != 0.0 ==> s[i].payment == t.payment)
  {
    var s := Run(t, stopAtZeroBalance, c, n, left);
    RunIsChained(t, stopAtZeroBalance, c, n, left);
    forall i | 0 <= i < |s|
      ensures s[i].payment == s[i].principalPayment + s[i].interestPayment
      ensures s[i].payment <= t.payment
      ensures s[i].remainingBalance != 0.0 ==> s[i].payment == t.payment
    {
      ChainedAt(t, c, n, s, i);
    }
  }

  /** Once the balance reaches 0 under a positive payment, every later period of a
      schedule repays nothing, charges nothing and leaves 0. */
  lemma RunZeroBalanceStaysZero(t: Terms, stopAtZeroBalance: bool, c: Carry, n: int, left: nat, s: seq<PaymentPeriod>)
    requires ValidTerms(t) && n >= 1 && t.payment > 0.0 && s == Run(t, stopAtZeroBalance, c, n, left)
    ensures forall i, j :: 0 <= i < j < |s| && s[i].remainingBalance == 0.0 ==>
        s[j].remainingBalance == 0.0 && s[j].principalPayment == 0.0 && s[j].interestPayment == 0.0
  {
    RunIsChained(t, stopAtZeroBalance, c, n, left);
    forall i, j | 0 <= i < j < |s| && s[i].remainingBalance == 0.0
      ensures s[j].remainingBalance == 0.0 && s[j].principalPayment == 0.0 && s[j].interestPayment == 0.0
    {
      ZeroBalanceStaysZero(t, c, n, s, i, j);
    }
  }

  /** The record both Swift copies build for a schedule run at a higher payment:
      its years are the period count over the payments per year, the time saved is
      measured against the loan term, and the total saved is exactly the interest
      saved, since the loan amount cancels. */
  function ScenarioFrom(
    increasePercentage: real, newPayment: real, loanAmount: real, loanTerm: real,
    baseTotalInterest: real, increased: seq<PaymentPeriod>, paymentsPerYear: int): (c: ComparisonScenario)
    requires |increased| > 0 && paymentsPerYear >= 1
    ensures c.increasePercentage == increasePercentage && c.newPayment == newPayment
    ensures c.yearsToPay * paymentsPerYear as real == |increased| as real
    ensures c.timeSaved == loanTerm - c.yearsToPay
    ensures c.interestSavings == baseTotalInterest - increased[|increased| - 1].totalInterestPaid
    ensures c.totalPaid == loanAmount + increased[|increased| - 1].totalInterestPaid
    ensures c.totalSaved == c.interestSavings
  {
    var increasedTotalInterest := increased[|increased| - 1].totalInterestPaid;
    var increasedYears := |increased| as real / paymentsPerYear as real;
    ComparisonScenario(
      increasePercentage,
      newPayment,
      increasedYears,
      baseTotalInterest - increasedTotalInterest,
      loanTerm - increasedYears,
      loanAmount + increasedTotalInterest,
      (loanAmount + baseTotalInterest) - (loanAmount + increasedTotalInterest))
  }

  /** `schedule.last?.totalInterestPaid ?? 0`. */
  function TotalInterestOf(s: seq<PaymentPeriod>): real {
    if s == [] then 0.0 else s[|s| - 1].totalInterestPaid
  }

  /** `(part / whole) * 100`: `part` as a percentage of `whole`. */
  function PercentOf(part: real, whole: real): (r: real)
    requires whole != 0.0
    ensures r * whole == part * 100.0
  {
    (part / whole) * 100.0
  }

  /** `basePayment * (1 + increase / 100)`: the base payment raised by a percentage. */
  function IncreasedPayment(basePayment: real, increase: real): real {
    basePayment * (1.0 + increase / 100.0)
  }

  /** The payment increases, in percent, that every copy's comparison tries, in this order. */
  const Increases: seq<real> := [10.0, 25.0, 50.0]

  // ----- yearly summaries -----

  /** Index of the last period of the block that belongs to `year` (1-based). */
  function BlockEnd(count: nat, paymentsPerYear: int, year: int): int {
    if year * paymentsPerYear < count then year * paymentsPerYear - 1 else count - 1
  }

  lemma YearProducts(year: int, ppy: int)
    ensures (year - 1) * ppy + ppy == year * ppy
    ensures (year - 2) * ppy + ppy == (year - 1) * ppy
  {
  }

  lemma MulLeft(a: int, b: int, c: int)
    requires a <= b && c >= 0
    ensures a * c <= b * c
  {
  }

  /** Every year up to `ceil(count / paymentsPerYear)` starts inside the schedule. */
  lemma YearStartInRange(count: int, ppy: int, year: int)
    requires ppy >= 1 && 1 <= year <= (count + ppy - 1) / ppy
    ensures 0 <= (year - 1) * ppy < count
    ensures year >= 2 ==> ppy <= (year - 1) * ppy
  {
    var y := (count + ppy - 1) / ppy;
    assert y * ppy <= count + ppy - 1;
    MulLeft(year, y, ppy);
    MulLeft(0, year - 1, ppy);
    if year >= 2 {
      MulLeft(1, year - 1, ppy);
    }
    YearProducts(year, ppy);
  }

  /** The summary of one year, computed as the source does from the cumulative
      values at the end of that year's block and of the previous one. */
  function YearEntry(s: seq<PaymentPeriod>, paymentsPerYear: int, year: int): YearlySummary
    requires paymentsPerYear >= 1 && 1 <= year <= (|s| + paymentsPerYear - 1) / paymentsPerYear
  {
    YearStartInRange(|s|, paymentsPerYear, year);
    YearProducts(year, paymentsPerYear);
    var startIndex := (year - 1) * paymentsPerYear;
    var endIndex := if startIndex + paymentsPerYear - 1 < |s| - 1 then startIndex + paymentsPerYear - 1 else |s| - 1;
    if year == 1 then
      YearlySummary(year, s[endIndex].remainingBalance, s[endIndex].totalPrincipalPaid, s[endIndex].totalInterestPaid)
    else
      var p := (year - 2) * paymentsPerYear + paymentsPerYear - 1;
      var previousEnd := if p < |s| - 1 then p else |s| - 1;
      YearlySummary(
        year,
        s[endIndex].remainingBalance,
        s[endIndex].totalPrincipalPaid - s[previousEnd].totalPrincipalPaid,
        s[endIndex].totalInterestPaid - s[previousEnd].totalInterestPaid)
  }

  /** For a schedule built from the start of the loan, a year's entry covers the
      periods of its block, from `(year - 1) * paymentsPerYear` up to the block end
      (or the last period, for a short final block): its balance is the block
      end's, and its principal and interest are the sums over the block. */
  lemma YearEntryCoversBlock(t: Terms, s: seq<PaymentPeriod>, year: int)
    requires Chained(t, Start(t), 1, s)
    requires 1 <= year <= (|s| + t.paymentsPerYear - 1) / t.paymentsPerYear
    ensures var y := YearEntry(s, t.paymentsPerYear, year);
      var first := (year - 1) * t.paymentsPerYear;
      var last := BlockEnd(|s|, t.paymentsPerYear, year);
      0 <= first <= last < |s| &&
      y.year == year &&
      y.remainingBalance == s[last].remainingBalance &&
      y.principalPaid == SumPrincipal(s[first..last + 1]) &&
      y.interestPaid == SumInterest(s[first..last + 1])
  {
    var ppy := t.paymentsPerYear;
    YearStartInRange(|s|, ppy, year);
    YearProducts(year, ppy);
    var first := (year - 1) * ppy;
    var last := BlockEnd(|s|, ppy, year);
    var y := YearEntry(s, ppy, year);
    var before := Start(t);
    if year > 1 {
      before := CarryAfter(s[first - 1]);
      assert y == YearlySummary(year, s[last].remainingBalance,
        s[last].totalPrincipalPaid - s[first - 1].totalPrincipalPaid,
        s[last].totalInterestPaid - s[first - 1].totalInterestPaid);
    } else {
      assert y == YearlySummary(year, s[last].remainingBalance, s[last].totalPrincipalPaid, s[last].totalInterestPaid);
    }
    assert y.principalPaid == s[last].totalPrincipalPaid - before.totalPrincipal;
    assert y.interestPaid == s[last].totalInterestPaid - before.totalInterest;
    BlockTotals(t, s, first, last);
  }

  /** Over a block of a chained schedule, the growth of the running totals is the
      sum of the block's portions. */
  lemma BlockTotals(t: Terms, s: seq<PaymentPeriod>, first: nat, last: nat)
    requires Chained(t, Start(t), 1, s) && first <= last < |s|
    ensures var before := Before(s, first, Start(t));
      s[last].totalPrincipalPaid - before.totalPrincipal == SumPrincipal(s[first..last + 1]) &&
      s[last].totalInterestPaid - before.totalInterest == SumInterest(s[first..last + 1])
  {
    ChainedPrincipalTotal(t, Start(t), 1, s, last);
    ChainedInterestTotal(t, Start(t), 1, s, last);
    SumPrincipalSplit(s, first, last + 1);
    SumInterestSplit(s, first, last + 1);
    if first == 0 {
      assert s[..0] == [];
    } else {
      ChainedPrincipalTotal(t, Start(t), 1, s, first - 1);
      ChainedInterestTotal(t, Start(t), 1, s, first - 1);
    }
  }

  /** The first `m` yearly entries. */
  function YearEntries(s: seq<PaymentPeriod>, paymentsPerYear: int, m: nat): (ys: seq<YearlySummary>)
    requires paymentsPerYear >= 1 && m <= (|s| + paymentsPerYear - 1) / paymentsPerYear
    ensures |ys| == m
    ensures forall k :: 0 <= k < m ==> ys[k] == YearEntry(s, paymentsPerYear, k + 1)
  {
    if m == 0 then [] else YearEntries(s, paymentsPerYear, m - 1) + [YearEntry(s, paymentsPerYear, m)]
  }

  /** The yearly-summary loop: one entry per year, `ceil(count / paymentsPerYear)` of
      them; `for year in 1...yearCount` traps on an empty schedule. */
  method YearlySummaries(s: seq<PaymentPeriod>, paymentsPerYear: int) returns (years: seq<YearlySummary>)
    requires |s| >= 1 && paymentsPerYear >= 1
    ensures years == YearEntries(s, paymentsPerYear, (|s| + paymentsPerYear - 1) / paymentsPerYear)
  {
    years := [];
    var yearCount := YearCount(|s|, paymentsPerYear);
    for year := 1 to yearCount + 1
      invariant years == YearEntries(s, paymentsPerYear, year - 1)
    {
      var startIndex := (year - 1) * paymentsPerYear;
      YearStartInRange(|s|, paymentsPerYear, year);
      YearProducts(year, paymentsPerYear);
      var endIndex := if startIndex + paymentsPerYear - 1 < |s| - 1 then startIndex + paymentsPerYear - 1 else |s| - 1;
      if startIndex < |s| {
        var principalPaid: real;
        var interestPaid: real;
        if year == 1 {
          principalPaid := s[endIndex].totalPrincipalPaid;
          interestPaid := s[endIndex].totalInterestPaid;
        } else {
          var p := (year - 2) * paymentsPerYear + paymentsPerYear - 1;
          var previousEnd := if p < |s| - 1 then p else |s| - 1;
          principalPaid := s[endIndex].totalPrincipalPaid - s[previousEnd].totalPrincipalPaid;
          interestPaid := s[endIndex].totalInterestPaid - s[previousEnd].totalInterestPaid;
        }
        years := years + [YearlySummary(year, s[endIndex].remainingBalance, principalPaid, interestPaid)];
      }
    }
  }
}
