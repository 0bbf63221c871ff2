/** The cent-rounding copy of the engine, Money/app.py: the frequency table, the
    standard schedule `generate_schedule`, the fixed-payment schedule
    `generate_schedule_with_payment` and the increased-payment comparison
    `calculate_comparison_scenarios`.

    Money is a whole number of cents. Python's `round(x, 2)` is round-half-even of
    `100 * x` on the exact value; rounding a sum or difference of whole cents gives
    it back, so those roundings disappear. The closed-form `calculate_payment` is an
    input (already rounded to cents). A `KeyError` and a `ZeroDivisionError` that the
    source raises are results. */
module Money {
  import opened Common

  const PaymentFrequencies: map<string, int> := map["weekly" := 52, "fortnightly" := 26, "monthly" := 12]

  datatype Failure = KeyError(key: string) | ZeroDivisionError

  datatype Result<T> = Ok(value: T) | Err(failure: Failure)

  /** `PAYMENT_FREQUENCIES[frequency]`: a key that is not in the table raises
      `KeyError`; there is no fallback. */
  function PaymentsPerYear(frequency: string): (r: Result<int>)
    ensures r == Ok(52) <==> frequency == "weekly"
    ensures r == Ok(26) <==> frequency == "fortnightly"
    ensures r == Ok(12) <==> frequency == "monthly"
    ensures r.Err? <==> r == Err(KeyError(frequency))
    ensures r.Ok? ==> r.value >= 12
  {
    if frequency in PaymentFrequencies then Ok(PaymentFrequencies[frequency]) else Err(KeyError(frequency))
  }

  /** Round half to even: the nearest integer, ties going to the even one. */
  function RoundHalfEven(x: real): (r: int)
    ensures x - 0.5 <= r as real <= x + 0.5
    ensures (r as real == x - 0.5 || r as real == x + 0.5) ==> r % 2 == 0
    ensures x == x.Floor as real ==> r == x.Floor
  {
    var f := x.Floor;
    if x - f as real < 0.5 then f
    else if x - f as real > 0.5 then f + 1
    else if f % 2 == 0 then f
    else f + 1
  }

  /** `round(balance * periodic_rate, 2)`, in cents. */
  function InterestOn(balance: int, periodicRate: real): int {
    RoundHalfEven(balance as real * periodicRate)
  }

  /** `(annual_rate / 100) / PAYMENT_FREQUENCIES[frequency]`. */
  function PeriodicRate(annualRate: real, paymentsPerYear: int): real
    requires paymentsPerYear >= 1
  {
    annualRate / 100.0 / paymentsPerYear as real
  }

  /** `x ** n` for a whole exponent `n >= 0`. */
  function Pow(x: real, n: nat): real
  {
    if n == 0 then 1.0 else x * Pow(x, n - 1)
  }

  /** Whether `calculate_payment` raises `ZeroDivisionError`: it divides by
      `(1 + c) ** n - 1`, with `c` the periodic rate and `n = years * freq`, and
      Python also refuses `0.0` raised to a negative power. */
  predicate PaymentFails(annualRate: real, years: int, paymentsPerYear: int)
    requires paymentsPerYear >= 1
  {
    var growth := 1.0 + PeriodicRate(annualRate, paymentsPerYear);
    var n := years * paymentsPerYear;
    if n >= 0 then Pow(growth, n) == 1.0
    else growth == 0.0 || Pow(growth, -n) == 1.0
  }

  lemma {:induction false} PowOfOne(n: nat)
    ensures Pow(1.0, n) == 1.0
  {
    if n > 0 {
      PowOfOne(n - 1);
    }
  }

  lemma {:induction false} PowAboveOne(x: real, n: nat)
    requires x > 1.0 && n >= 1
    ensures Pow(x, n) > 1.0
  {
    if n > 1 {
      PowAboveOne(x, n - 1);
      var y := Pow(x, n - 1);
      assert x * y - y == (x - 1.0) * y;
      assert (x - 1.0) * y > 0.0;
    }
  }

  lemma {:induction false} PowBelowOne(x: real, n: nat)
    requires 0.0 < x < 1.0 && n >= 1
    ensures 0.0 < Pow(x, n) < 1.0
  {
    if n > 1 {
      PowBelowOne(x, n - 1);
      var y := Pow(x, n - 1);
      assert x * y > 0.0;
      assert y - x * y == (1.0 - x) * y;
      assert (1.0 - x) * y > 0.0;
    }
  }

  /** A positive base other than 1 never has a whole power of 1, except the 0th. */
  lemma PowIsOne(x: real, n: nat)
    requires x > 0.0
    ensures Pow(x, n) == 1.0 <==> n == 0 || x == 1.0
  {
    if x == 1.0 {
      PowOfOne(n);
    } else if n >= 1 && x > 1.0 {
      PowAboveOne(x, n);
    } else if n >= 1 {
      PowBelowOne(x, n);
    }
  }

  /** For an interest rate above -100 % a period, `calculate_payment` fails
      exactly when the term has no periods or the rate is zero. */
  lemma PaymentFailsExactly(annualRate: real, years: int, paymentsPerYear: int)
    requires paymentsPerYear >= 1 && annualRate > -100.0 * paymentsPerYear as real
    ensures PaymentFails(annualRate, years, paymentsPerYear) <==> years == 0 || annualRate == 0.0
  {
    var c := PeriodicRate(annualRate, paymentsPerYear);
    var ppy := paymentsPerYear as real;
    assert c * ppy * 100.0 == annualRate;
    assert c > -1.0;
    assert c == 0.0 <==> annualRate == 0.0;
    var n := years * paymentsPerYear;
    assert n == 0 <==> years == 0;
    if n >= 0 {
      PowIsOne(1.0 + c, n);
    } else {
      PowIsOne(1.0 + c, -n);
    }
  }

  /** 'Loan Paid (%)': `round((principal - balance) / principal * 100, 1)`. */
  function LoanPaid(principal: int, balance: int): (r: real)
    requires principal != 0
    ensures balance == 0 ==> r == 100.0
    ensures balance == principal ==> r == 0.0
    ensures var exact := (principal - balance) as real / principal as real * 100.0;
      exact - 0.05 <= r <= exact + 0.05
  {
    var tenths := (principal - balance) as real / principal as real * 1000.0;
    assert balance == 0 ==> principal as real / principal as real == 1.0;
    assert balance == 0 ==> tenths == 1000.0 && RoundHalfEven(tenths) == 1000;
    assert balance == principal ==> tenths == 0.0 && RoundHalfEven(tenths) == 0;
    RoundHalfEven(tenths) as real / 10.0
  }

  /** The year a 1-based payment number falls in: `(payment_num - 1) // freq + 1`. */
  function YearOf(paymentNumber: int, paymentsPerYear: int): int
    requires paymentsPerYear >= 1
  {
    (paymentNumber - 1) / paymentsPerYear + 1
  }

  /** The number of periods `range(1, years * freq + 1)` visits. */
  function PeriodCount(years: int, paymentsPerYear: int): (r: nat)
    ensures r == if years * paymentsPerYear > 0 then years * paymentsPerYear else 0
  {
    var n := years * paymentsPerYear;
    if n > 0 then n else 0
  }

  /** One row of a schedule; money in cents. */
  datatype Row = Row(
    paymentNumber: int,
    payment: int,
    principal: int,
    interest: int,
    remainingBalance: int,
    totalInterest: int,
    annualInterest: int,
    loanPaid: real,
    year: int)

  /** The fixed inputs of both generators. */
  datatype Plan = Plan(principal: int, periodicRate: real, paymentsPerYear: int)

  /** The loop variables of both generators; `payment` is one of them, since the
      last period may lower it. */
  datatype State = State(balance: int, totalInterest: int, annualInterest: int, yearNumber: int, payment: int)

  predicate ValidPlan(plan: Plan) {
    plan.paymentsPerYear >= 1
  }

  function PlanFor(principal: int, annualRate: real, paymentsPerYear: int): Plan
    requires paymentsPerYear >= 1
  {
    Plan(principal, PeriodicRate(annualRate, paymentsPerYear), paymentsPerYear)
  }

  /** The annual-interest bookkeeping both generators share: the period's interest
      is added to the year's, and when the period opens a new year the year's
      interest restarts at the period's. */
  function AnnualUpdate(st: State, interest: int, currentYear: int): (int, int) {
    var annual := st.annualInterest + interest;
    if currentYear != st.yearNumber then (interest, currentYear) else (annual, st.yearNumber)
  }

  // ---------------------------------------------------------------------------
  // generate_schedule

  /** One period of `generate_schedule`: when the balance is below the payment's
      principal portion the principal is the balance and the payment drops to
      principal plus interest; a negative balance is set to 0. */
  function Step(plan: Plan, st: State, paymentNumber: int): (Row, State)
    requires ValidPlan(plan) && plan.principal != 0
  {
    var interest := InterestOn(st.balance, plan.periodicRate);
    var portion := st.payment - interest;
    var principalPayment := if st.balance < portion then st.balance else portion;
    var payment := if st.balance < portion then principalPayment + interest else st.payment;
    var balance := st.balance - principalPayment;
    var totalInterest := st.totalInterest + interest;
    var currentYear := YearOf(paymentNumber, plan.paymentsPerYear);
    var (annual, yearNumber) := AnnualUpdate(st, interest, currentYear);
    var remaining := if balance < 0 then 0 else balance;
    (Row(paymentNumber, payment, principalPayment, interest, remaining, totalInterest, annual,
       LoanPaid(plan.principal, remaining), currentYear),
     State(remaining, totalInterest, annual, yearNumber, payment))
  }

  /** The periods from `paymentNumber` on, at most `left` of them, stopping after
      the first whose balance is 0. */
  function Schedule(plan: Plan, st: State, paymentNumber: int, left: nat): (s: seq<Row>)
    requires ValidPlan(plan) && plan.principal != 0
    ensures |s| <= left
    decreases left
  {
    if left == 0 then [] else
    var (row, next) := Step(plan, st, paymentNumber);
    if row.remainingBalance == 0 then [row]
    else [row] + Schedule(plan, next, paymentNumber + 1, left - 1)
  }

  function Start(principal: int, payment: int): State {
    State(principal, 0, 0, 1, payment)
  }

  /** `generate_schedule` with `payment` the value `calculate_payment` returns for
      the same arguments. */
  function GenerateScheduleResult(principal: int, annualRate: real, years: int, frequency: string, payment: int)
    : Result<seq<Row>>
  {
    match PaymentsPerYear(frequency)
    case Err(failure) => Err(failure)
    case Ok(ppy) =>
      var count := PeriodCount(years, ppy);
      if PaymentFails(annualRate, years, ppy) then Err(ZeroDivisionError)
      else if count == 0 then Ok([])
      else if principal == 0 then Err(ZeroDivisionError)
      else Ok(Schedule(PlanFor(principal, annualRate, ppy), Start(principal, payment), 1, count))
  }

  lemma ScheduleUnfold(plan: Plan, st: State, paymentNumber: int, left: nat, row: Row, next: State)
    requires ValidPlan(plan) && plan.principal != 0 && left >= 1
    requires Step(plan, st, paymentNumber) == (row, next)
    ensures Schedule(plan, st, paymentNumber, left) ==
      if row.remainingBalance == 0 then [row] else [row] + Schedule(plan, next, paymentNumber + 1, left - 1)
  {
  }

  lemma Regroup(done: seq<Row>, row: Row, rest: seq<Row>)
    ensures done + ([row] + rest) == (done + [row]) + rest
  {
  }

  /** The values the loop body of `generate_schedule` computes are those of `Step`. */
  lemma LoopBodyIsStep(plan: Plan, st: State, paymentNumber: int, row: Row, next: State)
    requires ValidPlan(plan) && plan.principal != 0
    requires row.interest == InterestOn(st.balance, plan.periodicRate)
    requires st.balance < st.payment - row.interest ==>
      row.principal == st.balance && row.payment == st.balance + row.interest
    requires !(st.balance < st.payment - row.interest) ==>
      row.principal == st.payment - row.interest && row.payment == st.payment
    requires row.totalInterest == st.totalInterest + row.interest
    requires row.year == YearOf(paymentNumber, plan.paymentsPerYear)
    requires (row.annualInterest, next.yearNumber) == AnnualUpdate(st, row.interest, row.year)
    requires row.remainingBalance == if st.balance - row.principal < 0 then 0 else st.balance - row.principal
    requires row.paymentNumber == paymentNumber && row.loanPaid == LoanPaid(plan.principal, row.remainingBalance)
    requires next == State(row.remainingBalance, row.totalInterest, row.annualInterest, next.yearNumber, row.payment)
    ensures Step(plan, st, paymentNumber) == (row, next)
  {
  }

  /** One pass of the `for` loop of `generate_schedule`: the row it appends and
      the variables it leaves behind. */
  method Period(plan: Plan, st: State, paymentNumber: int) returns (row: Row, next: State)
    requires ValidPlan(plan) && plan.principal != 0
    ensures (row, next) == Step(plan, st, paymentNumber)
  {
    var payment := st.payment;
    var interestPayment := InterestOn(st.balance, plan.periodicRate);
    var principalPayment := payment - interestPayment;
    if st.balance < principalPayment {
      principalPayment := st.balance;
      payment := principalPayment + interestPayment;
    }
    var remainingBalance := st.balance - principalPayment;
    var totalInterest := st.totalInterest + interestPayment;
    var annualInterest := st.annualInterest + interestPayment;
    var yearNumber := st.yearNumber;
    var currentYear := (paymentNumber - 1) / plan.paymentsPerYear + 1;
    if currentYear != yearNumber {
      annualInterest := interestPayment;
      yearNumber := currentYear;
    }
    if remainingBalance < 0 {
      remainingBalance := 0;
    }
    row := Row(paymentNumber, payment, principalPayment, interestPayment, remainingBalance, totalInterest,
      annualInterest, LoanPaid(plan.principal, remainingBalance), currentYear);
    next := State(remainingBalance, totalInterest, annualInterest, yearNumber, payment);
    LoopBodyIsStep(plan, st, paymentNumber, row, next);
  }

  /** The `for payment_number in range(1, years * freq + 1)` loop of
      `generate_schedule`, breaking after the row that leaves a zero balance. */
  method ScheduleLoop(plan: Plan, basePayment: int, count: nat) returns (payments: seq<Row>)
    requires ValidPlan(plan) && plan.principal != 0
    ensures payments == Schedule(plan, Start(plan.principal, basePayment), 1, count)
  {
    payments := [];
    var st := Start(plan.principal, basePayment);
    ghost var whole := Schedule(plan, st, 1, count);
    for paymentNumber := 1 to count + 1
      invariant whole == payments + Schedule(plan, st, paymentNumber, count + 1 - paymentNumber)
    {
      var row, next := Period(plan, st, paymentNumber);
      ScheduleUnfold(plan, st, paymentNumber, count + 1 - paymentNumber, row, next);
      Regroup(payments, row, Schedule(plan, next, paymentNumber + 1, count - paymentNumber));
      payments := payments + [row];
      st := next;
      if row.remainingBalance == 0 {
        break;
      }
    }
  }


  /** `generate_schedule`. */
  method GenerateSchedule(principal: int, annualRate: real, years: int, frequency: string, payment: int)
    returns (r: Result<seq<Row>>)
    ensures r == GenerateScheduleResult(principal, annualRate, years, frequency, payment)
  {
    if frequency !in PaymentFrequencies {
      return Err(KeyError(frequency));
    }
    var ppy := PaymentFrequencies[frequency];
    if PaymentFails(annualRate, years, ppy) {
      return Err(ZeroDivisionError);
    }
    var count := PeriodCount(years, ppy);
    if count == 0 {
      return Ok([]);
    }
    if principal == 0 {
      return Err(ZeroDivisionError);
    }
    var rows := ScheduleLoop(PlanFor(principal, annualRate, ppy), payment, count);
    return Ok(rows);
  }

  // ---------------------------------------------------------------------------
  // Properties of generate_schedule

  /** The balance a row starts from. */
  function Opening(st: State, s: seq<Row>, i: int): int
    requires 0 <= i < |s|
  {
    if i == 0 then st.balance else s[i - 1].remainingBalance
  }

  /** The interest paid before a row. */
  function InterestBefore(st: State, s: seq<Row>, i: int): int
    requires 0 <= i < |s|
  {
    if i == 0 then st.totalInterest else s[i - 1].totalInterest
  }

  /** The year's interest before a row. */
  function AnnualBefore(annualBefore: int, s: seq<Row>, i: int): int
    requires 0 <= i < |s|
  {
    if i == 0 then annualBefore else s[i - 1].annualInterest
  }

  /** The year's interest after a period: the period's interest alone when the
      period opens a year, added to the year's so far otherwise. */
  function AnnualAfter(annualBefore: int, interest: int, paymentNumber: int, paymentsPerYear: int): int
    requires paymentsPerYear >= 1
  {
    if (paymentNumber - 1) % paymentsPerYear == 0 then interest else annualBefore + interest
  }

  /** A schedule numbers its rows on from the first payment number, has at most
      `left` rows (at least one when `left` is positive), and ends at the first row
      whose balance is 0 unless it ran out of periods. */
  lemma {:induction false} ScheduleShape(plan: Plan, st: State, paymentNumber: int, left: nat)
    requires ValidPlan(plan) && plan.principal != 0
    ensures var s := Schedule(plan, st, paymentNumber, left);
      (left > 0 ==> |s| > 0) &&
      (forall i :: 0 <= i < |s| ==> s[i].paymentNumber == paymentNumber + i) &&
      (forall i :: 0 <= i < |s| - 1 ==> s[i].remainingBalance != 0) &&
      (0 < |s| < left ==> s[|s| - 1].remainingBalance == 0)
    decreases left
  {
    if left > 0 {
      var (row, next) := Step(plan, st, paymentNumber);
      ScheduleUnfold(plan, st, paymentNumber, left, row, next);
      if row.remainingBalance != 0 {
        ScheduleShape(plan, next, paymentNumber + 1, left - 1);
      }
    }
  }

  /** A row made from an opening balance and the scheduled payment: the interest
      is on the opening balance; when the balance is below the payment's principal
      portion, the final payment adjustment takes exactly the balance, pays principal
      plus interest and leaves 0; otherwise the full payment is made. Either way the
      balance drops by the principal and is never negative, even before the clamp. */
  predicate RowFollows(plan: Plan, payment: int, opening: int, row: Row) {
    row.interest == InterestOn(opening, plan.periodicRate) &&
    row.remainingBalance == opening - row.principal && row.remainingBalance >= 0 &&
    (opening < payment - row.interest ==>
      row.principal == opening && row.payment == row.principal + row.interest && row.remainingBalance == 0) &&
    (opening >= payment - row.interest ==>
      row.principal == payment - row.interest && row.payment == payment)
  }

  /** One period's amounts; its clamp to 0 never changes the balance. */
  lemma StepAmounts(plan: Plan, st: State, paymentNumber: int)
    requires ValidPlan(plan) && plan.principal != 0
    ensures var (row, next) := Step(plan, st, paymentNumber);
      RowFollows(plan, st.payment, st.balance, row) &&
      st.balance - row.principal >= 0 &&
      row.totalInterest == st.totalInterest + row.interest &&
      next.balance == row.remainingBalance && next.totalInterest == row.totalInterest &&
      next.annualInterest == row.annualInterest && next.payment == row.payment
  {
  }

  /** Every row of a schedule follows from its opening balance and the scheduled
      payment, which only the final adjustment (in a row that ends at 0) lowers. */
  lemma {:induction false} ScheduleBalances(plan: Plan, st: State, paymentNumber: int, left: nat)
    requires ValidPlan(plan) && plan.principal != 0
    ensures var s := Schedule(plan, st, paymentNumber, left);
      forall i :: 0 <= i < |s| ==> RowFollows(plan, st.payment, Opening(st, s, i), s[i])
    decreases left
  {
    var s := Schedule(plan, st, paymentNumber, left);
    if left > 0 {
      var (row, next) := Step(plan, st, paymentNumber);
      ScheduleUnfold(plan, st, paymentNumber, left, row, next);
      StepAmounts(plan, st, paymentNumber);
      if row.remainingBalance != 0 {
        var rest := Schedule(plan, next, paymentNumber + 1, left - 1);
        ScheduleBalances(plan, next, paymentNumber + 1, left - 1);
        assert s == [row] + rest;
        assert next.payment == st.payment;
        forall i | 1 <= i < |s|
          ensures s[i] == rest[i - 1] && Opening(st, s, i) == Opening(next, rest, i - 1)
        {
        }
      }
    }
  }

  /** Every row's interest to date is the interest before it plus its own. */
  lemma {:induction false} ScheduleInterest(plan: Plan, st: State, paymentNumber: int, left: nat)
    requires ValidPlan(plan) && plan.principal != 0
    ensures var s := Schedule(plan, st, paymentNumber, left);
      forall i :: 0 <= i < |s| ==> s[i].totalInterest == InterestBefore(st, s, i) + s[i].interest
    decreases left
  {
    var s := Schedule(plan, st, paymentNumber, left);
    if left > 0 {
      var (row, next) := Step(plan, st, paymentNumber);
      ScheduleUnfold(plan, st, paymentNumber, left, row, next);
      StepAmounts(plan, st, paymentNumber);
      if row.remainingBalance != 0 {
        var rest := Schedule(plan, next, paymentNumber + 1, left - 1);
        ScheduleInterest(plan, next, paymentNumber + 1, left - 1);
        assert s == [row] + rest;
        forall i | 1 <= i < |s|
          ensures s[i] == rest[i - 1] && InterestBefore(st, s, i) == InterestBefore(next, rest, i - 1)
        {
        }
      }
    }
  }

  /** Where a period stands in the year bookkeeping: the first period starts year 1
      with no interest; any later one follows a period of the year on record. */
  predicate YearState(st: State, paymentNumber: int, paymentsPerYear: int)
    requires paymentsPerYear >= 1
  {
    paymentNumber >= 1 &&
    (paymentNumber == 1 ==> st.yearNumber == 1 && st.annualInterest == 0) &&
    (paymentNumber >= 2 ==> st.yearNumber == YearOf(paymentNumber - 1, paymentsPerYear))
  }

  /** The year's interest restarts exactly at the first period of a year. */
  lemma {:induction false} AnnualStep(st: State, interest: int, paymentNumber: int, paymentsPerYear: int)
    requires paymentsPerYear >= 1 && YearState(st, paymentNumber, paymentsPerYear)
    ensures var (annual, yearNumber) := AnnualUpdate(st, interest, YearOf(paymentNumber, paymentsPerYear));
      yearNumber == YearOf(paymentNumber, paymentsPerYear) &&
      annual == AnnualAfter(st.annualInterest, interest, paymentNumber, paymentsPerYear)
  {
    if paymentNumber >= 2 {
      DivStep(paymentNumber - 1, paymentsPerYear);
    }
  }

  /** Stepping back from `a` to `a - 1` changes the quotient exactly when `a` is a
      multiple of `d`. */
  lemma DivStep(a: int, d: int)
    requires a >= 1 && d >= 1
    ensures a % d == 0 ==> (a - 1) / d == a / d - 1
    ensures a % d != 0 ==> (a - 1) / d == a / d
  {
    var q, r := a / d, a % d;
    assert a == q * d + r;
    if r == 0 {
      DivUnique(a - 1, d, q - 1, d - 1);
    } else {
      DivUnique(a - 1, d, q, r - 1);
    }
  }

  lemma DivUnique(a: int, d: int, q: int, r: int)
    requires d >= 1 && 0 <= r < d && a == q * d + r
    ensures a / d == q && a % d == r
  {
    var q', r' := a / d, a % d;
    assert a == q' * d + r';
    if q' > q {
      MulAtLeast(q' - q, d);
    } else if q' < q {
      MulAtLeast(q - q', d);
    }
  }

  lemma MulAtLeast(x: int, d: int)
    requires x >= 1 && d >= 1
    ensures x * d >= d
  {
  }

  /** The rows of a schedule in terms of the year bookkeeping: each row's year is
      that of its payment number, and the year's interest restarts at the row's
      interest in the first row of a year and grows by it in any other. */
  predicate YearChain(s: seq<Row>, paymentsPerYear: int, first: int, annualBefore: int)
    requires paymentsPerYear >= 1
  {
    forall i :: 0 <= i < |s| ==>
      s[i].year == YearOf(first + i, paymentsPerYear) &&
      s[i].annualInterest == AnnualAfter(AnnualBefore(annualBefore, s, i), s[i].interest, first + i, paymentsPerYear)
  }

  lemma {:induction false} ScheduleYears(plan: Plan, st: State, paymentNumber: int, left: nat)
    requires ValidPlan(plan) && plan.principal != 0 && YearState(st, paymentNumber, plan.paymentsPerYear)
    ensures YearChain(Schedule(plan, st, paymentNumber, left), plan.paymentsPerYear, paymentNumber, st.annualInterest)
    decreases left
  {
    var s := Schedule(plan, st, paymentNumber, left);
    if left > 0 {
      var (row, next) := Step(plan, st, paymentNumber);
      ScheduleUnfold(plan, st, paymentNumber, left, row, next);
      AnnualStep(st, row.interest, paymentNumber, plan.paymentsPerYear);
      if row.remainingBalance != 0 {
        var rest := Schedule(plan, next, paymentNumber + 1, left - 1);
        ScheduleYears(plan, next, paymentNumber + 1, left - 1);
        assert s == [row] + rest;
        ChainCons(row, rest, plan.paymentsPerYear, paymentNumber, st.annualInterest);
      }
    }
  }

  /** A first row that keeps the year bookkeeping, followed by a chain that starts
      from it, is a chain. */
  lemma ChainCons(row: Row, rest: seq<Row>, paymentsPerYear: int, first: int, annualBefore: int)
    requires paymentsPerYear >= 1
    requires row.year == YearOf(first, paymentsPerYear)
    requires row.annualInterest == AnnualAfter(annualBefore, row.interest, first, paymentsPerYear)
    requires YearChain(rest, paymentsPerYear, first + 1, row.annualInterest)
    ensures YearChain([row] + rest, paymentsPerYear, first, annualBefore)
  {
    var s := [row] + rest;
    forall i | 0 <= i < |s|
      ensures s[i].year == YearOf(first + i, paymentsPerYear)
      ensures s[i].annualInterest == AnnualAfter(AnnualBefore(annualBefore, s, i), s[i].interest, first + i, paymentsPerYear)
    {
      if i > 0 {
        assert s[i] == rest[i - 1];
        assert first + i == first + 1 + (i - 1);
        assert AnnualBefore(annualBefore, s, i) == AnnualBefore(row.annualInterest, rest, i - 1);
      }
    }
  }

  /** The interest of rows `lo` up to (not including) `hi`. */
  function InterestSum(s: seq<Row>, lo: int, hi: int): int
    requires 0 <= lo <= hi <= |s|
    decreases hi - lo
  {
    if lo == hi then 0 else InterestSum(s, lo, hi - 1) + s[hi - 1].interest
  }

  /** From period 1 with no interest yet, a row's interest to date is the sum of
      the interest of the rows up to it. */
  lemma {:induction false} TotalInterestIsSum(st: State, s: seq<Row>, i: int)
    requires st.totalInterest == 0 && 0 <= i < |s|
    requires forall j :: 0 <= j < |s| ==> s[j].totalInterest == InterestBefore(st, s, j) + s[j].interest
    ensures s[i].totalInterest == InterestSum(s, 0, i + 1)
  {
    if i > 0 {
      TotalInterestIsSum(st, s, i - 1);
    }
  }

  /** The index of the first row of row `i`'s year, rows counted from 0. */
  function YearStart(i: nat, paymentsPerYear: int): (r: nat)
    requires paymentsPerYear >= 1
    ensures r <= i && i - r < paymentsPerYear && r % paymentsPerYear == 0
  {
    DivUnique(i, paymentsPerYear, i / paymentsPerYear, i % paymentsPerYear);
    DivUnique(i / paymentsPerYear * paymentsPerYear, paymentsPerYear, i / paymentsPerYear, 0);
    i / paymentsPerYear * paymentsPerYear
  }

  /** A row at a multiple of the frequency opens its year. */
  lemma YearStartAt(i: nat, paymentsPerYear: int)
    requires paymentsPerYear >= 1 && i % paymentsPerYear == 0
    ensures YearStart(i, paymentsPerYear) == i
  {
    DivUnique(i, paymentsPerYear, i / paymentsPerYear, 0);
  }

  /** Any other row belongs to the year of the row before it. */
  lemma YearStartStep(i: nat, paymentsPerYear: int)
    requires paymentsPerYear >= 1 && i >= 1 && i % paymentsPerYear != 0
    ensures YearStart(i, paymentsPerYear) == YearStart(i - 1, paymentsPerYear)
  {
    DivStep(i, paymentsPerYear);
  }

  /** From period 1, a row's year is `i // freq + 1` and its annual interest is the
      sum of the interest of the rows of its year up to it. */
  lemma {:induction false} AnnualInterestIsYearSum(s: seq<Row>, paymentsPerYear: int, i: int)
    requires paymentsPerYear >= 1 && YearChain(s, paymentsPerYear, 1, 0) && 0 <= i < |s|
    ensures s[i].year == i / paymentsPerYear + 1
    ensures s[i].annualInterest == InterestSum(s, YearStart(i, paymentsPerYear), i + 1)
  {
    assert s[i].year == YearOf(1 + i, paymentsPerYear);
    assert s[i].annualInterest == AnnualAfter(AnnualBefore(0, s, i), s[i].interest, 1 + i, paymentsPerYear);
    if i % paymentsPerYear == 0 {
      YearStartAt(i, paymentsPerYear);
    } else {
      YearStartStep(i, paymentsPerYear);
      AnnualInterestIsYearSum(s, paymentsPerYear, i - 1);
    }
  }

  /** `generate_schedule` on a known frequency with some period to visit: at most
      `years * freq` rows numbered from 1, stopping at the first zero balance (and
      only there when it stops early), balances never negative, interest to date
      and annual interest the sums of the interest of all rows and of the year's
      rows so far, year `(n - 1) // freq + 1`. An unknown frequency is a
      `KeyError`; a `calculate_payment` that fails (`PaymentFails`), or a zero
      principal with some period to visit, a `ZeroDivisionError`. */
  lemma GenerateScheduleProperties(principal: int, annualRate: real, years: int, frequency: string, payment: int)
    ensures var r := GenerateScheduleResult(principal, annualRate, years, frequency, payment);
      (r == Err(KeyError(frequency)) <==> frequency !in PaymentFrequencies) &&
      (r == Err(ZeroDivisionError) <==>
        frequency in PaymentFrequencies &&
        (PaymentFails(annualRate, years, PaymentFrequencies[frequency]) ||
         (principal == 0 && PeriodCount(years, PaymentFrequencies[frequency]) > 0)))
    ensures var r := GenerateScheduleResult(principal, annualRate, years, frequency, payment);
      r.Ok? ==> (frequency in PaymentFrequencies &&
        StartedScheduleFacts(r.value, PaymentFrequencies[frequency], PeriodCount(years, PaymentFrequencies[frequency])))
  {
    var r := GenerateScheduleResult(principal, annualRate, years, frequency, payment);
    if frequency in PaymentFrequencies {
      var ppy := PaymentFrequencies[frequency];
      var count := PeriodCount(years, ppy);
      if count > 0 && principal != 0 && !PaymentFails(annualRate, years, ppy) {
        var plan := PlanFor(principal, annualRate, ppy);
        StartedSchedule(plan, payment, count, Schedule(plan, Start(principal, payment), 1, count));
      }
    }
  }

  /** What `generate_schedule` promises of the rows it returns, for a frequency of
      `ppy` payments a year and `count` periods to visit. */
  ghost predicate StartedScheduleFacts(s: seq<Row>, ppy: int, count: nat)
    requires ppy >= 1
  {
    |s| <= count && (|s| == 0 <==> count == 0) &&
    (forall i :: 0 <= i < |s| - 1 ==> s[i].remainingBalance > 0) &&
    (0 < |s| < count ==> s[|s| - 1].remainingBalance == 0) &&
    (forall i :: 0 <= i < |s| ==> s[i].paymentNumber == i + 1 && s[i].remainingBalance >= 0) &&
    YearSums(s, ppy)
  }

  /** Rows from period 1: year `i // freq + 1`, interest to date the sum of all
      interest so far, annual interest the sum of the year's interest so far. */
  ghost predicate YearSums(s: seq<Row>, ppy: int)
    requires ppy >= 1
  {
    forall i :: 0 <= i < |s| ==>
      s[i].year == i / ppy + 1 &&
      s[i].totalInterest == InterestSum(s, 0, i + 1) &&
      s[i].annualInterest == InterestSum(s, YearStart(i, ppy), i + 1)
  }

  /** The schedule from period 1 keeps those promises. */
  lemma StartedSchedule(plan: Plan, payment: int, count: nat, s: seq<Row>)
    requires ValidPlan(plan) && plan.principal != 0
    requires s == Schedule(plan, Start(plan.principal, payment), 1, count)
    ensures StartedScheduleFacts(s, plan.paymentsPerYear, count)
  {
    var st := Start(plan.principal, payment);
    ScheduleShape(plan, st, 1, count);
    ScheduleNonNegative(plan, st, 1, count, s);
    StartedSums(plan, payment, count, s);
  }

  /** No row of a schedule has a negative balance. */
  lemma ScheduleNonNegative(plan: Plan, st: State, paymentNumber: int, left: nat, s: seq<Row>)
    requires ValidPlan(plan) && plan.principal != 0
    requires s == Schedule(plan, st, paymentNumber, left)
    ensures forall i :: 0 <= i < |s| ==> s[i].remainingBalance >= 0
  {
    ScheduleBalances(plan, st, paymentNumber, left);
    forall i | 0 <= i < |s|
      ensures s[i].remainingBalance >= 0
    {
      assert RowFollows(plan, st.payment, Opening(st, s, i), s[i]);
    }
  }

  lemma StartedSums(plan: Plan, payment: int, count: nat, s: seq<Row>)
    requires ValidPlan(plan) && plan.principal != 0
    requires s == Schedule(plan, Start(plan.principal, payment), 1, count)
    ensures YearSums(s, plan.paymentsPerYear)
  {
    var st := Start(plan.principal, payment);
    var ppy := plan.paymentsPerYear;
    ScheduleInterest(plan, st, 1, count);
    ScheduleYears(plan, st, 1, count);
    forall i | 0 <= i < |s|
      ensures s[i].year == i / ppy + 1 && s[i].totalInterest == InterestSum(s, 0, i + 1)
      ensures s[i].annualInterest == InterestSum(s, YearStart(i, ppy), i + 1)
    {
      TotalInterestIsSum(st, s, i);
      AnnualInterestIsYearSum(s, ppy, i);
    }
  }

  // ---------------------------------------------------------------------------
  // generate_schedule_with_payment

  /** The payment of `generate_schedule_with_payment`, in cents: the fixed payment
      rounded to cents, raised to the minimum when below it; the minimum when
      there is no fixed payment. */
  function FixedPayment(fixedPayment: Option<real>, minPayment: int): (r: int)
    ensures r >= minPayment
    ensures fixedPayment.None? ==> r == minPayment
    ensures fixedPayment.Some? ==>
      (r == minPayment || r == RoundHalfEven(fixedPayment.value)) &&
      (RoundHalfEven(fixedPayment.value) >= minPayment ==> r == RoundHalfEven(fixedPayment.value))
  {
    var payment := if fixedPayment.Some? then RoundHalfEven(fixedPayment.value) else minPayment;
    if payment < minPayment then minPayment else payment
  }

  /** Python's `min(a, b)`: `b` when it is smaller, `a` otherwise. */
  function Min(a: int, b: int): (r: int)
    ensures r <= a && r <= b && (r == a || r == b)
  {
    if b < a then b else a
  }

  /** `years * freq * 2`: the payment number after which the loop gives up. */
  function SafetyLimit(years: int, paymentsPerYear: int): int {
    years * paymentsPerYear * 2
  }

  /** One period of `generate_schedule_with_payment`: the principal is the smaller
      of the payment's principal portion and the balance; the adjustment for a
      principal above the balance is written out as in the source. */
  function FixedStep(plan: Plan, st: State, paymentNumber: int): (Row, State)
    requires ValidPlan(plan) && plan.principal != 0
  {
    var interest := InterestOn(st.balance, plan.periodicRate);
    var portion := Min(st.payment - interest, st.balance);
    var principalPayment := if portion > st.balance then st.balance else portion;
    var payment := if portion > st.balance then interest + principalPayment else st.payment;
    var balance := st.balance - principalPayment;
    var totalInterest := st.totalInterest + interest;
    var currentYear := YearOf(paymentNumber, plan.paymentsPerYear);
    var (annual, yearNumber) := AnnualUpdate(st, interest, currentYear);
    (Row(paymentNumber, payment, principalPayment, interest, balance, totalInterest, annual,
       LoanPaid(plan.principal, balance), currentYear),
     State(balance, totalInterest, annual, yearNumber, payment))
  }

  /** The periods from `paymentNumber` on while the balance is positive, giving up
      after the period whose number exceeds `limit`. */
  function FixedSchedule(plan: Plan, st: State, paymentNumber: int, limit: int): (s: seq<Row>)
    requires ValidPlan(plan) && (plan.principal != 0 || st.balance <= 0)
    decreases if paymentNumber <= limit then limit - paymentNumber + 1 else 0
  {
    if st.balance <= 0 then [] else
    var (row, next) := FixedStep(plan, st, paymentNumber);
    if paymentNumber > limit then [row]
    else [row] + FixedSchedule(plan, next, paymentNumber + 1, limit)
  }

  /** `generate_schedule_with_payment` with `minPayment` the value
      `calculate_payment` returns for the same arguments. */
  function FixedScheduleResult(
    principal: int, annualRate: real, years: int, frequency: string, minPayment: int, fixedPayment: Option<real>)
    : Result<seq<Row>>
  {
    match PaymentsPerYear(frequency)
    case Err(failure) => Err(failure)
    case Ok(ppy) =>
      if PaymentFails(annualRate, years, ppy) then Err(ZeroDivisionError)
      else Ok(FixedSchedule(PlanFor(principal, annualRate, ppy), Start(principal, FixedPayment(fixedPayment, minPayment)),
        1, SafetyLimit(years, ppy)))
  }

  lemma FixedScheduleUnfold(plan: Plan, st: State, paymentNumber: int, limit: int, row: Row, next: State)
    requires ValidPlan(plan) && plan.principal != 0 && st.balance > 0
    requires FixedStep(plan, st, paymentNumber) == (row, next)
    ensures FixedSchedule(plan, st, paymentNumber, limit) ==
      if paymentNumber > limit then [row] else [row] + FixedSchedule(plan, next, paymentNumber + 1, limit)
  {
  }

  /** The values the loop body of `generate_schedule_with_payment` computes are
      those of `FixedStep`. */
  lemma FixedLoopBodyIsStep(plan: Plan, st: State, paymentNumber: int, portion: int, row: Row, next: State)
    requires ValidPlan(plan) && plan.principal != 0
    requires row.interest == InterestOn(st.balance, plan.periodicRate)
    requires portion == Min(st.payment - row.interest, st.balance)
    requires portion > st.balance ==> row.principal == st.balance && row.payment == row.interest + st.balance
    requires !(portion > st.balance) ==> row.principal == portion && row.payment == st.payment
    requires row.remainingBalance == st.balance - row.principal
    requires row.totalInterest == st.totalInterest + row.interest
    requires row.year == YearOf(paymentNumber, plan.paymentsPerYear)
    requires (row.annualInterest, next.yearNumber) == AnnualUpdate(st, row.interest, row.year)
    requires row.paymentNumber == paymentNumber && row.loanPaid == LoanPaid(plan.principal, row.remainingBalance)
    requires next == State(row.remainingBalance, row.totalInterest, row.annualInterest, next.yearNumber, row.payment)
    ensures FixedStep(plan, st, paymentNumber) == (row, next)
  {
  }

  /** One pass of the `while` loop of `generate_schedule_with_payment`: the row it
      appends and the variables it leaves behind. */
  method FixedPeriod(plan: Plan, st: State, paymentNumber: int) returns (row: Row, next: State)
    requires ValidPlan(plan) && plan.principal != 0
    ensures (row, next) == FixedStep(plan, st, paymentNumber)
  {
    var payment := st.payment;
    var interestPayment := InterestOn(st.balance, plan.periodicRate);
    var portion := Min(payment - interestPayment, st.balance);
    var principalPayment := portion;
    if principalPayment > st.balance {
      principalPayment := st.balance;
      payment := interestPayment + principalPayment;
    }
    var remainingBalance := st.balance - principalPayment;
    var totalInterest := st.totalInterest + interestPayment;
    var annualInterest := st.annualInterest + interestPayment;
    var yearNumber := st.yearNumber;
    var currentYear := (paymentNumber - 1) / plan.paymentsPerYear + 1;
    if currentYear != yearNumber {
      annualInterest := interestPayment;
      yearNumber := currentYear;
    }
    row := Row(paymentNumber, payment, principalPayment, interestPayment, remainingBalance, totalInterest,
      annualInterest, LoanPaid(plan.principal, remainingBalance), currentYear);
    next := State(remainingBalance, totalInterest, annualInterest, yearNumber, payment);
    FixedLoopBodyIsStep(plan, st, paymentNumber, portion, row, next);
  }

  /** The `while balance > 0` loop of `generate_schedule_with_payment` at the
      payment it settled on, breaking after the row whose number exceeds `limit`. */
  method FixedLoop(plan: Plan, payment: int, limit: int) returns (payments: seq<Row>)
    requires ValidPlan(plan)
    ensures payments == FixedSchedule(plan, Start(plan.principal, payment), 1, limit)
  {
    payments := [];
    var st := Start(plan.principal, payment);
    ghost var whole := FixedSchedule(plan, st, 1, limit);
    var paymentNumber := 1;
    while st.balance > 0
      invariant |payments| == paymentNumber - 1
      invariant plan.principal != 0 || st.balance <= 0
      invariant whole == payments + FixedSchedule(plan, st, paymentNumber, limit)
      decreases if paymentNumber <= limit then limit - paymentNumber + 1 else 0
    {
      var row, next := FixedPeriod(plan, st, paymentNumber);
      FixedScheduleUnfold(plan, st, paymentNumber, limit, row, next);
      Regroup(payments, row, FixedSchedule(plan, next, paymentNumber + 1, limit));
      payments := payments + [row];
      st := next;
      if paymentNumber > limit {
        break;
      }
      paymentNumber := paymentNumber + 1;
    }
  }

  /** `generate_schedule_with_payment`. */
  method GenerateScheduleWithPayment(
    principal: int, annualRate: real, years: int, frequency: string, minPayment: int, fixedPayment: Option<real>)
    returns (r: Result<seq<Row>>)
    ensures r == FixedScheduleResult(principal, annualRate, years, frequency, minPayment, fixedPayment)
  {
    if frequency !in PaymentFrequencies {
      return Err(KeyError(frequency));
    }
    var ppy := PaymentFrequencies[frequency];
    if PaymentFails(annualRate, years, ppy) {
      return Err(ZeroDivisionError);
    }
    var payment := FixedPayment(fixedPayment, minPayment);
    var rows := FixedLoop(PlanFor(principal, annualRate, ppy), payment, SafetyLimit(years, ppy));
    return Ok(rows);
  }

  // ---------------------------------------------------------------------------
  // Properties of generate_schedule_with_payment

  /** A fixed-payment schedule is empty exactly when the balance is not positive;
      it numbers its rows on, has at most one row past `limit`, keeps a positive
      balance until its last row, and ends at a balance of 0 or at the limit. */
  lemma {:induction false} FixedShape(plan: Plan, st: State, paymentNumber: int, limit: int)
    requires ValidPlan(plan) && (plan.principal != 0 || st.balance <= 0)
    ensures var s := FixedSchedule(plan, st, paymentNumber, limit);
      (s == [] <==> st.balance <= 0) &&
      |s| <= (if paymentNumber <= limit then limit - paymentNumber + 1 else 0) + 1 &&
      (forall i :: 0 <= i < |s| ==> s[i].paymentNumber == paymentNumber + i) &&
      (forall i :: 0 <= i < |s| - 1 ==> s[i].remainingBalance > 0) &&
      (s != [] ==> s[|s| - 1].remainingBalance <= 0 || paymentNumber + |s| - 1 > limit)
    decreases if paymentNumber <= limit then limit - paymentNumber + 1 else 0
  {
    if st.balance > 0 {
      var (row, next) := FixedStep(plan, st, paymentNumber);
      FixedScheduleUnfold(plan, st, paymentNumber, limit, row, next);
      if paymentNumber <= limit {
        FixedShape(plan, next, paymentNumber + 1, limit);
      }
    }
  }

  /** A fixed-payment row from a positive opening balance: interest on the
      opening balance, principal the smaller of the payment's principal portion
      and the balance, a balance that drops by it and stays non-negative, and the
      full payment reported, since the adjustment for a principal above the
      balance can never fire after the `min`. */
  predicate FixedRowFollows(plan: Plan, payment: int, opening: int, row: Row) {
    row.interest == InterestOn(opening, plan.periodicRate) &&
    row.principal == Min(payment - row.interest, opening) &&
    row.payment == payment &&
    row.remainingBalance == opening - row.principal && row.remainingBalance >= 0
  }

  lemma FixedStepAmounts(plan: Plan, st: State, paymentNumber: int)
    requires ValidPlan(plan) && plan.principal != 0 && st.balance > 0
    ensures var (row, next) := FixedStep(plan, st, paymentNumber);
      FixedRowFollows(plan, st.payment, st.balance, row) &&
      row.totalInterest == st.totalInterest + row.interest &&
      next.balance == row.remainingBalance && next.totalInterest == row.totalInterest &&
      next.annualInterest == row.annualInterest && next.payment == st.payment
  {
  }

  lemma {:induction false} FixedBalances(plan: Plan, st: State, paymentNumber: int, limit: int)
    requires ValidPlan(plan) && (plan.principal != 0 || st.balance <= 0)
    ensures var s := FixedSchedule(plan, st, paymentNumber, limit);
      forall i :: 0 <= i < |s| ==> FixedRowFollows(plan, st.payment, Opening(st, s, i), s[i])
    decreases if paymentNumber <= limit then limit - paymentNumber + 1 else 0
  {
    var s := FixedSchedule(plan, st, paymentNumber, limit);
    if st.balance > 0 {
      var (row, next) := FixedStep(plan, st, paymentNumber);
      FixedScheduleUnfold(plan, st, paymentNumber, limit, row, next);
      FixedStepAmounts(plan, st, paymentNumber);
      if paymentNumber <= limit {
        var rest := FixedSchedule(plan, next, paymentNumber + 1, limit);
        FixedBalances(plan, next, paymentNumber + 1, limit);
        assert s == [row] + rest;
        forall i | 1 <= i < |s|
          ensures s[i] == rest[i - 1] && Opening(st, s, i) == Opening(next, rest, i - 1)
        {
        }
      }
    }
  }

  lemma {:induction false} FixedInterest(plan: Plan, st: State, paymentNumber: int, limit: int)
    requires ValidPlan(plan) && (plan.principal != 0 || st.balance <= 0)
    ensures var s := FixedSchedule(plan, st, paymentNumber, limit);
      forall i :: 0 <= i < |s| ==> s[i].totalInterest == InterestBefore(st, s, i) + s[i].interest
    decreases if paymentNumber <= limit then limit - paymentNumber + 1 else 0
  {
    var s := FixedSchedule(plan, st, paymentNumber, limit);
    if st.balance > 0 {
      var (row, next) := FixedStep(plan, st, paymentNumber);
      FixedScheduleUnfold(plan, st, paymentNumber, limit, row, next);
      FixedStepAmounts(plan, st, paymentNumber);
      if paymentNumber <= limit {
        var rest := FixedSchedule(plan, next, paymentNumber + 1, limit);
        FixedInterest(plan, next, paymentNumber + 1, limit);
        assert s == [row] + rest;
        forall i | 1 <= i < |s|
          ensures s[i] == rest[i - 1] && InterestBefore(st, s, i) == InterestBefore(next, rest, i - 1)
        {
        }
      }
    }
  }

  lemma {:induction false} FixedYears(plan: Plan, st: State, paymentNumber: int, limit: int)
    requires ValidPlan(plan) && (plan.principal != 0 || st.balance <= 0)
    requires YearState(st, paymentNumber, plan.paymentsPerYear)
    ensures YearChain(FixedSchedule(plan, st, paymentNumber, limit), plan.paymentsPerYear, paymentNumber, st.annualInterest)
    decreases if paymentNumber <= limit then limit - paymentNumber + 1 else 0
  {
    var s := FixedSchedule(plan, st, paymentNumber, limit);
    if st.balance > 0 {
      var (row, next) := FixedStep(plan, st, paymentNumber);
      FixedScheduleUnfold(plan, st, paymentNumber, limit, row, next);
      AnnualStep(st, row.interest, paymentNumber, plan.paymentsPerYear);
      if paymentNumber <= limit {
        var rest := FixedSchedule(plan, next, paymentNumber + 1, limit);
        FixedYears(plan, next, paymentNumber + 1, limit);
        assert s == [row] + rest;
        ChainCons(row, rest, plan.paymentsPerYear, paymentNumber, st.annualInterest);
      } else {
        ChainCons(row, [], plan.paymentsPerYear, paymentNumber, st.annualInterest);
      }
    } else {
      assert s == [];
    }
  }

  /** What `generate_schedule_with_payment` promises of the rows it returns, for
      `ppy` payments a year, payment `payment` and safety limit `limit`. */
  ghost predicate FixedScheduleFacts(s: seq<Row>, principal: int, ppy: int, payment: int, limit: int)
    requires ppy >= 1
  {
    (s == [] <==> principal <= 0) &&
    |s| <= (if limit >= 1 then limit else 0) + 1 &&
    (forall i :: 0 <= i < |s| - 1 ==> s[i].remainingBalance > 0) &&
    (s != [] ==> s[|s| - 1].remainingBalance == 0 || |s| > limit) &&
    (forall i :: 0 <= i < |s| ==>
      s[i].paymentNumber == i + 1 && s[i].payment == payment && s[i].remainingBalance >= 0) &&
    YearSums(s, ppy)
  }

  /** The fixed-payment schedule from period 1 keeps those promises. */
  lemma FixedStarted(plan: Plan, payment: int, limit: int, s: seq<Row>)
    requires ValidPlan(plan)
    requires s == FixedSchedule(plan, Start(plan.principal, payment), 1, limit)
    ensures FixedScheduleFacts(s, plan.principal, plan.paymentsPerYear, payment, limit)
  {
    var st := Start(plan.principal, payment);
    FixedShape(plan, st, 1, limit);
    FixedBalances(plan, st, 1, limit);
    forall i | 0 <= i < |s|
      ensures s[i].payment == payment && s[i].remainingBalance >= 0
    {
      assert FixedRowFollows(plan, st.payment, Opening(st, s, i), s[i]);
    }
    FixedStartedSums(plan, payment, limit, s);
  }

  lemma FixedStartedSums(plan: Plan, payment: int, limit: int, s: seq<Row>)
    requires ValidPlan(plan)
    requires s == FixedSchedule(plan, Start(plan.principal, payment), 1, limit)
    ensures YearSums(s, plan.paymentsPerYear)
  {
    var st := Start(plan.principal, payment);
    var ppy := plan.paymentsPerYear;
    FixedInterest(plan, st, 1, limit);
    FixedYears(plan, st, 1, limit);
    forall i | 0 <= i < |s|
      ensures s[i].year == i / ppy + 1 && s[i].totalInterest == InterestSum(s, 0, i + 1)
      ensures s[i].annualInterest == InterestSum(s, YearStart(i, ppy), i + 1)
    {
      TotalInterestIsSum(st, s, i);
      AnnualInterestIsYearSum(s, ppy, i);
    }
  }

  /** `generate_schedule_with_payment`: an unknown frequency is a `KeyError`, a
      `calculate_payment` that fails (`PaymentFails`) a `ZeroDivisionError`;
      otherwise the rows are empty exactly when the principal is not positive,
      number at most `years * freq * 2 + 1`, keep a positive balance until the
      last, which ends at 0 unless the safety limit was passed; every row reports
      the payment, which is the fixed payment rounded to cents but never below the
      minimum; interest to date and annual interest are the sums as in
      `generate_schedule`. */
  lemma FixedScheduleProperties(
    principal: int, annualRate: real, years: int, frequency: string, minPayment: int, fixedPayment: Option<real>)
    ensures var r := FixedScheduleResult(principal, annualRate, years, frequency, minPayment, fixedPayment);
      (r == Err(KeyError(frequency)) <==> frequency !in PaymentFrequencies) &&
      (r == Err(ZeroDivisionError) <==>
        frequency in PaymentFrequencies && PaymentFails(annualRate, years, PaymentFrequencies[frequency])) &&
      (r.Ok? ==> (frequency in PaymentFrequencies &&
        FixedScheduleFacts(r.value, principal, PaymentFrequencies[frequency],
          FixedPayment(fixedPayment, minPayment), SafetyLimit(years, PaymentFrequencies[frequency]))))
  {
    if frequency in PaymentFrequencies {
      var ppy := PaymentFrequencies[frequency];
      var plan := PlanFor(principal, annualRate, ppy);
      var payment := FixedPayment(fixedPayment, minPayment);
      FixedStarted(plan, payment, SafetyLimit(years, ppy), FixedSchedule(plan, Start(principal, payment), 1, SafetyLimit(years, ppy)));
    }
  }

  // ---------------------------------------------------------------------------
  // calculate_comparison_scenarios

  /** One increased-payment scenario; money in cents, years as fractions. */
  datatype Comparison = Comparison(
    increasePercentage: int,
    newPayment: real,
    yearsToPay: real,
    interestSavings: int,
    timeSaved: real,
    totalPaid: int,
    totalSaved: int)

  /** The percentage increases, in order. */
  const Increases: seq<int> := [10, 25, 50]

  /** `base_payment * (1 + increase / 100)`, in cents, not rounded. */
  function IncreasedPayment(basePayment: int, increase: int): real {
    basePayment as real * (1.0 + increase as real / 100.0)
  }

  /** `len(schedule) / freq`. */
  function YearsOf(count: int, paymentsPerYear: int): real
    requires paymentsPerYear >= 1
  {
    count as real / paymentsPerYear as real
  }

  /** The interest of a non-empty schedule: its last row's interest to date. */
  function TotalInterestOf(s: seq<Row>): int
    requires s != []
  {
    s[|s| - 1].totalInterest
  }

  /** One pass of the loop: the fixed-payment schedule for the increased payment,
      skipped when empty, compared with the base schedule. */
  function IncreasedScenario(plan: Plan, basePayment: int, limit: int, base: seq<Row>, increase: int): Option<Comparison>
    requires ValidPlan(plan) && base != []
  {
    var increasedPayment := IncreasedPayment(basePayment, increase);
    var increased :=
      FixedSchedule(plan, Start(plan.principal, FixedPayment(Some(increasedPayment), basePayment)), 1, limit);
    if increased == [] then None
    else
      var baseTotalInterest := TotalInterestOf(base);
      var baseYears := YearsOf(|base|, plan.paymentsPerYear);
      var baseTotalPaid := plan.principal + baseTotalInterest;
      var increasedTotalInterest := TotalInterestOf(increased);
      var increasedYears := YearsOf(|increased|, plan.paymentsPerYear);
      var increasedTotalPaid := plan.principal + increasedTotalInterest;
      Some(Comparison(increase, increasedPayment, increasedYears, baseTotalInterest - increasedTotalInterest,
        baseYears - increasedYears, increasedTotalPaid, baseTotalPaid - increasedTotalPaid))
  }

  /** The scenarios for a run of increases, in order, skipping the empty ones. */
  function ComparisonsFor(plan: Plan, basePayment: int, limit: int, base: seq<Row>, increases: seq<int>)
    : seq<Comparison>
    requires ValidPlan(plan) && base != []
  {
    if increases == [] then [] else
    var front := ComparisonsFor(plan, basePayment, limit, base, increases[..|increases| - 1]);
    match IncreasedScenario(plan, basePayment, limit, base, increases[|increases| - 1])
    case None => front
    case Some(c) => front + [c]
  }

  /** `calculate_comparison_scenarios` with `basePayment` the value
      `calculate_payment` returns for the same arguments. */
  function ComparisonsResult(principal: int, annualRate: real, years: int, frequency: string, basePayment: int)
    : Result<seq<Comparison>>
  {
    match GenerateScheduleResult(principal, annualRate, years, frequency, basePayment)
    case Err(failure) => Err(failure)
    case Ok(base) =>
      if base == [] then Ok([])
      else
        var ppy := PaymentFrequencies[frequency];
        Ok(ComparisonsFor(PlanFor(principal, annualRate, ppy), basePayment, SafetyLimit(years, ppy), base, Increases))
  }

  /** One pass of the loop of `calculate_comparison_scenarios`: the scenario for
      one increase, or none when its schedule is empty. The base figures are those
      computed before the loop. */
  method IncreasedComparison(
    plan: Plan, basePayment: int, limit: int, baseSchedule: seq<Row>, increase: int,
    baseTotalInterest: int, baseYears: real, baseTotalPaid: int)
    returns (scenario: Option<Comparison>)
    requires ValidPlan(plan) && baseSchedule != []
    requires baseTotalInterest == TotalInterestOf(baseSchedule)
    requires baseYears == YearsOf(|baseSchedule|, plan.paymentsPerYear)
    requires baseTotalPaid == plan.principal + baseTotalInterest
    ensures scenario == IncreasedScenario(plan, basePayment, limit, baseSchedule, increase)
  {
    var increasedPayment := IncreasedPayment(basePayment, increase);
    var increasedSchedule := FixedLoop(plan, FixedPayment(Some(increasedPayment), basePayment), limit);
    if |increasedSchedule| == 0 {
      return None;
    }
    var increasedTotalInterest := increasedSchedule[|increasedSchedule| - 1].totalInterest;
    var increasedYears := |increasedSchedule| as real / plan.paymentsPerYear as real;
    var increasedTotalPaid := plan.principal + increasedTotalInterest;
    var interestSavings := baseTotalInterest - increasedTotalInterest;
    var timeSaved := baseYears - increasedYears;
    return Some(Comparison(increase, increasedPayment, increasedYears, interestSavings, timeSaved,
      increasedTotalPaid, baseTotalPaid - increasedTotalPaid));
  }

  /** `calculate_comparison_scenarios`. */
  method CalculateComparisonScenarios(principal: int, annualRate: real, years: int, frequency: string, basePayment: int)
    returns (r: Result<seq<Comparison>>)
    ensures r == ComparisonsResult(principal, annualRate, years, frequency, basePayment)
  {
    var baseResult := GenerateSchedule(principal, annualRate, years, frequency, basePayment);
    if baseResult.Err? {
      return Err(baseResult.failure);
    }
    var baseSchedule := baseResult.value;
    if |baseSchedule| == 0 {
      return Ok([]);
    }
    var ppy := PaymentFrequencies[frequency];
    var plan := PlanFor(principal, annualRate, ppy);
    var limit := SafetyLimit(years, ppy);
    var baseTotalInterest := baseSchedule[|baseSchedule| - 1].totalInterest;
    var baseYears := |baseSchedule| as real / ppy as real;
    var baseTotalPaid := principal + baseTotalInterest;
    var scenarios: seq<Comparison> := [];
    var increases := Increases;
    for k := 0 to |increases|
      invariant scenarios == ComparisonsFor(plan, basePayment, limit, baseSchedule, increases[..k])
    {
      var scenario := IncreasedComparison(plan, basePayment, limit, baseSchedule, increases[k],
        baseTotalInterest, baseYears, baseTotalPaid);
      assert increases[..k + 1][..k] == increases[..k];
      if scenario.None? {
        continue;
      }
      scenarios := scenarios + [scenario.value];
    }
    assert increases[..|increases|] == increases;
    return Ok(scenarios);
  }

  /** Each scenario of a run is for its increase, in order, and exists exactly
      when the principal is positive; its payment is the increased payment, its
      years the increased schedule's length over the frequency, its time saved
      measured from the base schedule's length (not the term), and its total
      saved equal to its interest saved, the principal cancelling out. */
  lemma {:induction false} ComparisonsForShape(plan: Plan, basePayment: int, limit: int, base: seq<Row>, increases: seq<int>)
    requires ValidPlan(plan) && base != []
    ensures var r := ComparisonsFor(plan, basePayment, limit, base, increases);
      (plan.principal <= 0 ==> r == []) &&
      (plan.principal > 0 ==> |r| == |increases|) &&
      forall k :: 0 <= k < |r| ==>
        (plan.principal > 0 ==> r[k].increasePercentage == increases[k]) &&
        r[k].newPayment == IncreasedPayment(basePayment, r[k].increasePercentage) &&
        r[k].timeSaved == YearsOf(|base|, plan.paymentsPerYear) - r[k].yearsToPay &&
        r[k].totalSaved == r[k].interestSavings &&
        r[k].totalPaid == plan.principal + TotalInterestOf(base) - r[k].interestSavings
  {
    if increases != [] {
      var last := increases[|increases| - 1];
      ComparisonsForShape(plan, basePayment, limit, base, increases[..|increases| - 1]);
      var payment := FixedPayment(Some(IncreasedPayment(basePayment, last)), basePayment);
      FixedShape(plan, Start(plan.principal, payment), 1, limit);
    }
  }

  /** `calculate_comparison_scenarios`: the base schedule's `KeyError` or
      `ZeroDivisionError` (from `calculate_payment` or a zero principal) passes through; with no base rows or a negative principal
      there are no scenarios; otherwise one per increase of 10, 25 and 50 percent,
      in that order, shaped as `ComparisonsForShape` says. */
  lemma ComparisonsProperties(principal: int, annualRate: real, years: int, frequency: string, basePayment: int)
    ensures var r := ComparisonsResult(principal, annualRate, years, frequency, basePayment);
      (r == Err(KeyError(frequency)) <==> frequency !in PaymentFrequencies) &&
      (r == Err(ZeroDivisionError) <==>
        frequency in PaymentFrequencies &&
        (PaymentFails(annualRate, years, PaymentFrequencies[frequency]) ||
         (principal == 0 && PeriodCount(years, PaymentFrequencies[frequency]) > 0)))
    ensures var r := ComparisonsResult(principal, annualRate, years, frequency, basePayment);
      r.Ok? ==>
        (r.value == [] <==> principal < 0 || PeriodCount(years, PaymentFrequencies[frequency]) == 0) &&
        (r.value != [] ==> |r.value| == 3 && forall k :: 0 <= k < 3 ==> r.value[k].increasePercentage == Increases[k])
  {
    GenerateScheduleProperties(principal, annualRate, years, frequency, basePayment);
    var base := GenerateScheduleResult(principal, annualRate, years, frequency, basePayment);
    if base.Ok? && base.value != [] {
      var ppy := PaymentFrequencies[frequency];
      ComparisonsForShape(PlanFor(principal, annualRate, ppy), basePayment, SafetyLimit(years, ppy), base.value, Increases);
    }
  }

  /** For a known frequency and a rate above -100 % a period, the three entry
      points raise `ZeroDivisionError` exactly when the term has no periods or the
      rate is zero, and `generate_schedule` (with `calculate_comparison_scenarios`
      after it) also for a zero principal with a positive term. */
  lemma ZeroDivisionCases(principal: int, annualRate: real, years: int, frequency: string, payment: int, fixedPayment: Option<real>)
    requires frequency in PaymentFrequencies
    requires annualRate > -100.0 * PaymentFrequencies[frequency] as real
    ensures GenerateScheduleResult(principal, annualRate, years, frequency, payment) == Err(ZeroDivisionError) <==>
      years == 0 || annualRate == 0.0 || (principal == 0 && years > 0)
    ensures ComparisonsResult(principal, annualRate, years, frequency, payment) == Err(ZeroDivisionError) <==>
      years == 0 || annualRate == 0.0 || (principal == 0 && years > 0)
    ensures FixedScheduleResult(principal, annualRate, years, frequency, payment, fixedPayment) == Err(ZeroDivisionError) <==>
      years == 0 || annualRate == 0.0
  {
    var ppy := PaymentFrequencies[frequency];
    PaymentFailsExactly(annualRate, years, ppy);
    assert PeriodCount(years, ppy) > 0 <==> years > 0;
    GenerateScheduleProperties(principal, annualRate, years, frequency, payment);
    ComparisonsProperties(principal, annualRate, years, frequency, payment);
    FixedScheduleProperties(principal, annualRate, years, frequency, payment, fixedPayment);
  }
}
