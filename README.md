# Mortgage calculator: the amortization engine, modelled in Dafny

The mortgage calculator builds a payment-by-payment amortization schedule from a
loan amount, an annual interest rate, a term and a payment frequency. It then
derives three kinds of figures from schedules:

- the scenarios that raise the payment by 10, 25 or 50 percent;
- an additional-payment scenario;
- yearly summaries and the savings between two scenarios.

The repository holds four copies of this engine. They have drifted apart, and
this project models each one as it is written:

| module | copy | money | loop |
|---|---|---|---|
| `DecimalCalculator` | `MortgageCalculator.swift` | `Decimal`, as `real` | `for` that breaks at a zero balance; a fixed-payment `while` with a safety cap |
| `CalculatorService` | `MortgageCalculator/Models/MortgageCalculatorService.swift` | `Double`, as `real` | one shared `generateSchedule` loop, with or without the stop at zero |
| `LumpSumCalculator` | `MortgageCalculator/Services/MortgageCalculator.swift` | `Double`, as `real` | effective payment plus lump sums, stopping at a balance of 0.01 or less |
| `Money` | `Money/app.py` | whole cents (`int`) | Python `round(x, 2)` as round-half-even on cents |

The two Swift `PaymentPeriod` copies compute each period with the same statements.
`Amortization` holds that shared step (`NextPeriod`) and the recursive schedule it
generates (`Run`). It also holds the facts proved about them:

- the balance never goes negative;
- the principal is clamped to the balance;
- `totalInterestPaid` is a running sum;
- `annualInterest` is the sum over the current year so far;
- the year is an integer quotient;
- the schedule's length and where it stops are fixed by the loop's bound.

Each loop is a `method` whose `ensures` ties its result to the recursive
specification function. The properties are then proved as lemmas about that
function.

Smaller modules cover the in-memory data operations around the engine:

- `SavedScenarios`: the saved-scenario store and the import rule of `MortgageCalculator.swift`;
- `ScenarioStore`: the scenario store of `MortgageCalculator/Models/ScenarioStore.swift`;
- `LumpSumEditor`: the lump-sum list editor of `LumpSumPaymentsView.swift`;
- `InputForm`: the ordered input validation and the `calculateResults` guard;
- `Models` and `MortgageModel`: the value types and frequency tables those operate on.

`Common` holds small shared pieces:

- `Option`;
- Swift's `Int(_:)` truncation and `ceil`;
- the year index;
- a stable sort by key;
- `firstIndex`, `removeAll(where:)` and `remove(atOffsets:)`.

Some inputs are not computed by the model:

- The closed-form payment (which uses `pow`) is a parameter everywhere: `periodicPayment`, `minPayment` or `basePayment`. The scenario's `regularPayment` is a parameter too. In `Money` the one way `calculate_payment` fails is modelled: its denominator `(1 + c) ** n - 1` is 0, which raises `ZeroDivisionError` (`Money.PaymentFails`, with a whole-exponent `Money.Pow`).
- Fresh UUIDs, dates, parsed text fields and decoded data are parameters.

`PaymentPeriod` declares no `totalPrincipalPaid`, yet both yearly summaries read
it. Here it is a field that holds the running sum of `principalPayment`.

Each `1...n` range traps when `n < 1`, so the loops that use one require at least
one period. A percentage divided by a zero loan amount gives NaN in Swift, which
the model does not have. So the Swift generators require a non-zero loan. In
Python the same division raises `ZeroDivisionError`, and `Money` returns that as
an error result. So does the division in `calculate_payment`, which every entry
point of `Money/app.py` calls first: for a rate above -100 % a period it fails
exactly when `years` is 0 or the rate is 0.

## Model

| member | source | states |
|---|---|---|
| Common.Trunc | MortgageCalculator/Models/MortgageCalculatorService.swift:126 | `Int(x)` truncates toward zero: the result is the whole part of `x`, below it by less than 1 for positive `x` and above it by less than 1 for negative `x` |
| Common.Ceil | MortgageCalculator.swift:812 | `ceil(x)` is the least integer at or above `x` |
| Common.YearIndex | MortgageCalculator/Models/MortgageCalculatorService.swift:204 | `Int(Double(n - 1) / ppy + 1)` is exactly the integer quotient `(n - 1) / ppy + 1` for every period `n >= 1` |
| Common.YearCount | MortgageCalculator.swift:812 | `Int(ceil(count / ppy))` is the integer ceiling `(count + ppy - 1) / ppy` |
| Common.Max | MortgageCalculator/Models/MortgageCalculatorService.swift:154 | `max(a, b)` is at least both arguments and is one of them |
| Common.SortByKey | MortgageCalculator/Services/MortgageCalculator.swift:28 | `sorted(by:)` on a key returns a permutation of its input, ordered by ascending key |
| Common.InsertByKey | MortgageCalculator/Services/MortgageCalculator.swift:28 | inserting into a sorted sequence keeps it sorted and adds exactly the one element |
| Common.FirstIndex | MortgageCalculator/Models/ScenarioStore.swift:41 | `firstIndex(where:)` returns the position of a match with no match before it, or none when nothing matches |
| Common.Filter | MortgageCalculator/Models/ScenarioStore.swift:48 | `removeAll(where:)` keeps exactly the elements the negated predicate accepts, and keeps no others |
| Common.FilterAppend | MortgageCalculator/Models/ScenarioStore.swift:48 | `removeAll(where:)` keeps the survivors in their order: filtering a concatenation is the concatenation of the filtered parts |
| Common.FilterTwice | MortgageCalculator/Models/ScenarioStore.swift:48 | removing by one predicate and then by another equals removing by both at once |
| Common.RemoveAt | MortgageCalculator.swift:73 | `remove(atOffsets:)` shrinks the list by the number of offsets; every element at a position outside the offsets stays, and every element left was at such a position |
| Common.KeptPositions | MortgageCalculator.swift:73 | the positions that `remove(atOffsets:)` keeps: exactly those outside the offsets, each in range, strictly ascending |
| Common.RemoveAtKeepsOrder | MortgageCalculator.swift:73 | `remove(atOffsets:)` leaves exactly the elements at the kept positions, in ascending order of position |
| Common.ReplaceFirst | MortgageCalculator.swift:77-82 | replacing the first element that matches keeps the length; with no match the list is unchanged, otherwise exactly the first match's position changes |
| Amortization.AmortizingPaymentPositive | MortgageCalculator/Models/MortgageCalculatorService.swift:191-192 | a payment above the interest on a positive loan is positive |
| Amortization.PercentagePaid | MortgageCalculator/Models/MortgageCalculatorService.swift:227 | the percentage paid times the loan is 100 times the principal repaid |
| Amortization.CarryAfter | MortgageCalculator/Models/MortgageCalculatorService.swift:189-233 | what the loop carries into the next period: the remaining balance, the interest total, the annual interest and its year, the principal total, as the period reports them |
| Amortization.NextPeriod | MortgageCalculator/Models/MortgageCalculatorService.swift:191-229 | one period: interest on the opening balance; principal at most the balance, and either all of it or payment less interest; balance never negative; running totals grow by the period's amounts; year `(n - 1) / ppy + 1`; `payment` is the full payment in the Decimal standard schedule, principal plus interest otherwise |
| Amortization.LoopBodyIsNextPeriod | MortgageCalculator/Models/MortgageCalculatorService.swift:191-229 | the loop body's assignments, taken in order, produce the period `NextPeriod` specifies |
| Amortization.Run | MortgageCalculator/Models/MortgageCalculatorService.swift:189-237 | a loop of `left` iterations yields at most `left` periods, at least one when `left > 0`, and exactly `left` when it does not stop at a zero balance |
| Amortization.RunIsChained | MortgageCalculator/Models/MortgageCalculatorService.swift:189-237 | every period of the schedule is the step applied to what the previous period left |
| Amortization.Chained | MortgageCalculator/Models/MortgageCalculatorService.swift:189-237 | the loop invariant of every generator: each period is `NextPeriod` applied to what the previous period left, numbered on; `RunIsChained` and `ChainedIsRun` prove it equivalent to `Run` |
| Amortization.ChainedAt | MortgageCalculator/Models/MortgageCalculatorService.swift:189-237 | a chained schedule's period `i` is the step applied to the state before it |
| Amortization.ChainedSnoc | MortgageCalculator/Models/MortgageCalculatorService.swift:231 | appending the next period keeps a schedule chained |
| Amortization.ChainedTail | MortgageCalculator/Models/MortgageCalculatorService.swift:189-237 | the rest of a chained schedule is chained from the first period's state |
| Amortization.ChainedIsRun | MortgageCalculator/Models/MortgageCalculatorService.swift:234-236 | a chained schedule that stopped only where the loop may stop is the loop's schedule |
| Amortization.RunStopsAtFirstZero | MortgageCalculator.swift:630-632 | with the stop at zero, no period but the last has a zero balance, and a schedule shorter than its bound ends at a zero balance |
| Amortization.SumPrincipalSplit | MortgageCalculator.swift:834-837 | the principal of a prefix is that of a shorter prefix plus that of the block between |
| Amortization.SumInterestSplit | MortgageCalculator.swift:834-837 | the interest of a prefix is that of a shorter prefix plus that of the block between |
| Amortization.NextPeriodBalance | MortgageCalculator/Models/MortgageCalculatorService.swift:191-215 | under an amortizing payment one period keeps the balance between 0 and where it was, lowers it while it is positive, and has no negative portion |
| Amortization.InterestBelowPayment | MortgageCalculator/Models/MortgageCalculatorService.swift:191-192 | when the payment exceeds the interest on the whole loan, it exceeds the interest on any smaller balance |
| Amortization.ChainedBalanceAt | MortgageCalculator.swift:591-615 | under an amortizing payment every balance lies between 0 and the opening balance, falls strictly while positive, and no portion is negative |
| Amortization.ChainedBalances | MortgageCalculator.swift:591-615 | the same bounds, for all periods at once |
| Amortization.ChainedInterestTotal | MortgageCalculator/Models/MortgageCalculatorService.swift:200 | `totalInterestPaid` is the opening total plus the sum of the interest so far |
| Amortization.ChainedPrincipalTotal | MortgageCalculator.swift:824 | `totalPrincipalPaid` is the opening total plus the sum of the principal so far |
| Amortization.BlockStart | MortgageCalculator/Models/MortgageCalculatorService.swift:204-210 | the year changes between periods `i - 1` and `i` exactly when `i` is a multiple of the payments per year |
| Amortization.AnnualInterestAt | MortgageCalculator/Models/MortgageCalculatorService.swift:201-210 | `annualInterest` is the sum of the interest from the first period of the current year up to this one |
| Amortization.RunRecordsFullPayment | MortgageCalculator.swift:618-628 | the Decimal standard schedule records the full periodic payment in every period, the clamped final one included |
| Amortization.ZeroBalanceStaysZero | MortgageCalculator/Models/MortgageCalculatorService.swift:191-215 | after a zero balance under a positive payment, every later period repays nothing, charges nothing and leaves 0 |
| Amortization.RunFromStartTotals | MortgageCalculator/Models/MortgageCalculatorService.swift:189-229 | from the start of the loan, periods are numbered 1, 2, ...; the year is `i / ppy + 1`; the interest and principal totals are running sums; `annualInterest` is the year's sum so far |
| Amortization.RunFromStartBalances | MortgageCalculator.swift:591-615 | under an amortizing payment every balance lies between 0 and the loan and never grows; `totalInterestPaid` never falls; the percentage paid lies between 0 and 100 |
| Amortization.PercentageAt | MortgageCalculator.swift:627 | a period whose balance lies between 0 and the loan reports a percentage between 0 and 100 |
| Amortization.PercentageBounds | MortgageCalculator.swift:627 | `(loan - balance) / loan * 100` lies between 0 and 100 for a balance between 0 and a positive loan |
| Amortization.ChainedMonotone | MortgageCalculator.swift:591-615 | under an amortizing payment, a later balance is at most an earlier one and a later interest total at least an earlier one |
| Amortization.RunPayments | MortgageCalculator/Models/MortgageCalculatorService.swift:221 | when `payment` is principal plus interest, it never exceeds the periodic payment and equals it on every period that leaves a balance |
| Amortization.RunZeroBalanceStaysZero | MortgageCalculator/Models/MortgageCalculatorService.swift:189-237 | in a whole schedule, every period after a zero balance repays nothing, charges nothing and leaves 0 |
| Amortization.ScenarioFrom | MortgageCalculator/Models/MortgageCalculatorService.swift:300-327 | a scenario's years times the payments per year is its period count; time saved is the term less those years; interest saved is the base interest less the increased one; total saved equals interest saved |
| Amortization.PercentOf | MortgageCalculator/Models/MortgageCalculatorService.swift:264 | the percentage times the whole is 100 times the part |
| Amortization.YearStartInRange | MortgageCalculator.swift:812-816 | every year up to `ceil(count / ppy)` starts at a period inside the schedule |
| Amortization.YearEntry | MortgageCalculator.swift:815-838 | one year's summary read off the schedule at that year's last index (clamped to the schedule) and the previous year's; `YearEntryCoversBlock` proves it is the block's last balance and the block's principal and interest sums |
| Amortization.YearEntryCoversBlock | MortgageCalculator.swift:815-838 | a year's entry has the balance of its block's last period, and principal and interest equal to the sums over its block (a short final block included); year 1 uses the totals, later years the difference from the previous block end |
| Amortization.BlockTotals | MortgageCalculator.swift:830-836 | the growth of the running totals over a block is the sum of the block's portions |
| Amortization.YearEntries | MortgageCalculator.swift:808-842 | the first `m` entries are the entries of years 1 to `m`, in order |
| Amortization.YearlySummaries | MortgageCalculator.swift:808-842 | the yearly-summary loop returns exactly one entry for each of the `ceil(count / ppy)` years, in order |
| CalculatorService.PaymentsPerYear | MortgageCalculator/Models/MortgageCalculatorService.swift:109 | the table's count for a known frequency, and 12 for any other |
| CalculatorService.CapCoversTerm | MortgageCalculator/Models/MortgageCalculatorService.swift:158 | the cap `Int(term * ppy * 2)` exceeds the standard period count whenever that count is at least 1 |
| CalculatorService.GenerateSchedule | MortgageCalculator/Models/MortgageCalculatorService.swift:171-240 | the shared loop returns the specified schedule: chained periods, stopping right after a zero balance when asked to |
| CalculatorService.GenerateAmortizationSchedule | MortgageCalculator/Models/MortgageCalculatorService.swift:102-129 | the standard schedule is the shared loop over `Int(term * ppy)` periods at the periodic payment, with no stop at zero |
| CalculatorService.GenerateScheduleWithFixedPayment | MortgageCalculator/Models/MortgageCalculatorService.swift:132-168 | the fixed-payment schedule is the shared loop at `max(fixed, minimum)`, stopping at zero, over `Int(term * ppy * 2)` periods |
| CalculatorService.StandardSchedule | MortgageCalculator/Models/MortgageCalculatorService.swift:102-129 | the standard schedule: the shared step over `Int(term * ppy)` periods at the closed-form payment, with no stop at zero; its length and trailing zeros are proved in `StandardScheduleLength` and `StandardScheduleTrailingZeros` |
| CalculatorService.FixedPaymentSchedule | MortgageCalculator/Models/MortgageCalculatorService.swift:132-168 | the fixed-payment schedule: the shared step at `max(fixed, minimum)`, stopping at a zero balance, capped at `Int(term * ppy * 2)`; `FixedPaymentScheduleShape` proves its bounds |
| CalculatorService.StandardScheduleLength | MortgageCalculator/Models/MortgageCalculatorService.swift:122-128 | the standard schedule has exactly `Int(term * ppy)` periods, numbered from 1, each paying principal plus interest |
| CalculatorService.StandardScheduleTrailingZeros | MortgageCalculator/Models/MortgageCalculatorService.swift:189-236 | once the balance reaches 0 under an amortizing payment, every later period has zero principal, interest, payment and balance |
| CalculatorService.FixedPaymentScheduleShape | MortgageCalculator/Models/MortgageCalculatorService.swift:153-167 | the fixed-payment schedule has between 1 and `Int(term * ppy * 2)` periods; it ends at the first zero balance unless it hits the cap; the payment is never below the minimum; each period pays it in full except the one that clears the loan, which pays no more |
| CalculatorService.IncreasedScenario | MortgageCalculator/Models/MortgageCalculatorService.swift:300-327 | one increased scenario: the fixed-payment schedule at the increased payment, summarised against the base interest, none for an empty schedule; `IncreasedScenarioShape` proves it always exists on a valid loan and gives its figures |
| CalculatorService.IncreasedScenarioShape | MortgageCalculator/Models/MortgageCalculatorService.swift:300-327 | on a valid loan the increased scenario always exists; its years, time saved, interest saved, total paid and total saved follow from its schedule |
| CalculatorService.AdditionalPaymentScenario | MortgageCalculator/Models/MortgageCalculatorService.swift:243-281 | the additional-payment scenario: the increased scenario at base plus additional, with the additional payment as a percentage of the base; `AdditionalPaymentScenarioShape` proves its relations |
| CalculatorService.CalculateAdditionalPaymentScenario | MortgageCalculator/Models/MortgageCalculatorService.swift:243-281 | returns the scenario at base plus additional, with no scenario when that schedule is empty |
| CalculatorService.AdditionalPaymentScenarioShape | MortgageCalculator/Models/MortgageCalculatorService.swift:252-277 | the additional-payment scenario exists; its percentage times the base is 100 times the additional payment; it pays base plus additional |
| CalculatorService.FixedPaymentScheduleNonEmpty | MortgageCalculator/Models/MortgageCalculatorService.swift:158-167 | a fixed-payment schedule of a valid loan has at least one period |
| CalculatorService.ComparisonsFor | MortgageCalculator/Models/MortgageCalculatorService.swift:284-333 | the comparison scenarios: one per increase whose scenario exists, in the order of the increases; `ComparisonsForAll` proves there is one per increase |
| CalculatorService.CalculateComparisonScenarios | MortgageCalculator/Models/MortgageCalculatorService.swift:284-333 | the loop returns one scenario for each of 10%, 25% and 50% whose schedule is not empty, in that order |
| CalculatorService.ComparisonsForAll | MortgageCalculator/Models/MortgageCalculatorService.swift:292-329 | on a valid loan every increase yields a scenario: the k-th is for the k-th increase, pays `base * (1 + inc / 100)`, saves `term - years` in time, and its total saved equals its interest saved |
| CalculatorService.CalculateMortgage | MortgageCalculator/Models/MortgageCalculatorService.swift:15-72 | the result holds the standard schedule and the periodic payment; total interest is the last period's total (0 if none); total cost is loan plus interest; the additional scenario is present only for a positive additional payment; the comparisons are those for 10, 25 and 50% |
| CalculatorService.StandardTotalInterest | MortgageCalculator/Models/MortgageCalculatorService.swift:64 | the standard schedule's total interest is the sum of its periods' interest |
| CalculatorService.GenerateYearlySummary | MortgageCalculator/Models/MortgageCalculatorService.swift:336-378 | the yearly summary is the per-year entries at the frequency's payments per year |
| DecimalCalculator.PaymentsPerYear | MortgageCalculator.swift:135-139 | Weekly is 52, Fortnightly 26 and Monthly 12; any other key falls back to 12 |
| DecimalCalculator.FixedPaymentLimit | MortgageCalculator.swift:713-718 | the `while` can run at most `Int(term * ppy * 2) + 1` periods, since the break comes only after appending a period past the cap; a negative cap still lets one period through |
| DecimalCalculator.StandardSchedule | MortgageCalculator.swift:565-640 | the Decimal standard schedule: the shared step over `Int(term * ppy)` periods recording the full payment, ending right after the first zero balance; `StandardScheduleShape` proves its bounds |
| DecimalCalculator.GenerateAmortizationSchedule | MortgageCalculator.swift:565-640 | the `for` loop returns the specified schedule: full payment recorded, breaking right after the first zero balance |
| DecimalCalculator.FixedPaymentPeriod | MortgageCalculator.swift:670-709 | one pass of the fixed-payment loop yields the period `NextPeriod` specifies, recording principal plus interest as the payment |
| DecimalCalculator.FixedPaymentSchedule | MortgageCalculator.swift:642-722 | the Decimal fixed-payment schedule: nothing for a loan that is not positive, otherwise the shared step at `max(fixed, minimum)` up to the first zero balance or one past the cap; `FixedPaymentScheduleShape` proves its bounds |
| DecimalCalculator.GenerateScheduleWithFixedPayment | MortgageCalculator.swift:642-722 | the `while balance > 0` loop at `max(fixed, minimum)` returns the specified schedule; nothing for a loan that is not positive |
| DecimalCalculator.StandardScheduleShape | MortgageCalculator.swift:587-636 | the standard schedule has between 1 and `Int(term * ppy)` periods numbered from 1; it ends at the first zero balance or at the term's last period; every period records the full periodic payment |
| DecimalCalculator.FixedPaymentScheduleShape | MortgageCalculator.swift:658-718 | the fixed-payment schedule is empty exactly when the loan is not positive; it has at most cap + 1 periods; it ends at the first zero balance unless it ran out; every period but the last pays `max(fixed, minimum)` and the last pays no more |
| DecimalCalculator.IncreasedScenario | MortgageCalculator.swift:733-758 | one increased scenario from the Decimal fixed-payment schedule, none for an empty schedule; `IncreasedScenarioShape` proves it exists exactly for a positive loan and gives its figures |
| DecimalCalculator.IncreasedScenarioShape | MortgageCalculator.swift:733-758 | the increased scenario exists exactly when the loan is positive; its figures follow from its schedule; total saved equals interest saved |
| DecimalCalculator.ComparisonsFor | MortgageCalculator.swift:724-763 | the comparison scenarios in the order of the increases, skipping an empty one; `ComparisonsForAll` proves there is one per increase exactly for a positive loan |
| DecimalCalculator.CalculateComparisonScenarios | MortgageCalculator.swift:724-763 | the loop returns the scenarios for 10%, 25% and 50% whose schedules are not empty, in that order |
| DecimalCalculator.ComparisonsForAll | MortgageCalculator.swift:725-762 | a positive loan yields one scenario per increase, in order, each at `base * (1 + inc / 100)`; any other loan yields none |
| DecimalCalculator.AdditionalPaymentScenario | MortgageCalculator.swift:317-343 | the additional-payment scenario: the increased scenario at base plus additional, with the additional payment as a percentage of the base; `AdditionalPaymentScenarioShape` proves its relations |
| DecimalCalculator.AdditionalPaymentScenarioShape | MortgageCalculator.swift:317-343 | the additional scenario exists exactly when the loan is positive; its percentage times the base is 100 times the additional payment; it pays base plus additional; total saved equals interest saved |
| DecimalCalculator.CalculateResult | MortgageCalculator.swift:291-363 | requires only that, once amount, rate and term all parse, the arithmetic is defined (non-zero loan, at least one period, a non-zero base payment when an additional payment is divided by it); no result exactly when the amount, rate or term does not parse; otherwise the standard schedule, its last total interest (or 0) and total cost, the comparisons, and the additional scenario only for a parsed positive additional payment |
| DecimalCalculator.YearlySummary | MortgageCalculator.swift:808-842 | the view's yearly summary is the per-year entries at the frequency's payments per year |
| InputForm.FirstInputError | MortgageCalculator/Views/ContentView.swift:23-53 | checks amount > 0, rate > 0, term > 0 and additional >= 0 in that order and reports only the first failure; no error exactly when all four pass |
| InputForm.ContentView.constructor | MortgageCalculator/Views/ContentView.swift:3-20 | the screen starts with no error shown and no result |
| InputForm.ContentView.ValidateInputs | MortgageCalculator.swift:258-288 | returns true exactly when every check passes, and then nothing changes; otherwise the first failure's message is set and the error flag raised; the result is untouched |
| InputForm.ContentView.CalculateResults | MortgageCalculator/Views/ContentView.swift:56-74 | on invalid input the previous result stays and the error is shown; on valid input the error state is untouched and the result is replaced by the service's calculation for the parsed values: the payment, the standard schedule, its total interest and total cost, the comparison scenarios for the +10/25/50 % increases, and the additional-payment scenario only for a positive additional payment |
| LumpSumCalculator.LumpSumsAt | MortgageCalculator/Services/MortgageCalculator.swift:45-49 | the inner loop's index never moves backward and stays within the list |
| LumpSumCalculator.LumpSumsAtTakesMatches | MortgageCalculator/Services/MortgageCalculator.swift:45-49 | the inner loop adds up every lump sum for the payment number from the index on; it stops at the first lump sum for another number, and the index passes only exact matches |
| LumpSumCalculator.ApplyLumpSums | MortgageCalculator/Services/MortgageCalculator.swift:45-49 | the inner `while` returns the specified total and the index after it |
| LumpSumCalculator.Step | MortgageCalculator/Services/MortgageCalculator.swift:44-83 | one period: the lump sums at this payment number, interest on the opening balance, the effective payment's principal plus the lump sums clamped to the balance, the running interest; `StepAmounts` proves its bounds |
| LumpSumCalculator.LoopBodyIsStep | MortgageCalculator/Services/MortgageCalculator.swift:52-85 | the loop body's assignments produce the period and state `Step` specifies |
| LumpSumCalculator.Schedule | MortgageCalculator/Services/MortgageCalculator.swift:31-91 | a schedule of `left` iterations has at most `left` periods |
| LumpSumCalculator.Period | MortgageCalculator/Services/MortgageCalculator.swift:44-83 | one pass of the loop collects the period's lump sums and yields the payment and state `Step` specifies |
| LumpSumCalculator.ScheduleLoop | MortgageCalculator/Services/MortgageCalculator.swift:31-91 | the `for` loop returns the specified schedule for the given number of payments, stopping after a balance of at most 0.01 |
| LumpSumCalculator.CalculateAmortizationSchedule | MortgageCalculator/Services/MortgageCalculator.swift:15-94 | returns the scenario's specified schedule: periodic rate `rate / frequency / 100`, `years * frequency` payments truncated, the effective payment, and the lump sums sorted by payment number |
| LumpSumCalculator.ScheduleShape | MortgageCalculator/Services/MortgageCalculator.swift:31-91 | periods are numbered on from the first; there is at least one when the term allows one; no period but the last has a balance of 0.01 or less, and a schedule cut short ends at one |
| LumpSumCalculator.ScheduleAmounts | MortgageCalculator/Services/MortgageCalculator.swift:55-79 | in every period the principal is the effective payment less the interest plus the lump sums the index reaches for that payment number, clamped to the opening balance (`ClampedPrincipal`); the balance drops by it and stays non-negative, and the total is principal plus interest |
| LumpSumCalculator.SchedulePrincipal | MortgageCalculator/Services/MortgageCalculator.swift:55-69 | every period's principal is `min(opening balance, effective payment - interest + lump sums for its payment number)`, the lump sums being those the single index reaches from where the previous period left it |
| LumpSumCalculator.ScheduleInterestToDate | MortgageCalculator/Services/MortgageCalculator.swift:69-83 | every period's `interestToDate` is the running sum of the interest up to and including it |
| LumpSumCalculator.ScheduleRates | MortgageCalculator/Services/MortgageCalculator.swift:52-72 | every period charges interest at the periodic rate on its opening balance and reports the percentage of the loan repaid |
| LumpSumCalculator.StepAmounts | MortgageCalculator/Services/MortgageCalculator.swift:58-69 | one period charges interest on its opening balance; its principal is the effective payment less that interest plus the lump sums booked for the payment number, clamped to the balance; the balance drops by it and stays non-negative, the index moves past the lump sums taken, and the totals grow by the period's amounts |
| LumpSumCalculator.InterestThroughCons | MortgageCalculator/Services/MortgageCalculator.swift:69 | the interest through a period of a longer schedule is the first period's interest plus that through the rest |
| LumpSumCalculator.BlockedLumpSums | MortgageCalculator/Services/MortgageCalculator.swift:46 | once the index stands at a lump sum for an earlier payment number, no lump sum is applied again, and the schedule equals the one without lump sums |
| LumpSumCalculator.LumpSumBelowOneBlocksAll | MortgageCalculator/Services/MortgageCalculator.swift:28-46 | a lump sum numbered below 1 is sorted first and never matched, so no lump sum at all is applied: the schedule equals the one without lump sums |
| LumpSumCalculator.SortedFirstIsLeast | MortgageCalculator/Services/MortgageCalculator.swift:28 | the first lump sum after sorting has the least payment number |
| LumpSumCalculator.WithoutLumpSums | MortgageCalculator/Services/MortgageCalculator.swift:28-29 | dropping a scenario's lump sums gives the plan with no lump sums and the same schedule as starting with none |
| LumpSumCalculator.Savings | MortgageCalculator/Services/MortgageCalculator.swift:96-117 | `calculateSavings`'s pair: each schedule's count over its own frequency, base less comparison, and the last interest to date (0 for an empty schedule), base less comparison |
| LumpSumCalculator.SavingsAntisymmetric | MortgageCalculator/Services/MortgageCalculator.swift:96-117 | comparing a scenario with itself saves no time and no interest, and swapping the two scenarios negates both savings |
| LumpSumCalculator.CalculateSavings | MortgageCalculator/Services/MortgageCalculator.swift:96-117 | time saved is each schedule's count over its own frequency, base less comparison; interest saved is the difference of the last interest totals, 0 for an empty schedule |
| LumpSumEditor.SortedPayments | MortgageCalculator/Views/LumpSumPaymentsView.swift:93 | the rows are a permutation of the payments, ascending by payment number |
| LumpSumEditor.RowsAt | MortgageCalculator/Views/LumpSumPaymentsView.swift:94 | the selected rows are the sorted payments at the given offsets, in offset order |
| LumpSumEditor.DeleteSelectedRows | MortgageCalculator/Views/LumpSumPaymentsView.swift:92-101 | with unique ids, deleting rows of the sorted view removes exactly those payments: the list shrinks by the number of rows and the rest keep their order |
| LumpSumEditor.OccursOnce | MortgageCalculator/Views/LumpSumPaymentsView.swift:97 | a payment of a list with unique ids occurs in it exactly once |
| LumpSumEditor.PermutationKeepsUniqueIds | MortgageCalculator/Views/LumpSumPaymentsView.swift:93 | sorting a list with unique ids keeps the ids unique |
| LumpSumEditor.TwoPositions | MortgageCalculator/Views/LumpSumPaymentsView.swift:93 | an element found at two positions occurs at least twice |
| LumpSumEditor.FilterKeepsUniqueIds | MortgageCalculator/Views/LumpSumPaymentsView.swift:96-99 | removing payments keeps the ids unique |
| LumpSumEditor.DropHead | MortgageCalculator/Views/LumpSumPaymentsView.swift:97-98 | with unique ids, removing the id of the first payment drops exactly that payment |
| LumpSumEditor.KeepHead | MortgageCalculator/Views/LumpSumPaymentsView.swift:97-98 | removing an id the first payment does not carry keeps that payment in front |
| LumpSumEditor.RemoveOneIsFilter | MortgageCalculator/Views/LumpSumPaymentsView.swift:97-98 | removing the first payment with an id that occurs once removes every payment with that id, and exactly one payment |
| LumpSumEditor.FilterKeepsAll | MortgageCalculator/Views/LumpSumPaymentsView.swift:96-99 | removing nothing leaves the list as it was |
| LumpSumEditor.RemoveEachIsFilter | MortgageCalculator/Views/LumpSumPaymentsView.swift:96-100 | removing distinct rows of the list one by one removes exactly their ids, one payment each |
| LumpSumEditor.IdsOfMembers | MortgageCalculator/Views/LumpSumPaymentsView.swift:94 | the ids of the selected rows are exactly the ids that occur among them |
| LumpSumEditor.LumpSumPaymentsView.constructor | MortgageCalculator/Views/LumpSumPaymentsView.swift:3-8 | the editor holds the scenario and starts with empty text fields |
| LumpSumEditor.LumpSumPaymentsView.AddLumpSumPayment | MortgageCalculator/Views/LumpSumPaymentsView.swift:78-90 | when both fields parse, exactly one payment with the parsed values is appended, whatever their sign, and both fields are cleared; otherwise nothing changes |
| LumpSumEditor.LumpSumPaymentsView.DeleteLumpSumPayment | MortgageCalculator/Views/LumpSumPaymentsView.swift:92-101 | the payments on the selected rows of the sorted view are removed one by one by id; the text fields are unchanged |
| Models.PaymentsPerYear | MortgageCalculator/Models/Models.swift:8-14 | weekly is 52, biweekly 26 and monthly 12, and each count belongs to one case only |
| Models.FromRawValue | MortgageCalculator/Models/Models.swift:3-6 | a case found from a string has that string as its raw value |
| Models.RawValueRoundTrip | MortgageCalculator/Models/Models.swift:3-6 | every case is found again from its raw value, and no two cases share one |
| Models.NewScenario | MortgageCalculator/Models/Models.swift:36-50 | the initialiser stores every argument given; it defaults the frequency to monthly, the effective payment to the regular payment and the lump sums to none |
| MortgageModel.PaymentsPerYear | MortgageCalculator/Models/MortgageModel.swift:17-23 | Weekly is 52, Bi-Weekly 26 and Monthly 12, and each count belongs to one case only |
| MortgageModel.FromRawValue | MortgageCalculator/Models/MortgageModel.swift:10-13 | a case found from a string has that string as its raw value |
| MortgageModel.RawValueRoundTrip | MortgageCalculator/Models/MortgageModel.swift:10-13 | `PaymentFrequency(rawValue: f.rawValue) == f`, and no two cases share a raw value |
| MortgageModel.NewLumpSumPayment | MortgageCalculator/Models/MortgageModel.swift:58-62 | the initialiser stores the amount and payment number as given, with the fresh id and the current date |
| MortgageModel.NewScenario | MortgageCalculator/Models/MortgageModel.swift:26-35 | the defaults are the name "Default Scenario", no lump sums and no additional payment; every other field is stored as given |
| MortgageModel.RegularFrequency | MortgageCalculator/Models/MortgageModel.swift:42 | the frequency `regularPayment` uses is the scenario's when its string is a raw value, and monthly otherwise |
| MortgageModel.DefaultScenarioPayments | MortgageCalculator/Models/MortgageModel.swift:35-49 | a scenario with the defaults pays exactly its regular payment, and an unknown frequency string pays the monthly one |
| SavedScenarios.Imported | MortgageCalculator.swift:109-131 | the import adds one scenario exactly when the extension is right, access is granted, the file decodes and no stored scenario has its id; the copy gets the fresh id and the " (Shared)" suffix, and nothing else changes |
| SavedScenarios.ImportingTwiceStoresTwoCopies | MortgageCalculator.swift:121-126 | opening the same file twice stores two copies with the same name, because the stored copy carries a fresh id |
| SavedScenarios.ScenarioStore.constructor | MortgageCalculator.swift:38-55 | start-up keeps the decoded list, or starts empty; a list that does not decode is reported with its reason |
| SavedScenarios.ScenarioStore.AddScenario | MortgageCalculator.swift:67-70 | appends at the end and leaves the error state unchanged |
| SavedScenarios.ScenarioStore.RemoveScenario | MortgageCalculator.swift:72-75 | removes the rows at the offsets, keeps the rest in order, and shrinks the list by the number of offsets |
| SavedScenarios.ScenarioStore.UpdateScenario | MortgageCalculator.swift:77-82 | replaces only the first scenario with the same id; with none the list is unchanged |
| SavedScenarios.ScenarioStore.SaveScenario | MortgageCalculator.swift:90-92 | saving is adding: the scenario is appended |
| SavedScenarios.MortgageCalculatorApp.constructor | MortgageCalculator.swift:95-107 | the app starts with a new store holding what start-up decoded |
| SavedScenarios.MortgageCalculatorApp.HandleOpenURL | MortgageCalculator.swift:109-131 | the store's list becomes the one the import rule gives, and its error message and error flag are untouched |
| ScenarioStore.CreateDefaultScenario | MortgageCalculator/Models/ScenarioStore.swift:24-33 | the default is 300000 at 5% for 30 years, fixed rate, monthly, named "Default Scenario", with no lump sums and no additional payment |
| ScenarioStore.CopyOf | MortgageCalculator/Models/ScenarioStore.swift:53-55 | a copy has the fresh id and the name plus " (Copy)"; every other field is equal |
| ScenarioStore.DeleteTwice | MortgageCalculator/Models/ScenarioStore.swift:47-50 | deleting an id twice leaves the same list as deleting it once |
| ScenarioStore.DeleteAbsent | MortgageCalculator/Models/ScenarioStore.swift:47-50 | deleting an id that no scenario has leaves the list unchanged |
| ScenarioStore.ScenarioStore.constructor | MortgageCalculator/Models/ScenarioStore.swift:10-22 | a loaded list is kept and its first scenario is current, or the default when it is empty; with nothing loaded the list holds just the default scenario, which is also the current one |
| ScenarioStore.ScenarioStore.AddScenario | MortgageCalculator/Models/ScenarioStore.swift:35-38 | appends at the end and keeps the earlier scenarios and the current one |
| ScenarioStore.ScenarioStore.UpdateScenario | MortgageCalculator/Models/ScenarioStore.swift:40-45 | replaces only the first scenario with the same id; with none the list is unchanged |
| ScenarioStore.ScenarioStore.DeleteScenario | MortgageCalculator/Models/ScenarioStore.swift:47-50 | removes every scenario with the id, keeps the rest in order, and leaves the current scenario as it was |
| ScenarioStore.ScenarioStore.DuplicateScenario | MortgageCalculator/Models/ScenarioStore.swift:52-59 | appends a copy under a fresh id named with " (Copy)" and returns it |
| Money.PaymentsPerYear | Money/app.py:24-28 | weekly is 52, fortnightly 26 and monthly 12; any other key is a `KeyError`, with no fallback |
| Money.RoundHalfEven | Money/app.py:92-93 | rounding lands within half a unit of the value; a tie goes to the even neighbour; a whole number stays as it is |
| Money.PaymentFails | Money/app.py:59-70 | `calculate_payment` raises `ZeroDivisionError` when `(1 + c) ** n - 1` is 0, or when `0.0` is raised to a negative `n`; `PaymentFailsExactly` proves when that happens |
| Money.PowIsOne | Money/app.py:67-68 | a whole power of a positive base is 1 exactly for the 0th power or a base of 1 |
| Money.PaymentFailsExactly | Money/app.py:55-72 | for a rate above -100 % a period, `calculate_payment`'s division by `(1 + c) ** n - 1` fails exactly when `years` is 0 or the rate is 0 |
| Money.ZeroDivisionCases | Money/app.py:75-237 | for a known frequency and a rate above -100 % a period, `generate_schedule` and `calculate_comparison_scenarios` raise `ZeroDivisionError` exactly for `years == 0`, a zero rate, or a zero principal with positive years; `generate_schedule_with_payment` exactly for `years == 0` or a zero rate |
| Money.LoanPaid | Money/app.py:123 | 'Loan Paid (%)' is 100 at a zero balance and 0 before any repayment, and lies within 0.05 of the exact percentage |
| Money.PeriodCount | Money/app.py:90 | `range(1, years * freq + 1)` visits `years * freq` periods, or none when that is not positive |
| Money.Schedule | Money/app.py:90-128 | a loop of `left` iterations yields at most `left` rows |
| Money.Step | Money/app.py:92-125 | one row: rounded interest, the payment's principal portion with the final-payment clamp, the running interest, the annual interest reset at a new year, the balance clamped at 0; `StepAmounts` proves what it computes |
| Money.LoopBodyIsStep | Money/app.py:92-125 | the loop body's assignments produce the row and state `Step` specifies |
| Money.Period | Money/app.py:92-125 | one pass of the `for` loop yields the row and state `Step` specifies: rounded interest and principal, the final-payment clamp, and the new-year reset of the annual interest |
| Money.ScheduleLoop | Money/app.py:90-128 | the loop returns the specified schedule, stopping right after the first zero balance |
| Money.GenerateSchedule | Money/app.py:75-130 | `generate_schedule` returns the specified result: a `KeyError` for an unknown frequency, a `ZeroDivisionError` when `calculate_payment` fails, nothing for no periods, a `ZeroDivisionError` for a zero principal, the schedule otherwise |
| Money.ScheduleShape | Money/app.py:90-128 | rows are numbered on from the first; there is at least one when there is a period to visit; no row but the last has a zero balance, and a schedule cut short ends at one |
| Money.StepAmounts | Money/app.py:92-113 | one period follows from its opening balance; the final adjustment brings the balance to exactly 0; the clamp at 0 never changes the balance |
| Money.ScheduleBalances | Money/app.py:92-113 | every row follows from its opening balance and the payment, which only the final adjustment lowers, and then only in a row that ends at 0 |
| Money.ScheduleInterest | Money/app.py:101 | every row's interest to date is the interest before it plus its own |
| Money.AnnualStep | Money/app.py:102-110 | the year's interest restarts exactly at the first period of a year |
| Money.DivStep | Money/app.py:105 | `(a - 1) // d` differs from `a // d` exactly when `a` is a multiple of `d` |
| Money.ScheduleYears | Money/app.py:102-110 | each row's year is `(n - 1) // freq + 1`; its annual interest restarts at a year's first row and grows by the row's interest otherwise |
| Money.ChainCons | Money/app.py:102-110 | a first row that keeps the year bookkeeping, followed by a chain from it, is a chain |
| Money.TotalInterestIsSum | Money/app.py:101 | from the start, a row's interest to date is the sum of the interest of the rows up to it |
| Money.YearStart | Money/app.py:105 | the first row of row `i`'s year is a multiple of the frequency, at or before `i`, and less than a year before it |
| Money.AnnualInterestIsYearSum | Money/app.py:102-110 | from the start, a row's year is `i // freq + 1`, and its annual interest is the sum of its year's interest so far |
| Money.YearStartAt | Money/app.py:105 | a payment index that is a multiple of the frequency starts its own year |
| Money.YearStartStep | Money/app.py:105 | any other payment index falls in the same year as the one before it |
| Money.GenerateScheduleResult | Money/app.py:75-130 | `generate_schedule`'s outcome: `KeyError` for an unknown frequency, `ZeroDivisionError` when `calculate_payment` fails, no rows for no periods, `ZeroDivisionError` for a zero principal, the schedule otherwise; `GenerateScheduleProperties` states what it promises |
| Money.GenerateScheduleProperties | Money/app.py:75-130 | `KeyError` exactly for an unknown frequency; `ZeroDivisionError` exactly when `calculate_payment` fails or the principal is zero with a period to visit; otherwise at most `years * freq` rows, numbered from 1, stopping at the first zero balance, with non-negative balances and interest totals and annual interest equal to the running sums |
| Money.StartedSchedule | Money/app.py:90-128 | the schedule from period 1 keeps every promise above |
| Money.StartedSums | Money/app.py:101-110 | the schedule from period 1 has the year, running-interest and year-interest sums |
| Money.FixedPayment | Money/app.py:184-188 | the payment is the fixed payment rounded to cents, never below the minimum, and the minimum when there is no fixed payment |
| Money.Min | Money/app.py:200 | `min(a, b)` is at most both and is one of them |
| Money.FixedStep | Money/app.py:199-231 | one row of the fixed-payment loop: rounded interest, principal the smaller of the portion and the balance, the running and annual interest; `FixedStepAmounts` proves its bounds |
| Money.FixedSchedule | Money/app.py:197-235 | the rows while the balance is positive, giving up after the row whose number exceeds the limit; `FixedShape` proves its shape |
| Money.FixedLoopBodyIsStep | Money/app.py:199-231 | the fixed-payment loop body's assignments produce the row and state `FixedStep` specifies |
| Money.FixedPeriod | Money/app.py:199-231 | one pass of the `while` loop yields the row and state `FixedStep` specifies |
| Money.FixedLoop | Money/app.py:197-235 | the `while balance > 0` loop returns the specified schedule and breaks after the row whose number exceeds the limit |
| Money.GenerateScheduleWithPayment | Money/app.py:178-237 | `generate_schedule_with_payment` returns the specified result: a `KeyError` for an unknown frequency, a `ZeroDivisionError` when `calculate_payment` fails, the fixed-payment schedule otherwise |
| Money.FixedShape | Money/app.py:197-235 | the schedule is empty exactly when the balance is not positive; rows are numbered on; at most one row past the limit; the balance stays positive until the last row, which ends at 0 or past the limit |
| Money.FixedStepAmounts | Money/app.py:199-210 | one period takes the smaller of the payment's principal portion and the balance; the balance stays non-negative; the full payment is reported, because the adjustment after the `min` never fires |
| Money.FixedBalances | Money/app.py:199-210 | every row follows from its opening balance and reports the full payment |
| Money.FixedInterest | Money/app.py:209 | every row's interest to date is the interest before it plus its own |
| Money.FixedYears | Money/app.py:212-218 | the year bookkeeping of the fixed-payment loop is the same chain as in `generate_schedule` |
| Money.FixedStarted | Money/app.py:178-237 | the fixed-payment schedule from period 1 keeps every promise of `FixedScheduleProperties` |
| Money.FixedStartedSums | Money/app.py:209-218 | the fixed-payment schedule from period 1 has the running-interest and year-interest sums |
| Money.FixedScheduleResult | Money/app.py:178-237 | `generate_schedule_with_payment`'s outcome: `KeyError` for an unknown frequency, `ZeroDivisionError` when `calculate_payment` fails, the fixed-payment rows otherwise; `FixedScheduleProperties` states what it promises |
| Money.FixedScheduleProperties | Money/app.py:178-237 | `KeyError` exactly for an unknown frequency; `ZeroDivisionError` exactly when `calculate_payment` fails; otherwise rows are empty exactly when the principal is not positive; at most `years * freq * 2 + 1` rows; the balance stays positive until the last row, which is 0 unless the limit was passed; every row reports the payment, never below the minimum; the interest sums hold |
| Money.IncreasedScenario | Money/app.py:148-174 | one scenario: the fixed-payment rows at the increased payment, none when empty, with years, interest saved, time saved and totals from the base figures; `ComparisonsForShape` proves its relations |
| Money.ComparisonsFor | Money/app.py:146-176 | the scenarios for a run of increases, in order, skipping the empty ones |
| Money.IncreasedComparison | Money/app.py:148-174 | one pass of the increases loop yields the scenario `IncreasedScenario` specifies, or nothing when the increased schedule is empty |
| Money.CalculateComparisonScenarios | Money/app.py:132-176 | `calculate_comparison_scenarios` returns the specified result: the base schedule's error (a `KeyError`, or a `ZeroDivisionError` from `calculate_payment` or a zero principal), nothing for an empty base, and otherwise the non-empty scenarios for 10, 25 and 50 percent in order |
| Money.ComparisonsForShape | Money/app.py:146-174 | each scenario is for its increase, in order, and exists exactly when the principal is positive; time saved is measured from the base schedule's length, not the term; total saved equals interest saved; total paid is the principal plus the base interest less the interest saved |
| Money.ComparisonsResult | Money/app.py:132-176 | `calculate_comparison_scenarios`' outcome: the base schedule's error, no scenarios for an empty base, the scenarios for 10, 25 and 50 percent otherwise; `ComparisonsProperties` states what it promises |
| Money.ComparisonsProperties | Money/app.py:132-176 | `KeyError` exactly for an unknown frequency; `ZeroDivisionError` exactly when `calculate_payment` fails or the principal is zero with a period to visit; otherwise no scenarios exactly for a negative principal or no periods; otherwise three scenarios, for 10, 25 and 50 percent |

## Left out

- The closed-form payment `calculatePeriodicPayment` / `calculatePayment` / `calculate_payment` uses `pow` on floating point. Its value is a parameter of every operation that uses it. No figure the formula produces is reproduced. For `calculate_payment` the model does decide when it raises `ZeroDivisionError`, on exact reals; a float power that rounds to exactly 1.0 for a tiny non-zero rate, and an `OverflowError` for a huge term, are not modelled. Properties that need a payment above the interest on the whole loan take that as a precondition (`Amortizing`).
- Floating point is not modelled. `Double` and `Decimal` are exact `real`s, so rounding drift in the Swift copies, NaN and infinity are absent. `MortgageCalculator.swift` mixes `Decimal` with a `Double` year index; the model uses exact arithmetic throughout.
- Python floats are not modelled either. Money in `Money/app.py` is whole cents. `round(x, 2)` is round-half-even of the exact value in cents, and rounding a sum or difference of whole cents returns it unchanged. The principal is taken in whole cents.
- Money.PeriodicRate: exact real division, not Python's binary float.
- The service reads `PaymentFrequencies.frequencies`, which no file of the repository defines. `CalculatorService` takes that table as a parameter, with every count positive.
- The Swift generators require a non-zero loan amount, because the percentage paid divides by it and gives NaN otherwise. They also require at least one period, because `1...n` traps otherwise.
- `AmortizationScheduleView.yearlySummary` and `generateYearlySummary` require a non-empty schedule, because `1...0` traps.
- Payment dates (`Date()`, `Calendar`), UUIDs, `UserDefaults` and JSON persistence, security-scoped file access and `saveScenarios` are not modelled. Fresh ids, dates and decoded data are parameters.
- `Common.SortByKey` is a stable sort. Swift's `sorted(by:)` does not promise stability. Among payments with equal payment numbers, the order after sorting is therefore one possible order.
- The Add button of the lump-sum sheet is disabled while either field is empty. This is SwiftUI view state and is not modelled. `AddLumpSumPayment` does nothing on a field that does not parse, which covers the empty string.
- `calculationResult` is a computed property of a SwiftUI view. It is modelled as a method because it calls the schedule loops.
- `scenarioData`, the share sheets, the charts, the export code, the networking layer, the Flask routes and the app's PDF, CSV and Excel export are not part of this model.
- `LoanType` is modelled only for its raw value. `MortgageScenario.regularPayment` is the closed-form payment; it is modelled as a parameter function, `paymentFor`.

## Findings

None claimed. `Money.FixedStepAmounts` shows that the final-payment adjustment in `generate_schedule_with_payment` (Money/app.py:203-205) can never fire after the `min` on line 200. `SavedScenarios.ImportingTwiceStoresTwoCopies` shows that the import's absence test never matches a copy it stored itself. Both are modelled as written, since neither is evidently unintended.
