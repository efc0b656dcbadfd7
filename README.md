# IFRS 16 lease calculator — a verified Dafny model

This project models the calculation engine of a Go web service that measures leases under IFRS 16.

For one lease the engine does the following:

- It resolves the number of payment periods and the periodic discount rate from the payment frequency and the lease term (`getPeriodsAndRate`).
- It measures the initial lease liability as the present value of the regular payments, rounded to cents (`CalculateLeaseLiability`).
- It sets the initial right-of-use asset equal to that liability (`CalculateInitialRoUAsset`).
- It builds two daily schedules:
  - The liability schedule (`GenerateLiabilitySchedule`). Interest accrues daily at the annual rate over 365. Payments come from a calendar of regular payments, extra payments and a fixed lump sum. Each payment is split into principal and interest against two fixed target totals.
  - The right-of-use schedule (`GenerateRoUAssetSchedule`), with straight-line depreciation over the days of the term.
  - Both count the days of the term with `time.Time.Sub`, which saturates at Go's largest `time.Duration` (about 292 years). The model counts days the same way, so the schedules of a longer term stop 106752 days in, before the end date.
- The server then summarises both schedules over an accounting window (`calculateAccountingPeriodSummary`). It takes the balances at the window's edges and the interest, payments, principal and depreciation inside it. It corrects the totals so they reconcile within one cent, and writes the rounded figures into the per-lease result record.

The file importer validates one CSV or spreadsheet row into a lease (`parseRecordToLease`) and reads the "DATE:AMOUNT;DATE:AMOUNT" extra-payment field (`parseExtraPayments`). It also applies the frequency aliases and the percentage rule of the header-mapped row parser.

Modules:

| file | module | contents |
|---|---|---|
| `results.dfy` | `Results` | `Result` and `Option`, the form of Go's `(value, error)` pairs |
| `money.dfy` | `Money` | Go's `math.Round` and the `Round(x·10^p)/10^p` roundings, over exact reals |
| `dates.dfy` | `Dates` | civil UTC dates with Go's `AddDate` month normalisation, day steps and day counts |
| `leases.dfy` | `Leases` | the lease, extra payment, frequency, schedule row and error types |
| `present_value.dfy` | `PresentValue` | period resolution and the initial liability |
| `rou_asset.dfy` | `RouAsset` | the initial right-of-use asset |
| `payments.dfy` | `Payments` | the payment calendar of the liability schedule |
| `amortization.dfy` | `Amortization` | the two daily schedules |
| `summary.dfy` | `Summary` | the result record (a class) and the accounting-period summary |
| `parsing.dfy` | `Parsing` | record validation, extra payments, frequency and rate rules |

Loops in the source are methods with loop invariants. Each method is proved equal to a specification function, and the properties are lemmas about that function:

- the period-counting loop;
- the payment-calendar loops;
- both day loops;
- the two summary scans;
- the trimming loop;
- the extra-payment loop.

The per-lease result record is a class whose summary fields the summary method overwrites. The record being parsed is an array that is trimmed in place.

## Model

| member | source | states |
|---|---|---|
| Dates.BeforeIsStrictTotalOrder | ifrs_16_golang/internal/calculation/amortization.go:161-279 | `Before` on dates is irreflexive, asymmetric, transitive and total, as `time.Time` comparison is |
| Dates.AddMonths | ifrs_16_golang/internal/calculation/present_value.go:92-118 | `AddDate(0, k, 0)`: months carry into years, and a day the target month lacks spills into the next month |
| Dates.AddMonthsIsLater | ifrs_16_golang/internal/calculation/present_value.go:106-118 | stepping by one month or more always moves strictly later, so the counting loop advances |
| Dates.AddMonthsOverflowExamples | ifrs_16_golang/internal/calculation/present_value.go:106-118 | 31 Jan + 1 month is 3 Mar (2 Mar in a leap year); 30 Nov + 3 months is 2 Mar; 29 Feb + 12 months is 1 Mar |
| Dates.NextDay | ifrs_16_golang/internal/calculation/amortization.go:272-278 | `AddDate(0, 0, 1)` gives a strictly later date |
| Dates.NextDayIsSuccessor | ifrs_16_golang/internal/calculation/amortization.go:272-278 | no date lies strictly between a date and the next day |
| Dates.BeforeIsDayNumberOrder | ifrs_16_golang/internal/calculation/amortization.go:65-69 | chronological order is the order of day numbers, in both directions |
| Dates.DayNumberInjective | ifrs_16_golang/internal/calculation/amortization.go:65-69 | distinct dates have distinct day numbers |
| Dates.NextDayNumber | ifrs_16_golang/internal/calculation/amortization.go:272-278 | the next day's day number is one more |
| Dates.AddDaysNumber | ifrs_16_golang/internal/calculation/amortization.go:272-278 | `n` day steps add `n` to the day number |
| Dates.DayNumberDate | ifrs_16_golang/internal/calculation/amortization.go:272-278 | the date whose day number is `n` more is the one reached by `n` day steps |
| Dates.AddDaysReaches | ifrs_16_golang/internal/calculation/amortization.go:65-69 | walking the day count from the start reaches the end date |
| Dates.MaxDurationDaysIsWholeDays | ifrs_16_golang/internal/calculation/amortization.go:65 | 106751 is the number of whole days in Go's largest `time.Duration` (2^63 - 1 ns), where `Sub` saturates |
| Dates.TotalDays | ifrs_16_golang/internal/calculation/amortization.go:65-69 | the inclusive day count is at least 1 exactly when the end is not before the start; it is the exact count for a span that fits in a `time.Duration`, and 106752 for any longer forward span |
| Leases.FrequencyOf | ifrs_16_golang/internal/lease/lease.go:6-13 | the string conversion keeps the name, and only the three constants are supported frequencies |
| Leases.FrequencyNameRoundTrip | ifrs_16_golang/internal/lease/lease.go:6-13 | converting a frequency's string back gives the same frequency |
| Money.Round | ifrs_16_golang/internal/calculation/present_value.go:59-62 | `math.Round` is within one half of its argument, with halves rounded away from zero |
| Money.RoundOfInteger | ifrs_16_golang/internal/calculation/present_value.go:59-62 | `math.Round` keeps whole numbers |
| Money.RoundIsOdd | ifrs_16_golang/internal/calculation/present_value.go:59-62 | `math.Round(-x) == -math.Round(x)` |
| Money.RoundTo | ifrs_16_golang/internal/calculation/present_value.go:59-62 | rounding to `p` places moves the value by at most half a unit in the last place and keeps its sign |
| Money.Round2 | ifrs_16_golang/internal/calculation/amortization.go:348-351 | rounding to cents moves the value by at most half a cent and keeps non-negative values non-negative |
| Money.RoundToIdempotent | ifrs_16_golang/internal/calculation/present_value.go:59-62 | rounding an already rounded value changes nothing |
| Money.RoundToScaleOfGridPoint | ifrs_16_golang/internal/calculation/present_value.go:59-62 | a multiple of the rounding unit is its own rounding |
| Money.Round2Idempotent | ifrs_16_golang/internal/calculation/amortization.go:348-351 | cents rounded twice are cents rounded once |
| Money.RepeatedIsProduct | ifrs_16_golang/internal/calculation/amortization.go:94-103 | `n` equal amounts added one by one make `n` times the amount |
| PresentValue.FrequencyTerms | ifrs_16_golang/internal/calculation/present_value.go:69-81 | the frequency switch fails exactly for an unsupported frequency and names it; otherwise periods per year and months per period are positive |
| PresentValue.FrequencyCoversYear | ifrs_16_golang/internal/calculation/present_value.go:69-81 | periods per year times months per period is 12 for every supported frequency |
| PresentValue.GetPeriodsAndRate | ifrs_16_golang/internal/calculation/present_value.go:65-123 | the switch, the rate check, the first-step test and the counting loop compute `PeriodsAndRate` |
| PresentValue.CountPeriodsCountsMarkers | ifrs_16_golang/internal/calculation/present_value.go:106-118 | the loop counts the stepped markers strictly before the end date, and fails with the safety error exactly when markers 0..12000 are all before it |
| PresentValue.PeriodsAndRateMeaning | ifrs_16_golang/internal/calculation/present_value.go:65-123 | unsupported frequency fails first; a non-positive rate fails; the rate is annual over periods per year; a lease ending before the first step has 0 periods; otherwise the count is the number of markers before the end, at least 1, or the safety error |
| PresentValue.PeriodicRateIsPositive | ifrs_16_golang/internal/calculation/present_value.go:83-86 | a resolved periodic rate is positive |
| PresentValue.ZeroLengthLeaseHasNoPeriods | ifrs_16_golang/internal/calculation/present_value.go:92-103 | a lease ending on its start date has no payment periods |
| PresentValue.PeriodsAndRateMarkers | ifrs_16_golang/internal/calculation/present_value.go:92-118 | a lease with periods starts before it ends, has that many markers before its end, and the next marker is on or after it |
| PresentValue.AnnuityPresentValue | ifrs_16_golang/internal/calculation/present_value.go:41-47 | the annuity formula `PMT·(1-(1+r)^-n)/r` equals the sum of each payment discounted |
| PresentValue.AnnuityIsDiscountedSum | ifrs_16_golang/internal/calculation/present_value.go:41-47 | the closed form equals the discounted sum for every `n` |
| PresentValue.DiscountedPaymentsBounds | ifrs_16_golang/internal/calculation/present_value.go:41-47 | the present value of positive payments is positive and at most their undiscounted sum |
| PresentValue.CalculateLeaseLiability | ifrs_16_golang/internal/calculation/present_value.go:13-56 | the error of each guard in source order: payment not positive, rate not positive, zero or reversed dates, a failed period count |
| PresentValue.LeaseLiabilityIsRounded | ifrs_16_golang/internal/calculation/present_value.go:29-53 | a valid lease's liability is the rounded present value at its resolved periods and rate |
| PresentValue.LeaseLiabilityValue | ifrs_16_golang/internal/calculation/present_value.go:29-53 | the liability is 0 with no periods; otherwise it is the discounted sum rounded to 6 and then 2 places, and lies within 0.0050005 of that sum |
| PresentValue.RoundedPresentValue | ifrs_16_golang/internal/calculation/present_value.go:29-53 | the tail of the calculation: 0 with no periods, else the doubly rounded discounted sum near the exact one |
| PresentValue.PresentValueRounding | ifrs_16_golang/internal/calculation/present_value.go:49-53 | rounding to 6 and then 2 places stays within 0.0050005 of the exact present value |
| PresentValue.CountPeriodsStep | ifrs_16_golang/internal/calculation/present_value.go:106-118 | one turn of the counting loop moves the marker one step and the count by one |
| PresentValue.ShortLeasePeriodCountExample | ifrs_16_golang/internal/calculation/present_value_test.go:67-78 | a lease shorter than one month has 0 periods and still gets its monthly rate |
| PresentValue.MonthlyCountExample | ifrs_16_golang/internal/calculation/present_value_test.go:30-41 | 2024-01-01 to 2024-12-31 monthly has 12 periods |
| PresentValue.QuarterlyCountExample | ifrs_16_golang/internal/calculation/present_value_test.go:42-53 | 2024-01-15 to 2026-01-14 quarterly has 8 periods |
| PresentValue.FiveYearCountExample | ifrs_16_golang/internal/calculation/present_value_test.go:54-65 | 2024-07-01 to 2029-06-30 annually has 5 periods |
| PresentValue.AnnualCountExample | ifrs_16_golang/internal/calculation/present_value.go:106-118 | 2024-03-01 stepped yearly has 3 markers before 2027-02-28 |
| PresentValue.AnnualPeriodsExample | ifrs_16_golang/internal/calculation/present_value.go:65-123 | that annual lease at 6% resolves to 3 periods at 6% |
| PresentValue.AnnualPresentValueExample | ifrs_16_golang/internal/calculation/present_value.go:41-53 | three payments of 20000 at 6% are worth 53460.24 |
| PresentValue.AnnualLiabilityExample | ifrs_16_golang/internal/calculation/present_value.go:13-56 | the initial liability of that lease is 53460.24 |
| RouAsset.CalculateInitialRoUAsset | ifrs_16_golang/internal/calculation/rou_asset.go:17-28 | never fails, and the asset equals the liability |
| RouAsset.InitialRoUAssetIsNonNegative | ifrs_16_golang/internal/calculation/rou_asset.go:17-28 | the asset from a measured liability is not negative, so it passes the right-of-use schedule's sign check |
| Payments.AmountAtStored | ifrs_16_golang/internal/calculation/amortization.go:91-117 | in a sorted calendar the amount under a stored date is that entry's amount |
| Payments.PaymentsBeforeAtCut | ifrs_16_golang/internal/calculation/amortization.go:120-131 | a cut with every earlier entry before `d` and none after counts the dates before `d` |
| Payments.AmountAtAbsent | ifrs_16_golang/internal/calculation/amortization.go:91-117 | a date not in the calendar has amount 0, as a missing map key reads |
| Payments.CreditMeaning | ifrs_16_golang/internal/calculation/amortization.go:91-117 | `payments[d] += a` keeps the calendar sorted, adds `d` and no other date, adds `a` under `d` only, and adds `a` to the total |
| Payments.RegularPaymentsProperties | ifrs_16_golang/internal/calculation/amortization.go:94-103 | the regular payments are in strictly increasing date order inside the term |
| Payments.RegularPaymentsTotal | ifrs_16_golang/internal/calculation/amortization.go:94-103 | the regular payments add up to the period count times the payment amount |
| Payments.PaymentDateInTerm | ifrs_16_golang/internal/calculation/amortization.go:94-103 | every clamped payment date lies inside the term |
| Payments.WithExtrasProperties | ifrs_16_golang/internal/calculation/amortization.go:106-110 | crediting extras keeps the calendar sorted and adds exactly the extra dates inside the term |
| Payments.WithExtrasTotal | ifrs_16_golang/internal/calculation/amortization.go:106-110 | the extras add the sum of the in-term extra amounts |
| Payments.PaymentCalendarProperties | ifrs_16_golang/internal/calculation/amortization.go:91-131 | the whole calendar is sorted by date and lies inside the term |
| Payments.PaymentCalendarTotal | ifrs_16_golang/internal/calculation/amortization.go:150-153 | the payment total is the regular payments, plus the in-term extras, plus the lump sum when 2025-02-01 lies strictly inside the term |
| Payments.LastRegularPaymentIsOnEndDate | ifrs_16_golang/internal/calculation/amortization.go:94-103 | with the resolved period count the last regular payment falls on the end date, which is in the calendar |
| Payments.PaymentDateFollowsMarkers | ifrs_16_golang/internal/calculation/amortization.go:94-103 | before the last period the payment dates are the period markers |
| Payments.CollectPayments | ifrs_16_golang/internal/calculation/amortization.go:91-131 | the three filling loops and the sort build `PaymentCalendar` |
| Amortization.GenerateRoUAssetSchedule | ifrs_16_golang/internal/calculation/amortization.go:285-345 | a period error is passed on; a negative asset fails; otherwise one row per counted day of the term, each the straight-line row for that day |
| Amortization.RunRouDays | ifrs_16_golang/internal/calculation/amortization.go:311-337 | the day loop produces `RouRows` |
| Amortization.RouStep | ifrs_16_golang/internal/calculation/amortization.go:311-337 | one day deducts the daily amount, or the rest on the last day, and writes the rounded row |
| Amortization.DepreciationSoFar | ifrs_16_golang/internal/calculation/amortization.go:304-337 | the depreciation of the first `k` days is the initial value less the balance after them |
| Amortization.RouScheduleProperties | ifrs_16_golang/internal/calculation/amortization.go:304-337 | the daily amounts add up to the initial asset, each row opens at the previous closing, and the last closes at zero |
| Amortization.RouScheduleEnd | ifrs_16_golang/internal/calculation/amortization.go:297-336 | the last right-of-use row falls on the end date exactly when the term fits in a `time.Duration` |
| Amortization.StraightLineBalanceBounds | ifrs_16_golang/internal/calculation/amortization.go:338-341 | the carrying amount stays between 0 and the initial value, so the negative-balance check never fires |
| Amortization.ReconcileInterest | ifrs_16_golang/internal/calculation/amortization.go:142-159 | the interest target is kept when the targets meet the payment total within a cent, and is otherwise moved so that they do |
| Amortization.AllocatePayment | ifrs_16_golang/internal/calculation/amortization.go:181-246 | principal and interest running totals grow by the split; a proportional split stays within both targets; a settling payment brings interest to its target; the final correction meets the principal target and the payment total within a cent |
| Amortization.DueOn | ifrs_16_golang/internal/calculation/amortization.go:170-175 | the inner loop consumes every entry the day has reached, stops at the first it has not, and keeps the last amount |
| Amortization.LiabilityDayAgrees | ifrs_16_golang/internal/calculation/amortization.go:161-279 | the day-loop body's steps compose to `LiabilityDay` |
| Amortization.LiabilityScheduleIsRows | ifrs_16_golang/internal/calculation/amortization.go:49-282 | with periods and days the schedule is the daily rows from the first state |
| Amortization.GenerateLiabilitySchedule | ifrs_16_golang/internal/calculation/amortization.go:49-282 | the method computes `LiabilitySchedule` |
| Amortization.RunDays | ifrs_16_golang/internal/calculation/amortization.go:161-279 | the day loop produces `DailyRows` |
| Amortization.RunDay | ifrs_16_golang/internal/calculation/amortization.go:163-278 | the body of one day computes `LiabilityDay` |
| Amortization.DueMeaning | ifrs_16_golang/internal/calculation/amortization.go:170-175 | on a sorted calendar a day with a payment consumes exactly that payment, with the calendar's amount, and the cut moves to the next day |
| Amortization.LiabilityDayMeaning | ifrs_16_golang/internal/calculation/amortization.go:161-279 | one day keeps the loop invariant and writes a row whose period, balances, interest, payment and principal are those the state determines |
| Amortization.LedgerOnWellRun | ifrs_16_golang/internal/calculation/amortization.go:161-279 | the loop invariant holds on every day |
| Amortization.DayOfEnd | ifrs_16_golang/internal/calculation/amortization.go:249-259 | no counted day passes the end date; day `k` is the end date exactly when the term fits in a `time.Duration` and `k` is the last index; the day after the count is the day after the end exactly when the term fits |
| Amortization.ScheduledCalendar | ifrs_16_golang/internal/calculation/amortization.go:91-131 | a lease with periods lasts more than one day, and its calendar is sorted, in term and has a payment on the end date |
| Amortization.LiabilityScheduleShape | ifrs_16_golang/internal/calculation/amortization.go:49-282 | errors are passed on, no periods give no rows, else one row per counted day dated from the start, opening at the rounded liability in period 1, with chained balances; the last row is on the end date exactly when the term fits in a `time.Duration` and then closes at 0; a longer term stops after 106752 rows, before the end date |
| Amortization.ScheduleLastRow | ifrs_16_golang/internal/calculation/amortization.go:161-279 | the last liability row is on the end date, closing at 0, exactly when the term fits in a `time.Duration`, and before the end date otherwise |
| Amortization.DailyRowsShape | ifrs_16_golang/internal/calculation/amortization.go:161-279 | a walk writes one dated, chained row per day, and closes at zero when its last day is the end date |
| Amortization.LastRowCloses | ifrs_16_golang/internal/calculation/amortization.go:249-258 | the row written on the end date closes at zero |
| Amortization.TermRowsShape | ifrs_16_golang/internal/calculation/amortization.go:161-279 | a walk over the whole term has one chained, dated row per day ending at zero on the end date |
| Amortization.LiabilityDayFrame | ifrs_16_golang/internal/calculation/amortization.go:249-270 | every day carries the period, date and balances into its row, and the end date closes at zero |
| Amortization.RowChain | ifrs_16_golang/internal/calculation/amortization.go:249-278 | each row opens at the previous row's closing balance |
| Amortization.LiabilityRowMeaning | ifrs_16_golang/internal/calculation/amortization.go:161-279 | row `k`: it is on the end date exactly when the term fits in a `time.Duration` and `k` is the last row; the period is one more than the payments before the day; the balances and interest are the rounded exact values; off the end date the payment and principal match the calendar and the balance change; the end date goes to zero, paying off the balance when nothing is due |
| Amortization.LiabilityPrincipalMeetsTarget | ifrs_16_golang/internal/calculation/amortization.go:142-259 | the reconciled targets meet the payment total within a cent; every payment is allocated by the end exactly when the term fits in a `time.Duration`, and then the principal paid is within a cent of its target |
| Amortization.LiabilityBalanceIsUnpaidPrincipal | ifrs_16_golang/internal/calculation/amortization.go:161-270 | before each day the balance is the initial liability less the principal allocated so far |
| Amortization.BalanceAndPrincipalMoveTogether | ifrs_16_golang/internal/calculation/amortization.go:161-270 | a walk that does not reach the end date keeps balance plus principal paid constant |
| Amortization.LiabilityDayKeepsSum | ifrs_16_golang/internal/calculation/amortization.go:225-270 | a day other than the end date moves its principal from the balance to the principal paid |
| Summary.CalculationResult.constructor | ifrs_16_golang/cmd/server/main.go:23-46 | a result holds its schedules, with the summary fields at Go's zero values |
| Summary.FirstOnOrAfter | ifrs_16_golang/cmd/server/main.go:521-529 | the first entry on or after the window start, or none |
| Summary.FirstAfter | ifrs_16_golang/cmd/server/main.go:546-555 | the first entry strictly after the window end, or none |
| Summary.LastOn | ifrs_16_golang/cmd/server/main.go:546-555 | the last entry dated the window end, or none |
| Summary.LiabilityTotalsReconcile | ifrs_16_golang/cmd/server/main.go:565-575 | after correction principal is within a cent of the balance fall and principal plus interest within a cent of payments; figures that already reconciled are kept |
| Summary.RouTotalsReconcile | ifrs_16_golang/cmd/server/main.go:635-638 | after correction depreciation is within a cent of the fall in the asset; a reconciled sum is kept |
| Summary.StoredLiabilityReconciles | ifrs_16_golang/cmd/server/main.go:578-586 | the stored rounded liability figures still reconcile within 2.5 cents |
| Summary.StoredRouReconciles | ifrs_16_golang/cmd/server/main.go:641-647 | the stored rounded depreciation reconciles within 2.5 cents |
| Summary.StoredFiguresAreRounded | ifrs_16_golang/cmd/server/main.go:578-586 | rounding the stored figures again changes nothing |
| Summary.StartBalanceRule | ifrs_16_golang/cmd/server/main.go:521-529 | the start balance is the first on-or-after entry's opening balance, or its predecessor's closing balance when it lies after the start |
| Summary.StartBalanceNone | ifrs_16_golang/cmd/server/main.go:521-529 | with no entry on or after the start the start balance is zero |
| Summary.EndBalanceOnEnd | ifrs_16_golang/cmd/server/main.go:546-555 | an entry dated the end gives its closing balance, the last such entry winning |
| Summary.EndBalanceAfterEnd | ifrs_16_golang/cmd/server/main.go:546-555 | with none dated the end, the first entry after it gives its predecessor's closing balance, or its own at index 0 |
| Summary.EndBalanceNone | ifrs_16_golang/cmd/server/main.go:559-562 | with neither, the last entry's closing balance is used |
| Summary.WholeTermBalances | ifrs_16_golang/cmd/server/main.go:521-562 | a window from a schedule's first date to its last gives the schedule's first opening and last closing balances |
| Summary.WholeTermLiabilityBalances | ifrs_16_golang/cmd/server/main.go:521-562 | over the whole term of a lease that fits in a `time.Duration`, the liability summary opens at the rounded initial liability and closes at zero |
| Summary.ChainedStartBalance | ifrs_16_golang/cmd/server/main.go:521-529 | on chained schedules both start branches agree on the first on-or-after entry's opening balance |
| Summary.WindowPaymentsNonNegative | ifrs_16_golang/cmd/server/main.go:532-543 | only positive payments are summed, so the payment total is not negative |
| Summary.EmptyWindowTotals | ifrs_16_golang/cmd/server/main.go:532-543 | a window no entry falls in has all four totals zero |
| Summary.ScanLiability | ifrs_16_golang/cmd/server/main.go:512-562 | the liability scan finds the specified start and end balances and the three window totals |
| Summary.ScanRou | ifrs_16_golang/cmd/server/main.go:590-632 | the right-of-use scan finds the specified balances and window depreciation |
| Summary.StartEdge | ifrs_16_golang/cmd/server/main.go:521-529 | the start-edge step of both loops keeps the scan's start invariant |
| Summary.EndEdge | ifrs_16_golang/cmd/server/main.go:546-555 | the end-edge step of both loops keeps the scan's end invariant |
| Summary.ParseWindow | ifrs_16_golang/cmd/server/main.go:492-505 | an unparsable start, then an unparsable end, then a reversed window are refused in that order; otherwise the window is the two dates |
| Summary.CalculateAccountingPeriodSummary | ifrs_16_golang/cmd/server/main.go:490-651 | an error leaves the result untouched; otherwise the window strings are stored and each non-empty schedule's fields get its rounded figures, an empty one's are left as they were |
| Summary.SummaryIsRepeatable | ifrs_16_golang/cmd/server/main.go:490-651 | a second run with the same window gives the same answer and leaves the fields as the first run did |
| Summary.WriteSummary | ifrs_16_golang/cmd/server/main.go:508-648 | the writes of a successful summary, the liability part and then the right-of-use part |
| Summary.SummariseLiability | ifrs_16_golang/cmd/server/main.go:512-587 | only the five liability fields change, to the rounded figures, and only for a non-empty schedule |
| Summary.SummariseRou | ifrs_16_golang/cmd/server/main.go:590-648 | only the three right-of-use fields change, and only for a non-empty schedule |
| Parsing.TrimLeftMeaning | ifrs_16_golang/internal/platform/parsing/parser.go:212-214 | leading trimming drops only white space, and what remains does not start with it |
| Parsing.TrimRightMeaning | ifrs_16_golang/internal/platform/parsing/parser.go:212-214 | trailing trimming drops only white space, and what remains does not end with it |
| Parsing.TrimSpaceIsTrimmed | ifrs_16_golang/internal/platform/parsing/parser.go:212-214 | `strings.TrimSpace` leaves no white space at either end |
| Parsing.TrimSpaceOfTrimmed | ifrs_16_golang/internal/platform/parsing/parser.go:212-214 | a trimmed string is its own `TrimSpace` |
| Parsing.TrimSpaceIdempotent | ifrs_16_golang/internal/platform/parsing/parser.go:27-34 | trimming twice is trimming once |
| Parsing.LowerChar | ifrs_16_golang/internal/platform/parsing/parser.go:260-263 | a lower-cased letter is never upper case |
| Parsing.LowerCaseIsKept | ifrs_16_golang/internal/platform/parsing/parser.go:260-263 | `strings.ToLower` keeps a string with no upper-case letters |
| Parsing.TitleAfter | ifrs_16_golang/internal/platform/parsing/parser.go:261-263 | `strings.Title` keeps the length, changes a character only to its title case, and title-cases the first character after a separator |
| Parsing.TitleOfLower | ifrs_16_golang/internal/platform/parsing/parser.go:260-263 | a lower-case string titles to `w` only if it is `w` lower-cased |
| Parsing.TitleOfWord | ifrs_16_golang/internal/platform/parsing/parser.go:260-263 | `strings.Title` of one lower-case word capitalises its first letter only |
| Parsing.CasesOfWord | ifrs_16_golang/internal/platform/parsing/parser.go:254-263 | a capitalised ASCII word lower-cases to its lower-case spelling, and title-casing that gives the word back |
| Parsing.LowerOfCanonical | ifrs_16_golang/internal/platform/parsing/parser.go:254-263 | each canonical name lower-cases to its lower spelling, which titles back to it |
| Parsing.RecordFrequencyIsCaseInsensitive | ifrs_16_golang/internal/platform/parsing/parser.go:251-268 | a frequency is accepted exactly when it spells one of the three names in any letter case, and the canonical name is stored |
| Parsing.RecordFrequencyExamples | ifrs_16_golang/internal/platform/parsing/parser.go:251-268 | "monthly" is accepted as Monthly and "Weekly" is refused |
| Parsing.AliasesExtendRecordRule | ifrs_16_golang/internal/platform/parsing/parser.go:386-402 | every frequency the record parser accepts, the row parser's aliases accept with the same meaning |
| Parsing.AliasOfName | ifrs_16_golang/internal/platform/parsing/parser.go:386-402 | the row parser reads each supported frequency's name back as that frequency |
| Parsing.PercentToDecimal | ifrs_16_golang/internal/platform/parsing/parser.go:411-416 | a rate of at most 1 is kept; one above 1 is a percentage divided by 100 |
| Parsing.PercentAndDecimalAgree | ifrs_16_golang/internal/platform/parsing/parser.go:411-416 | a rate above 1% means the same whether typed as a decimal or as a percentage |
| Parsing.PercentToDecimalBounds | ifrs_16_golang/internal/platform/parsing/parser.go:411-416 | every positive rate up to 100 ends in (0, 1] |
| Parsing.TrimAll | ifrs_16_golang/internal/platform/parsing/parser.go:212-214 | trimming keeps the column count |
| Parsing.RecordLeaseIsValid | ifrs_16_golang/internal/platform/parsing/parser.go:217-292 | a parsed record has a non-empty ID, each field read from its own column, a supported frequency, an end not before its start, and positive payment and rate |
| Parsing.MissingFieldsInOrder | ifrs_16_golang/internal/platform/parsing/parser.go:217-277 | the first empty column is the one reported, after every earlier column was present and parsed |
| Parsing.ParseRecordToLease | ifrs_16_golang/internal/platform/parsing/parser.go:201-293 | a short record is refused untouched; otherwise every field is trimmed in place and the trimmed record is validated by `RecordToLease` |
| Parsing.TrimInPlace | ifrs_16_golang/internal/platform/parsing/parser.go:212-214 | each element of the record becomes its `TrimSpace` |
| Parsing.Split | ifrs_16_golang/internal/platform/parsing/parser.go:306-314 | `strings.Split` gives at least one piece, and no piece holds the separator |
| Parsing.JoinSplit | ifrs_16_golang/internal/platform/parsing/parser.go:306-314 | joining the pieces with the separator gives the string back |
| Parsing.PairsToPaymentsCount | ifrs_16_golang/internal/platform/parsing/parser.go:306-337 | on success there is one payment per non-empty segment, in order, and every non-empty segment parses |
| Parsing.BadSegmentFails | ifrs_16_golang/internal/platform/parsing/parser.go:306-337 | a bad segment makes the segment loop fail |
| Parsing.FailureSticks | ifrs_16_golang/internal/platform/parsing/parser.go:306-337 | once failed, later segments leave the error as it is |
| Parsing.ExtraPaymentsCount | ifrs_16_golang/internal/platform/parsing/parser.go:298-340 | a successful parse has one payment per non-empty segment, and each such segment is exactly one date and one amount |
| Parsing.MalformedSegmentFails | ifrs_16_golang/internal/platform/parsing/parser.go:313-316 | a segment that is not one "DATE:AMOUNT" pair rejects the whole input |
| Parsing.ParseSegment | ifrs_16_golang/internal/platform/parsing/parser.go:313-330 | the loop body splits at ":", trims both halves, and parses the date and then the amount |
| Parsing.ParseExtraPayments | ifrs_16_golang/internal/platform/parsing/parser.go:298-340 | the loop computes `ExtraPayments`: nothing for an empty input, else the segments in order or the first error |
| Parsing.PairTrimsOnce | ifrs_16_golang/internal/platform/parsing/parser.go:318-330 | a pair parses exactly when its trimmed date and amount parse; the second trim changes nothing |

## Left out

- HTTP handling, templates, file upload, Excel export and the server's request plumbing are not modelled. Only the summary in `cmd/server/main.go` is.
- Date and number parsing (`time.Parse` with layout "2006-01-02", `strconv.ParseFloat`) are parameters. `ParseRecordToLease` and `ParseExtraPayments` take them as partial functions. The summary takes the two parsed window dates as `Option`s.
- Floating point: all amounts are exact reals. IEEE rounding error, overflow, infinities and NaN are not modelled.
- Amortization.InterestShare: when the payment total is 0, Go divides by zero and gets Inf or NaN. The model takes the proportional interest share as 0.
- Time zones and clock time: dates are UTC calendar days.
- Parsing.LowerChar: non-ASCII case mapping is left out. `unicode.ToLower` and `unicode.ToTitle` are applied only to ASCII letters and keep every other character. A non-ASCII letter that lower-cases to ASCII (the Kelvin sign) is therefore not covered.
- The payment map followed by `sort.Slice` is one association list kept sorted by date. Go map iteration order does not affect the result, so it is not modelled.
- Amortization.GenerateRoUAssetSchedule: the negative-balance check inside the day loop (amortization.go:338-341) is left out. `StraightLineBalanceBounds` shows that it cannot fire for a non-negative asset.
- The `default:` branch of the months switch in `GenerateLiabilitySchedule` (amortization.go:80-81) is not modelled. `getPeriodsAndRate` has already rejected every frequency it could catch.
- The second copy of the accounting-period summary in `amortization.go` (from line 361) matches the one in `main.go` and is not modelled separately.
- Error messages are datatype tags carrying the offending text, not Go's formatted strings.
- On error Go returns a partially filled lease, which the model does not return.
- `parseLeaseFromRow` (the header-mapped row parser), apart from its frequency aliases and percentage rule, is not modelled. Neither are its optional columns and column map, nor `ParseLeasesFromFile` and the CSV/XLSX readers.
- The expectations in `amortization_test.go` are not restated. They expect one row per payment period, but the code writes one row per day. The hard-coded interest and principal targets (121328.79 and 1078671.21) are modelled as the code has them.
- PresentValue.CalculateLeaseLiability: the present values 11681.22 and 36627.41 expected by `present_value_test.go` are not evaluated. Only the period counts of those tests are proved.
- LiabilityPrincipalMeetsTarget: the principal paid meets the fixed target 1078671.21, not the initial liability. The code allocates principal against that fixed target (amortization.go:142-143, 225-246). On the end date it sets the closing balance to zero without changing the principal (amortization.go:252-258). `LiabilityBalanceIsUnpaidPrincipal` shows that the balance before each day is the initial liability less the principal paid, so that write-off absorbs any difference.
- The initial right-of-use asset takes no initial direct costs, incentives or restoration costs into account. The source does not include them either.
