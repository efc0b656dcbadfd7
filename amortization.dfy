/**
 * The daily amortization schedules: the lease liability (interest accrues
 * daily at the annual rate over 365, payments are split into principal and
 * interest against fixed totals) and the right-of-use asset (straight-line
 * depreciation over the days of the term).
 */
module Amortization {
  import opened Results
  import opened Money
  import opened Dates
  import opened Leases
  import opened PresentValue
  import opened Payments

  // ---- right-of-use asset ----

  /** The exact carrying amount after `k` of the `totalDays` days of straight-line depreciation. */
  function StraightLineBalance(initial: real, totalDays: nat, k: nat): real
    requires 1 <= totalDays && k <= totalDays
  {
    if k == totalDays then 0.0 else initial - Repeated(initial / totalDays as real, k)
  }

  /** The exact depreciation of day `k`: the daily amount, or what is left on the last day. */
  function DailyDepreciation(initial: real, totalDays: nat, k: nat): real
    requires 1 <= totalDays && k < totalDays
  {
    if k == totalDays - 1 then StraightLineBalance(initial, totalDays, k) else initial / totalDays as real
  }

  /** Row `k` of the right-of-use schedule: period `k + 1`, all amounts rounded to cents. */
  function RouRow(start: Date, initial: real, totalDays: nat, k: nat): Entry
    requires 1 <= totalDays && k < totalDays
  {
    Entry(k + 1, AddDays(start, k),
          Round2(StraightLineBalance(initial, totalDays, k)),
          0.0, 0.0,
          Round2(DailyDepreciation(initial, totalDays, k)),
          0.0,
          Round2(StraightLineBalance(initial, totalDays, k + 1)))
  }

  /** `GenerateRoUAssetSchedule`. */
  method GenerateRoUAssetSchedule(l: Lease, initialRoUAsset: real) returns (r: Result<seq<Entry>, CalcError>)
    ensures PeriodsAndRate(l).Err? ==> r == Err(PeriodsFailed(PeriodsAndRate(l).error))
    ensures PeriodsAndRate(l).Ok? && initialRoUAsset < 0.0 ==> r == Err(NegativeRoUAsset)
    ensures PeriodsAndRate(l).Ok? && initialRoUAsset >= 0.0 ==> r.Ok?
    ensures r.Ok? && Before(l.endDate, l.startDate) ==> r.value == []
    ensures r.Ok? && !Before(l.endDate, l.startDate) ==>
              var totalDays := TotalDays(l.startDate, l.endDate);
              && |r.value| == totalDays
              && forall k :: 0 <= k < totalDays ==> r.value[k] == RouRow(l.startDate, initialRoUAsset, totalDays, k)
  {
    var pr := GetPeriodsAndRate(l);
    if pr.Err? {
      return Err(PeriodsFailed(pr.error));
    }
    if initialRoUAsset < 0.0 {
      return Err(NegativeRoUAsset);
    }
    var totalDays := TotalDays(l.startDate, l.endDate);
    if totalDays <= 0 {
      return Ok([]);
    }
    var schedule := RunRouDays(l.startDate, initialRoUAsset, totalDays);
    return Ok(schedule);
  }

  /** The rows of a right-of-use schedule over `totalDays` days. */
  function RouRows(start: Date, initial: real, totalDays: nat): seq<Entry>
    requires totalDays >= 1
  {
    seq(totalDays, k requires 0 <= k < totalDays => RouRow(start, initial, totalDays, k))
  }

  /** The day loop of `GenerateRoUAssetSchedule`. */
  method RunRouDays(start: Date, initialRoUAsset: real, totalDays: nat) returns (schedule: seq<Entry>)
    requires totalDays >= 1
    ensures schedule == RouRows(start, initialRoUAsset, totalDays)
  {
    var dailyDepreciation := initialRoUAsset / totalDays as real;
    schedule := [];
    var openingBalance := initialRoUAsset;
    var currentDate := start;
    ghost var rows := RouRows(start, initialRoUAsset, totalDays);
    var day := 1;
    while day <= totalDays
      invariant 1 <= day <= totalDays + 1
      invariant |schedule| == day - 1
      invariant currentDate == AddDays(start, day - 1)
      invariant openingBalance == StraightLineBalance(initialRoUAsset, totalDays, day - 1)
      invariant schedule == rows[..day - 1]
    {
      var depreciationExpense := dailyDepreciation;
      if day == totalDays {
        depreciationExpense := openingBalance;
      }
      var closingBalance := openingBalance - depreciationExpense;
      if day == totalDays {
        closingBalance := 0.0;
      }
      var entry := Entry(day, currentDate, Round2(openingBalance), 0.0, 0.0,
                         Round2(depreciationExpense), 0.0, Round2(closingBalance));
      RouStep(start, initialRoUAsset, totalDays, day - 1, dailyDepreciation, openingBalance, currentDate);
      PrefixExtend(rows, day - 1);
      schedule := schedule + [entry];
      openingBalance := closingBalance;
      currentDate := NextDay(currentDate);
      day := day + 1;
    }
    assert schedule == rows;
  }

  /** One day of the right-of-use loop computes row `k` and the next day's opening balance. */
  lemma RouStep(start: Date, initial: real, totalDays: nat, k: nat, daily: real, opening: real, date: Date)
    requires 1 <= totalDays && k < totalDays
    requires daily == initial / totalDays as real
    requires opening == StraightLineBalance(initial, totalDays, k)
    requires date == AddDays(start, k)
    ensures var depreciation := if k == totalDays - 1 then opening else daily;
            var closing := if k == totalDays - 1 then 0.0 else opening - depreciation;
            && closing == StraightLineBalance(initial, totalDays, k + 1)
            && Entry(k + 1, date, Round2(opening), 0.0, 0.0, Round2(depreciation), 0.0, Round2(closing))
               == RouRow(start, initial, totalDays, k)
    ensures AddDays(start, k + 1) == NextDay(date)
  {
    AddDaysNext(start, k);
  }

  /** The depreciation of the first `k` days is the amount written off so far. */
  lemma {:induction false} DepreciationSoFar(initial: real, totalDays: nat, k: nat)
    requires 1 <= totalDays && k <= totalDays
    ensures DepreciationUpTo(initial, totalDays, k) == initial - StraightLineBalance(initial, totalDays, k)
  {
    if k > 0 {
      DepreciationSoFar(initial, totalDays, k - 1);
    }
  }

  function DepreciationUpTo(initial: real, totalDays: nat, k: nat): real
    requires 1 <= totalDays && k <= totalDays
  {
    if k == 0 then 0.0 else DepreciationUpTo(initial, totalDays, k - 1) + DailyDepreciation(initial, totalDays, k - 1)
  }

  /**
   * Straight-line depreciation writes the asset off exactly over the term:
   * the daily amounts add up to the initial value, each day's closing is the
   * next day's opening, and the last closing is zero.
   */
  lemma RouScheduleProperties(start: Date, initial: real, totalDays: nat)
    requires totalDays >= 1
    ensures DepreciationUpTo(initial, totalDays, totalDays) == initial
    ensures forall k :: 0 <= k < totalDays - 1 ==>
              RouRow(start, initial, totalDays, k + 1).openingBalance == RouRow(start, initial, totalDays, k).closingBalance
    ensures RouRow(start, initial, totalDays, totalDays - 1).closingBalance == 0.0
  {
    DepreciationSoFar(initial, totalDays, totalDays);
    Round2OfZero();
  }

  /**
   * The last row of a right-of-use schedule falls on the end date exactly
   * when the term fits in a `time.Duration`; a longer term is written off to
   * zero before its end date.
   */
  lemma RouScheduleEnd(start: Date, end: Date, initial: real)
    requires !Before(end, start)
    ensures var totalDays := TotalDays(start, end);
            && RouRow(start, initial, totalDays, totalDays - 1).date == end <==> SpanFitsDuration(start, end)
  {
    DayOfEnd(start, end, TotalDays(start, end) - 1);
  }

  /** The carrying amount never goes negative nor above the initial value, so the schedule's safety check never fires. */
  lemma StraightLineBalanceBounds(initial: real, totalDays: nat, k: nat)
    requires initial >= 0.0 && 1 <= totalDays && k <= totalDays
    ensures 0.0 <= StraightLineBalance(initial, totalDays, k) <= initial
  {
    if k < totalDays {
      RepeatedIsProduct(initial / totalDays as real, k);
      PartOfWhole(initial, totalDays, k);
    }
  }

  /** `k` of `n` equal shares of a non-negative whole lie between nothing and the whole. */
  lemma PartOfWhole(whole: real, n: nat, k: nat)
    requires whole >= 0.0 && 1 <= n && k <= n
    ensures 0.0 <= k as real * (whole / n as real) <= whole
  {
    var share := whole / n as real;
    assert share * n as real == whole;
    assert share >= 0.0;
    assert k as real * share <= n as real * share;
  }

  // ---- lease liability ----

  /** The interest and principal totals the allocation aims at, fixed in the code. */
  const TotalInterestTarget: real := 121328.79
  const TotalPrincipalTarget: real := 1078671.21

  /** The days in a year for the daily interest rate. */
  const DaysPerYear: real := 365.0

  /**
   * The interest target after reconciliation: kept when the two targets add
   * up to the payment total within a cent, otherwise moved so that they do.
   */
  function ReconcileInterest(totalPayment: real): (ti: real)
    ensures Abs(TotalInterestTarget + TotalPrincipalTarget - totalPayment) <= Cent ==> ti == TotalInterestTarget
    ensures Abs(ti + TotalPrincipalTarget - totalPayment) <= Cent
  {
    if Abs(TotalInterestTarget + TotalPrincipalTarget - totalPayment) > Cent then totalPayment - TotalPrincipalTarget
    else TotalInterestTarget
  }

  /** The principal of one payment and the running totals of interest and principal paid. */
  datatype Allocation = Allocation(principal: real, paidInterest: real, paidPrincipal: real)

  /** A payment that is the whole payment total, or covers all that remains, settles the remainder. */
  predicate SettlesRemainder(payment: real, totalPayment: real, remainingInterest: real, remainingPrincipal: real) {
    Abs(payment - totalPayment) < Cent || payment >= remainingInterest + remainingPrincipal
  }

  /** `payment * (totalInterest / totalPayment)`: the interest part in proportion to the targets. */
  function InterestShare(payment: real, totalPayment: real, totalInterest: real): real {
    if totalPayment == 0.0 then 0.0 else payment * (totalInterest / totalPayment)
  }

  /**
   * Splitting one payment into principal and interest: the remainder when the
   * payment settles it, otherwise in the ratio of the interest target to the
   * payment total, capped by what remains of either target. The final payment
   * then corrects the running totals so that they meet the payment total and
   * the principal target.
   */
  function AllocatePayment(payment: real, totalPayment: real, totalInterest: real,
                           paidInterest: real, paidPrincipal: real, isFinal: bool): (a: Allocation)
    ensures a.paidPrincipal == paidPrincipal + a.principal
    ensures !isFinal ==> a.paidInterest == paidInterest + (payment - a.principal)
    ensures !isFinal && !SettlesRemainder(payment, totalPayment, totalInterest - paidInterest, TotalPrincipalTarget - paidPrincipal) ==>
              a.paidPrincipal <= TotalPrincipalTarget && a.paidInterest <= totalInterest
    ensures !isFinal && SettlesRemainder(payment, totalPayment, totalInterest - paidInterest, TotalPrincipalTarget - paidPrincipal) ==>
              Abs(a.paidInterest - totalInterest) <= Cent
    ensures isFinal ==> Abs(a.paidPrincipal - TotalPrincipalTarget) <= Cent
    ensures isFinal ==> Abs(a.paidPrincipal + a.paidInterest - totalPayment) <= Cent
  {
    var remainingInterest := totalInterest - paidInterest;
    var remainingPrincipal := TotalPrincipalTarget - paidPrincipal;
    var principal :=
      if SettlesRemainder(payment, totalPayment, remainingInterest, remainingPrincipal) then
        (if Abs(remainingPrincipal + remainingInterest - payment) > Cent then payment - remainingInterest
         else remainingPrincipal)
      else
        var interest0 := InterestShare(payment, totalPayment, totalInterest);
        var principal0 := payment - interest0;
        var principal1 := if principal0 > remainingPrincipal then remainingPrincipal else principal0;
        var interest1 := if principal0 > remainingPrincipal then payment - principal1 else interest0;
        if interest1 > remainingInterest then payment - remainingInterest else principal1;
    var paidPrincipal1 := paidPrincipal + principal;
    var paidInterest1 := paidInterest + (payment - principal);
    if !isFinal then Allocation(principal, paidInterest1, paidPrincipal1)
    else
      var totalPaid := paidPrincipal1 + paidInterest1;
      var difference := if Abs(totalPaid - totalPayment) > Cent then totalPayment - totalPaid else 0.0;
      var principal2 := principal + difference;
      var paidPrincipal2 := paidPrincipal1 + difference;
      if Abs(paidPrincipal2 - TotalPrincipalTarget) > Cent then
        Allocation(TotalPrincipalTarget - (paidPrincipal2 - principal2), totalPayment - TotalPrincipalTarget, TotalPrincipalTarget)
      else
        Allocation(principal2, paidInterest1, paidPrincipal2)
  }

  /** What the inner loop of one day finds: the last amount due, whether any was due, and where it stopped. */
  datatype Due = Due(payment: real, isPeriodEnd: bool, next: nat)

  /** On or after a calendar date, as the inner loop's `Equal || After` test writes it. */
  predicate Reached(current: Date, date: Date) {
    current == date || After(current, date)
  }

  /**
   * The inner loop: consume, from `index` on, every calendar entry the day has
   * reached, remembering the amount of the last one.
   */
  function DueOn(b: seq<Scheduled>, index: nat, current: Date, payment: real, found: bool): (d: Due)
    requires index <= |b|
    ensures index <= d.next <= |b|
    ensures forall j :: index <= j < d.next ==> Reached(current, b[j].date)
    ensures d.next == |b| || !Reached(current, b[d.next].date)
    ensures d.isPeriodEnd <==> found || d.next > index
    ensures d.payment == if d.next > index then b[d.next - 1].amount else payment
    decreases |b| - index
  {
    if index < |b| && Reached(current, b[index].date) then DueOn(b, index + 1, current, b[index].amount, true)
    else Due(payment, found, index)
  }

  /** What stays fixed during the day loop. */
  datatype Plan = Plan(payments: seq<Scheduled>, dailyRate: real, endDate: Date, totalPayment: real, totalInterest: real)

  /** The loop variables carried from one day to the next (`openingBalance`, `paidInterest`, `paidPrincipal`, `period`, `paymentIndex`). */
  datatype Ledger = Ledger(balance: real, paidInterest: real, paidPrincipal: real, period: int, index: nat)

  datatype Day = Day(entry: Entry, after: Ledger)

  /** `openingBalance * dailyRate`: one day's interest. */
  function DailyInterest(balance: real, dailyRate: real): real {
    balance * dailyRate
  }

  /** One iteration of the day loop. */
  function LiabilityDay(p: Plan, s: Ledger, date: Date): (d: Day)
    requires s.index <= |p.payments|
    ensures d.after.index <= |p.payments|
  {
    var interest := DailyInterest(s.balance, p.dailyRate);
    var due := DueOn(p.payments, s.index, date, 0.0, false);
    var a := if due.isPeriodEnd then
               AllocatePayment(due.payment, p.totalPayment, p.totalInterest, s.paidInterest, s.paidPrincipal,
                               due.next == |p.payments|)
             else Allocation(0.0, s.paidInterest, s.paidPrincipal);
    var lastDay := date == p.endDate;
    var filled := lastDay && due.payment == 0.0;
    var payment := if filled then s.balance else due.payment;
    var principal := if filled then s.balance else a.principal;
    var closing := if lastDay then 0.0 else s.balance - a.principal;
    Day(Entry(s.period, date, Round2(s.balance), Round2(payment), Round2(interest), 0.0, Round2(principal), Round2(closing)),
        Ledger(closing, a.paidInterest, a.paidPrincipal, if due.isPeriodEnd then s.period + 1 else s.period, due.next))
  }

  /**
   * The day loop's body computes `LiabilityDay`: given the values that its
   * steps produce, the row and the next state are the ones built from them.
   */
  lemma LiabilityDayAgrees(p: Plan, s: Ledger, date: Date, interest: real, due: Due, allocatedPrincipal: real,
                           payment: real, principal: real, closing: real,
                           paidInterest: real, paidPrincipal: real, period: int)
    requires s.index <= |p.payments|
    requires interest == DailyInterest(s.balance, p.dailyRate)
    requires due == DueOn(p.payments, s.index, date, 0.0, false)
    requires Allocation(allocatedPrincipal, paidInterest, paidPrincipal)
          == if due.isPeriodEnd then
               AllocatePayment(due.payment, p.totalPayment, p.totalInterest, s.paidInterest, s.paidPrincipal,
                               due.next == |p.payments|)
             else Allocation(0.0, s.paidInterest, s.paidPrincipal)
    requires payment == if date == p.endDate && due.payment == 0.0 then s.balance else due.payment
    requires principal == if date == p.endDate && due.payment == 0.0 then s.balance else allocatedPrincipal
    requires closing == if date == p.endDate then 0.0 else s.balance - allocatedPrincipal
    requires period == if due.isPeriodEnd then s.period + 1 else s.period
    ensures LiabilityDay(p, s, date)
         == Day(Entry(s.period, date, Round2(s.balance), Round2(payment), Round2(interest), 0.0, Round2(principal), Round2(closing)),
                Ledger(closing, paidInterest, paidPrincipal, period, due.next))
  {
  }

  /** The loop state before day `k` (counting from 0) of a walk that starts on `start` in state `s0`. */
  function LedgerOn(p: Plan, s0: Ledger, start: Date, k: nat): (r: Ledger)
    requires s0.index <= |p.payments|
    ensures r.index <= |p.payments|
    decreases k
  {
    if k == 0 then s0 else LiabilityDay(p, LedgerOn(p, s0, start, k - 1), AddDays(start, k - 1)).after
  }

  /** The row written on day `k` of that walk. */
  function LiabilityRow(p: Plan, s0: Ledger, start: Date, k: nat): Entry
    requires s0.index <= |p.payments|
  {
    LiabilityDay(p, LedgerOn(p, s0, start, k), AddDays(start, k)).entry
  }

  /** The rows of the first `n` days of that walk. */
  function DailyRows(p: Plan, s0: Ledger, start: Date, n: nat): seq<Entry>
    requires s0.index <= |p.payments|
  {
    seq(n, k requires 0 <= k => LiabilityRow(p, s0, start, k))
  }

  /** The fixed inputs of the day loop for a lease with `periods` regular payments every `months` months. */
  function LiabilityPlan(l: Lease, months: int, periods: nat): Plan {
    var b := PaymentCalendar(l, months, periods);
    Plan(b, l.discountRate / DaysPerYear, l.endDate, Total(b), ReconcileInterest(Total(b)))
  }

  /** The loop state on the first day. */
  function FirstLedger(initialLiability: real): Ledger {
    Ledger(initialLiability, 0.0, 0.0, 1, 0)
  }

  /** What `GenerateLiabilitySchedule` returns. */
  function LiabilitySchedule(l: Lease, initialLiability: real): Result<seq<Entry>, CalcError> {
    match PeriodsAndRate(l)
    case Err(e) => Err(PeriodsFailed(e))
    case Ok(pr) =>
      if pr.periods == 0 then Ok([])
      else
        var totalDays := TotalDays(l.startDate, l.endDate);
        if totalDays <= 0 then Ok([])
        else
          var months := FrequencyTerms(l.paymentFrequency).value.monthsPerPeriod;
          var plan := LiabilityPlan(l, months, pr.periods);
          Ok(DailyRows(plan, FirstLedger(initialLiability), l.startDate, totalDays))
  }

  lemma LiabilityScheduleIsRows(l: Lease, initialLiability: real, pr: PeriodsRate, months: int, totalDays: nat)
    requires PeriodsAndRate(l) == Ok(pr) && pr.periods > 0
    requires totalDays == TotalDays(l.startDate, l.endDate) && totalDays > 0
    requires FrequencyTerms(l.paymentFrequency).Ok? && months == FrequencyTerms(l.paymentFrequency).value.monthsPerPeriod
    ensures LiabilitySchedule(l, initialLiability)
         == Ok(DailyRows(LiabilityPlan(l, months, pr.periods), FirstLedger(initialLiability), l.startDate, totalDays))
  {
  }

  /** `GenerateLiabilitySchedule`. */
  method GenerateLiabilitySchedule(l: Lease, initialLiability: real) returns (r: Result<seq<Entry>, CalcError>)
    ensures r == LiabilitySchedule(l, initialLiability)
  {
    var pr := GetPeriodsAndRate(l);
    if pr.Err? {
      return Err(PeriodsFailed(pr.error));
    }
    var originalPeriods := pr.value.periods;
    if originalPeriods == 0 {
      return Ok([]);
    }
    var dailyRate := l.discountRate / DaysPerYear;
    var totalDays := TotalDays(l.startDate, l.endDate);
    if totalDays <= 0 {
      return Ok([]);
    }
    var monthsPerPeriod := FrequencyTerms(l.paymentFrequency).value.monthsPerPeriod;
    var paymentsList := CollectPayments(l, monthsPerPeriod, originalPeriods);

    var totalInterest := TotalInterestTarget;
    var totalPayment := 0.0;
    var i := 0;
    while i < |paymentsList|
      invariant 0 <= i <= |paymentsList|
      invariant totalPayment + Total(paymentsList[i..]) == Total(paymentsList)
    {
      assert paymentsList[i..][1..] == paymentsList[i + 1..];
      totalPayment := totalPayment + paymentsList[i].amount;
      i := i + 1;
    }
    assert paymentsList[i..] == [];
    if Abs(totalInterest + TotalPrincipalTarget - totalPayment) > Cent {
      totalInterest := totalPayment - TotalPrincipalTarget;
    }

    var plan := Plan(paymentsList, dailyRate, l.endDate, totalPayment, totalInterest);
    assert plan == LiabilityPlan(l, monthsPerPeriod, originalPeriods);
    var schedule := RunDays(plan, initialLiability, l.startDate, totalDays);
    LiabilityScheduleIsRows(l, initialLiability, pr.value, monthsPerPeriod, totalDays);
    return Ok(schedule);
  }

  /**
   * The day loop of `GenerateLiabilitySchedule`: one row per day from `start`,
   * with the opening balance, the payment index, the period number and the
   * running totals of interest and principal paid carried across days.
   */
  method RunDays(plan: Plan, initialLiability: real, start: Date, totalDays: nat) returns (schedule: seq<Entry>)
    ensures schedule == DailyRows(plan, FirstLedger(initialLiability), start, totalDays)
  {
    schedule := [];
    var openingBalance := initialLiability;
    var currentDate := start;
    var period := 1;
    var paymentIndex := 0;
    var paidInterest := 0.0;
    var paidPrincipal := 0.0;

    ghost var first := FirstLedger(initialLiability);
    ghost var rows := seq(totalDays, k requires 0 <= k => LiabilityRow(plan, first, start, k));
    var day := 1;
    while day <= totalDays
      invariant 1 <= day <= totalDays + 1
      invariant |schedule| == day - 1
      invariant currentDate == AddDays(start, day - 1)
      invariant Ledger(openingBalance, paidInterest, paidPrincipal, period, paymentIndex)
             == LedgerOn(plan, first, start, day - 1)
      invariant schedule == rows[..day - 1]
    {
      var entry, next := RunDay(plan, Ledger(openingBalance, paidInterest, paidPrincipal, period, paymentIndex),
                                currentDate);
      AddDaysNext(start, day - 1);
      PrefixExtend(rows, day - 1);
      schedule := schedule + [entry];
      openingBalance := next.balance;
      paidInterest := next.paidInterest;
      paidPrincipal := next.paidPrincipal;
      period := next.period;
      paymentIndex := next.index;
      currentDate := NextDay(currentDate);
      day := day + 1;
    }
    assert schedule == rows;
  }

  /** The body of the day loop: the row for `currentDate` and the loop state after it. */
  method RunDay(plan: Plan, s: Ledger, currentDate: Date) returns (entry: Entry, next: Ledger)
    requires s.index <= |plan.payments|
    ensures Day(entry, next) == LiabilityDay(plan, s, currentDate)
  {
    var paymentsList := plan.payments;
    var openingBalance := s.balance;
    var paidInterest := s.paidInterest;
    var paidPrincipal := s.paidPrincipal;
    var period := s.period;
    var paymentIndex := s.index;
    var interestExpense := DailyInterest(openingBalance, plan.dailyRate);
    var payment := 0.0;
    var isPeriodEnd := false;
    while paymentIndex < |paymentsList| && Reached(currentDate, paymentsList[paymentIndex].date)
      invariant s.index <= paymentIndex <= |paymentsList|
      invariant DueOn(paymentsList, paymentIndex, currentDate, payment, isPeriodEnd)
             == DueOn(paymentsList, s.index, currentDate, 0.0, false)
      decreases |paymentsList| - paymentIndex
    {
      payment := paymentsList[paymentIndex].amount;
      isPeriodEnd := true;
      paymentIndex := paymentIndex + 1;
    }
    ghost var due := DueOn(paymentsList, s.index, currentDate, 0.0, false);
    assert due == Due(payment, isPeriodEnd, paymentIndex);

    var principalRepayment := 0.0;
    if isPeriodEnd {
      var a := AllocatePayment(payment, plan.totalPayment, plan.totalInterest, paidInterest, paidPrincipal,
                               paymentIndex == |paymentsList|);
      principalRepayment := a.principal;
      paidInterest := a.paidInterest;
      paidPrincipal := a.paidPrincipal;
    }
    var closingBalance := openingBalance - principalRepayment;
    ghost var allocatedPrincipal := principalRepayment;
    if currentDate == plan.endDate {
      if payment == 0.0 {
        payment := openingBalance;
        principalRepayment := openingBalance;
      }
      closingBalance := 0.0;
    }
    entry := Entry(period, currentDate, Round2(openingBalance), Round2(payment), Round2(interestExpense),
                   0.0, Round2(principalRepayment), Round2(closingBalance));
    if isPeriodEnd {
      period := period + 1;
    }
    LiabilityDayAgrees(plan, s, currentDate, interestExpense, due, allocatedPrincipal, payment, principalRepayment,
                       closingBalance, paidInterest, paidPrincipal, period);
    next := Ledger(closingBalance, paidInterest, paidPrincipal, period, paymentIndex);
  }

  // ---- properties of the liability schedule ----

  /** The calendar entries before `i` fall before `d`, the rest on or after it. */
  predicate Cut(b: seq<Scheduled>, i: nat, d: Date) {
    && i <= |b|
    && (forall j :: 0 <= j < i ==> Before(b[j].date, d))
    && (forall j :: i <= j < |b| ==> !Before(b[j].date, d))
  }

  /**
   * The invariant of the day loop on `date`: the payment index has passed
   * exactly the payments dated earlier, the period number counts them, and
   * once the last payment is allocated the principal paid meets its target.
   */
  predicate WellRun(p: Plan, s: Ledger, date: Date) {
    && Cut(p.payments, s.index, date)
    && s.period == 1 + s.index
    && (s.index == |p.payments| && |p.payments| > 0 ==> Abs(s.paidPrincipal - TotalPrincipalTarget) <= Cent)
  }

  /** One run of the inner loop over a sorted calendar consumes the day's payment, if there is one. */
  lemma DueMeaning(b: seq<Scheduled>, index: nat, date: Date)
    requires StrictlySorted(b) && Cut(b, index, date)
    ensures var due := DueOn(b, index, date, 0.0, false);
            && (due.isPeriodEnd <==> Has(b, date))
            && due.payment == AmountAt(b, date)
            && due.next == (if due.isPeriodEnd then index + 1 else index)
            && Cut(b, due.next, NextDay(date))
  {
    var due := DueOn(b, index, date, 0.0, false);
    forall j | index <= j < due.next ensures b[j].date == date {
      BeforeIsStrictTotalOrder(b[j].date, date, date);
    }
    if due.next == index + 1 {
      AmountAtStored(b, index);
    } else {
      assert !Has(b, date) by {
        forall j | 0 <= j < |b| ensures b[j].date != date {
          if j < index {
            BeforeIsStrictTotalOrder(b[j].date, date, date);
          } else {
            BeforeIsStrictTotalOrder(date, b[index].date, b[j].date);
            BeforeIsStrictTotalOrder(b[j].date, b[j].date, b[j].date);
          }
        }
      }
      AmountAtAbsent(b, date);
    }
    forall j | 0 <= j < due.next ensures Before(b[j].date, NextDay(date)) {
      NextDayIsSuccessor(date, b[j].date);
      BeforeIsStrictTotalOrder(b[j].date, date, date);
    }
    forall j | due.next <= j < |b| ensures !Before(b[j].date, NextDay(date)) {
      NextDayIsSuccessor(date, b[j].date);
      BeforeIsStrictTotalOrder(date, b[due.next].date, b[j].date);
    }
  }

  /**
   * One day of the walk keeps the loop invariant and writes the row that the
   * day's state determines.
   */
  lemma LiabilityDayMeaning(p: Plan, s: Ledger, date: Date)
    requires StrictlySorted(p.payments) && WellRun(p, s, date)
    ensures var d := LiabilityDay(p, s, date);
            && WellRun(p, d.after, NextDay(date))
            && d.entry.period == 1 + PaymentsBefore(p.payments, date)
            && d.entry.date == date
            && d.entry.openingBalance == Round2(s.balance)
            && d.entry.interestExpense == Round2(DailyInterest(s.balance, p.dailyRate))
            && d.entry.depreciation == 0.0
            && d.entry.closingBalance == Round2(d.after.balance)
            && (date != p.endDate ==>
                  && d.entry.payment == Round2(AmountAt(p.payments, date))
                  && d.entry.principalRepayment == Round2(s.balance - d.after.balance))
            && (date != p.endDate && !Has(p.payments, date) ==> d.after.balance == s.balance)
            && (date == p.endDate ==> d.after.balance == 0.0)
            && (date == p.endDate && AmountAt(p.payments, date) == 0.0 ==>
                  d.entry.payment == Round2(s.balance) && d.entry.principalRepayment == Round2(s.balance))
  {
    DueMeaning(p.payments, s.index, date);
    PaymentsBeforeAtCut(p.payments, s.index, date);
  }

  /** The loop invariant holds on every day of the walk. */
  lemma LedgerOnWellRun(p: Plan, s0: Ledger, start: Date, k: nat)
    requires StrictlySorted(p.payments) && WellRun(p, s0, start)
    ensures WellRun(p, LedgerOn(p, s0, start, k), AddDays(start, k))
  {
    var i := 0;
    while i < k
      invariant i <= k
      invariant WellRun(p, LedgerOn(p, s0, start, i), AddDays(start, i))
    {
      LedgerOnStep(p, s0, start, i);
      i := i + 1;
    }
  }

  /** One day of the walk keeps the loop invariant, moving it to the next day. */
  lemma LedgerOnStep(p: Plan, s0: Ledger, start: Date, k: nat)
    requires StrictlySorted(p.payments) && s0.index <= |p.payments|
    requires WellRun(p, LedgerOn(p, s0, start, k), AddDays(start, k))
    ensures WellRun(p, LedgerOn(p, s0, start, k + 1), AddDays(start, k + 1))
  {
    LiabilityDayMeaning(p, LedgerOn(p, s0, start, k), AddDays(start, k));
    AddDaysNext(start, k);
  }

  /** The months between regular payments of a lease whose periods resolve. */
  function ScheduleMonths(l: Lease): int
    requires PeriodsAndRate(l).Ok?
  {
    FrequencyTerms(l.paymentFrequency).value.monthsPerPeriod
  }

  /** The fixed inputs of the day loop for a lease whose periods resolve. */
  function SchedulePlan(l: Lease): Plan
    requires PeriodsAndRate(l).Ok?
  {
    LiabilityPlan(l, ScheduleMonths(l), PeriodsAndRate(l).value.periods)
  }

  lemma SchedulePlanEnd(l: Lease)
    requires PeriodsAndRate(l).Ok?
    ensures SchedulePlan(l).endDate == l.endDate
    ensures SchedulePlan(l).dailyRate == l.discountRate / DaysPerYear
  {
  }

  /** The exact loop state before day `k` of the liability schedule. */
  function ScheduleLedger(l: Lease, initialLiability: real, k: nat): Ledger
    requires PeriodsAndRate(l).Ok?
  {
    LedgerOn(SchedulePlan(l), FirstLedger(initialLiability), l.startDate, k)
  }

  /**
   * The days counted by `TotalDays` never pass the end date, and day `k` is
   * the end date exactly when the span fits in a `time.Duration` and `k` is
   * the last index. The day after the count is the day after the end date
   * exactly when the span fits; a longer span stops short of the end date.
   */
  lemma DayOfEnd(start: Date, end: Date, k: nat)
    requires !Before(end, start) && k <= TotalDays(start, end)
    ensures k < TotalDays(start, end) ==> !After(AddDays(start, k), end)
    ensures k < TotalDays(start, end) ==>
              (AddDays(start, k) == end <==> SpanFitsDuration(start, end) && k == TotalDays(start, end) - 1)
    ensures k == TotalDays(start, end) ==> (AddDays(start, k) == NextDay(end) <==> SpanFitsDuration(start, end))
    ensures k == TotalDays(start, end) && !SpanFitsDuration(start, end) ==> !After(AddDays(start, k), end)
  {
    var d := AddDays(start, k);
    AddDaysNumber(start, k);
    BeforeIsDayNumberOrder(end, start);
    BeforeIsDayNumberOrder(end, d);
    NextDayNumber(end);
    if DayNumber(d) == DayNumber(end) {
      DayNumberInjective(d, end);
    }
    if DayNumber(d) == DayNumber(NextDay(end)) {
      DayNumberInjective(d, NextDay(end));
    }
  }

  /**
   * When a lease has at least one payment period, its term is more than one
   * day long and its calendar is sorted, lies inside the term and has a
   * payment on the end date.
   */
  lemma ScheduledCalendar(l: Lease)
    requires PeriodsAndRate(l).Ok? && PeriodsAndRate(l).value.periods > 0
    ensures Before(l.startDate, l.endDate)
    ensures ScheduleMonths(l) >= 1
    ensures var b := SchedulePlan(l).payments;
            && StrictlySorted(b)
            && Has(b, l.endDate)
            && (forall x :: Has(b, x) ==> InTerm(x, l.startDate, l.endDate))
  {
    PeriodsAndRateMarkers(l);
    var m := ScheduleMonths(l);
    var n := PeriodsAndRate(l).value.periods;
    PaymentCalendarProperties(l, m, n);
    LastRegularPaymentIsOnEndDate(l, m, n);
  }

  lemma FirstDayWellRun(l: Lease, initialLiability: real)
    requires PeriodsAndRate(l).Ok? && PeriodsAndRate(l).value.periods > 0
    ensures StrictlySorted(SchedulePlan(l).payments)
    ensures WellRun(SchedulePlan(l), FirstLedger(initialLiability), l.startDate)
  {
    ScheduledCalendar(l);
    var b := SchedulePlan(l).payments;
    forall j | 0 <= j < |b| ensures !Before(b[j].date, l.startDate) {
      assert Has(b, b[j].date);
    }
  }

  /**
   * The shape of the liability schedule: errors from the period count are
   * passed on, no periods give no rows, and otherwise there is one row per day
   * of the term, dated day by day from the start, opening at the rounded
   * initial liability in period 1, each row opening at the previous row's
   * closing balance. The last row falls on the end date exactly when the
   * term fits in a `time.Duration`, and then closes at zero; a longer term
   * stops after `MaxDurationDays + 1` rows, before the end date.
   */
  lemma LiabilityScheduleShape(l: Lease, initialLiability: real)
    ensures PeriodsAndRate(l).Err? ==> LiabilitySchedule(l, initialLiability) == Err(PeriodsFailed(PeriodsAndRate(l).error))
    ensures PeriodsAndRate(l).Ok? && PeriodsAndRate(l).value.periods == 0 ==> LiabilitySchedule(l, initialLiability) == Ok([])
    ensures PeriodsAndRate(l).Ok? && PeriodsAndRate(l).value.periods > 0 ==>
              var r := LiabilitySchedule(l, initialLiability);
              && r.Ok?
              && |r.value| == TotalDays(l.startDate, l.endDate) >= 2
              && (forall k :: 0 <= k < |r.value| ==> r.value[k].date == AddDays(l.startDate, k))
              && r.value[0].openingBalance == Round2(initialLiability)
              && r.value[0].period == 1
              && (forall k :: 0 <= k < |r.value| - 1 ==> r.value[k + 1].openingBalance == r.value[k].closingBalance)
              && (r.value[|r.value| - 1].date == l.endDate <==> SpanFitsDuration(l.startDate, l.endDate))
              && (SpanFitsDuration(l.startDate, l.endDate) ==> r.value[|r.value| - 1].closingBalance == 0.0)
              && (!SpanFitsDuration(l.startDate, l.endDate) ==>
                    |r.value| == MaxDurationDays + 1 && Before(r.value[|r.value| - 1].date, l.endDate))
  {
    if PeriodsAndRate(l).Ok? && PeriodsAndRate(l).value.periods > 0 {
      ScheduleRows(l, initialLiability);
      PeriodsAndRateTerm(l);
      SchedulePlanEnd(l);
      DailyRowsShape(SchedulePlan(l), FirstLedger(initialLiability), l.startDate, TotalDays(l.startDate, l.endDate),
                     LiabilitySchedule(l, initialLiability).value);
      ScheduleLastRow(l, initialLiability);
    }
  }

  /** The last row of the liability schedule, on the end date or, for a term too long for a `time.Duration`, before it. */
  lemma ScheduleLastRow(l: Lease, initialLiability: real)
    requires PeriodsAndRate(l).Ok? && PeriodsAndRate(l).value.periods > 0
    ensures TotalDays(l.startDate, l.endDate) >= 1
    ensures var totalDays := TotalDays(l.startDate, l.endDate);
            var row := LiabilityRow(SchedulePlan(l), FirstLedger(initialLiability), l.startDate, totalDays - 1);
            && (row.date == l.endDate <==> SpanFitsDuration(l.startDate, l.endDate))
            && (SpanFitsDuration(l.startDate, l.endDate) ==> row.closingBalance == 0.0)
            && (!SpanFitsDuration(l.startDate, l.endDate) ==>
                  totalDays == MaxDurationDays + 1 && Before(row.date, l.endDate))
  {
    PeriodsAndRateTerm(l);
    SchedulePlanEnd(l);
    var totalDays := TotalDays(l.startDate, l.endDate);
    LastRowCloses(SchedulePlan(l), FirstLedger(initialLiability), l.startDate, totalDays - 1);
    DayOfEnd(l.startDate, l.endDate, totalDays - 1);
    BeforeIsStrictTotalOrder(AddDays(l.startDate, totalDays - 1), l.endDate, l.endDate);
  }

  /** A lease with payment periods has one row per day of its term. */
  lemma ScheduleRows(l: Lease, initialLiability: real)
    requires PeriodsAndRate(l).Ok? && PeriodsAndRate(l).value.periods > 0
    ensures TotalDays(l.startDate, l.endDate) >= 2
    ensures LiabilitySchedule(l, initialLiability)
         == Ok(DailyRows(SchedulePlan(l), FirstLedger(initialLiability), l.startDate, TotalDays(l.startDate, l.endDate)))
  {
    PeriodsAndRateTerm(l);
    var totalDays := TotalDays(l.startDate, l.endDate);
    BeforeIsDayNumberOrder(l.startDate, l.endDate);
    LiabilityScheduleIsRows(l, initialLiability, PeriodsAndRate(l).value, ScheduleMonths(l), totalDays);
  }

  /** The rows of a walk over the whole term from `start` to the plan's end date. */
  lemma TermRowsShape(p: Plan, s0: Ledger, start: Date, totalDays: nat, rows: seq<Entry>)
    requires s0.index <= |p.payments|
    requires totalDays >= 1 && DayNumber(p.endDate) == DayNumber(start) + totalDays - 1
    requires rows == DailyRows(p, s0, start, totalDays)
    ensures |rows| == totalDays
    ensures forall k :: 0 <= k < |rows| ==> rows[k].date == AddDays(start, k)
    ensures rows[0].openingBalance == Round2(s0.balance)
    ensures rows[0].period == s0.period
    ensures forall k :: 0 <= k < |rows| - 1 ==> rows[k + 1].openingBalance == rows[k].closingBalance
    ensures rows[|rows| - 1].date == p.endDate
    ensures rows[|rows| - 1].closingBalance == 0.0
  {
    DayNumberDate(start, totalDays - 1, p.endDate);
    DailyRowsShape(p, s0, start, totalDays, rows);
  }

  /**
   * The day-by-day rows of a walk from `start`: dated day by day and chained,
   * and, when the last day is the plan's end date, closing at zero.
   */
  lemma DailyRowsShape(p: Plan, s0: Ledger, start: Date, totalDays: nat, rows: seq<Entry>)
    requires s0.index <= |p.payments|
    requires totalDays >= 1
    requires rows == DailyRows(p, s0, start, totalDays)
    ensures |rows| == totalDays
    ensures forall k :: 0 <= k < |rows| ==> rows[k].date == AddDays(start, k)
    ensures rows[0].openingBalance == Round2(s0.balance)
    ensures rows[0].period == s0.period
    ensures forall k :: 0 <= k < |rows| - 1 ==> rows[k + 1].openingBalance == rows[k].closingBalance
    ensures AddDays(start, totalDays - 1) == p.endDate ==> rows[|rows| - 1].closingBalance == 0.0
  {
    DailyRowsChain(p, s0, start, totalDays, rows);
    LiabilityDayFrame(p, s0, start);
    LastRowCloses(p, s0, start, totalDays - 1);
  }

  lemma DailyRowsChain(p: Plan, s0: Ledger, start: Date, totalDays: nat, rows: seq<Entry>)
    requires s0.index <= |p.payments|
    requires rows == DailyRows(p, s0, start, totalDays)
    ensures forall k :: 0 <= k < |rows| ==> rows[k].date == AddDays(start, k)
    ensures forall k :: 0 <= k < |rows| - 1 ==> rows[k + 1].openingBalance == rows[k].closingBalance
  {
    forall k: nat | k < totalDays
      ensures rows[k].date == AddDays(start, k)
      ensures k < totalDays - 1 ==> rows[k + 1].openingBalance == rows[k].closingBalance
    {
      RowChain(p, s0, start, k);
    }
  }

  lemma LastRowCloses(p: Plan, s0: Ledger, start: Date, k: nat)
    requires s0.index <= |p.payments|
    ensures LiabilityRow(p, s0, start, k).date == AddDays(start, k)
    ensures AddDays(start, k) == p.endDate ==> LiabilityRow(p, s0, start, k).closingBalance == 0.0
  {
    RowChain(p, s0, start, k);
    Round2OfZero();
  }

  /** What every day of the walk does regardless of payments: carry the balance from row to row. */
  lemma LiabilityDayFrame(p: Plan, s: Ledger, date: Date)
    requires s.index <= |p.payments|
    ensures var d := LiabilityDay(p, s, date);
            && d.entry.period == s.period
            && d.entry.date == date
            && d.entry.openingBalance == Round2(s.balance)
            && d.entry.closingBalance == Round2(d.after.balance)
            && (date == p.endDate ==> d.after.balance == 0.0)
  {
  }

  lemma RowChain(p: Plan, s0: Ledger, start: Date, k: nat)
    requires s0.index <= |p.payments|
    ensures LiabilityRow(p, s0, start, k).date == AddDays(start, k)
    ensures LiabilityRow(p, s0, start, k).closingBalance == Round2(LedgerOn(p, s0, start, k + 1).balance)
    ensures LiabilityRow(p, s0, start, k + 1).openingBalance == LiabilityRow(p, s0, start, k).closingBalance
    ensures AddDays(start, k) == p.endDate ==> LedgerOn(p, s0, start, k + 1).balance == 0.0
  {
    LiabilityDayFrame(p, LedgerOn(p, s0, start, k), AddDays(start, k));
    LiabilityDayFrame(p, LedgerOn(p, s0, start, k + 1), AddDays(start, k + 1));
  }

  /**
   * Row `k` of a liability schedule in terms of the exact loop state before
   * and after that day: the period number is one more than the number of
   * payment dates before the day; the opening, closing and interest amounts
   * are the exact balances and one day's interest on the opening balance,
   * rounded to cents; on any day but the end date the payment is the
   * calendar amount of the day and the principal is the balance reduction,
   * and a day without a payment leaves the balance unchanged; the end date is
   * the last day when the term fits in a `time.Duration` (and no day
   * otherwise), and on it the balance goes to zero, and when no amount is due
   * that day the payment and principal are the opening balance.
   */
  lemma LiabilityRowMeaning(l: Lease, initialLiability: real, k: nat)
    requires PeriodsAndRate(l).Ok? && PeriodsAndRate(l).value.periods > 0
    requires k < TotalDays(l.startDate, l.endDate)
    ensures LiabilitySchedule(l, initialLiability).Ok? && k < |LiabilitySchedule(l, initialLiability).value|
    ensures var row := LiabilitySchedule(l, initialLiability).value[k];
            var b := SchedulePlan(l).payments;
            var date := AddDays(l.startDate, k);
            var s := ScheduleLedger(l, initialLiability, k);
            var next := ScheduleLedger(l, initialLiability, k + 1);
            var onEnd := date == l.endDate;
            && (onEnd <==> SpanFitsDuration(l.startDate, l.endDate) && k == TotalDays(l.startDate, l.endDate) - 1)
            && row.period == 1 + PaymentsBefore(b, date)
            && row.openingBalance == Round2(s.balance)
            && row.closingBalance == Round2(next.balance)
            && row.interestExpense == Round2(DailyInterest(s.balance, l.discountRate / DaysPerYear))
            && row.depreciation == 0.0
            && (!onEnd ==>
                  && row.payment == Round2(AmountAt(b, date))
                  && row.principalRepayment == Round2(s.balance - next.balance))
            && (!onEnd && !Has(b, date) ==> next.balance == s.balance)
            && (onEnd ==> next.balance == 0.0)
            && (onEnd && AmountAt(b, date) == 0.0 ==>
                  row.payment == Round2(s.balance) && row.principalRepayment == Round2(s.balance))
  {
    ScheduleRows(l, initialLiability);
    FirstDayWellRun(l, initialLiability);
    ScheduledCalendar(l);
    SchedulePlanEnd(l);
    var plan := SchedulePlan(l);
    var first := FirstLedger(initialLiability);
    var d := LiabilityDay(plan, LedgerOn(plan, first, l.startDate, k), AddDays(l.startDate, k));
    LedgerOnWellRun(plan, first, l.startDate, k);
    LiabilityDayMeaning(plan, LedgerOn(plan, first, l.startDate, k), AddDays(l.startDate, k));
    assert LiabilitySchedule(l, initialLiability).value[k] == d.entry;
    assert ScheduleLedger(l, initialLiability, k + 1) == d.after;
    DayOfEnd(l.startDate, l.endDate, k);
  }

  /**
   * The allocation meets its targets: after reconciliation the interest and
   * principal targets add up to the payment total within a cent; every
   * payment has been allocated at the end of the walk exactly when the term
   * fits in a `time.Duration` (a longer walk stops before the payment on the
   * end date), and then the principal paid is within a cent of the principal
   * target.
   */
  lemma LiabilityPrincipalMeetsTarget(l: Lease, initialLiability: real)
    requires PeriodsAndRate(l).Ok? && PeriodsAndRate(l).value.periods > 0
    ensures TotalDays(l.startDate, l.endDate) >= 1
    ensures var plan := SchedulePlan(l);
            var last := ScheduleLedger(l, initialLiability, TotalDays(l.startDate, l.endDate));
            && Abs(plan.totalInterest + TotalPrincipalTarget - plan.totalPayment) <= Cent
            && (last.index == |plan.payments| <==> SpanFitsDuration(l.startDate, l.endDate))
            && (SpanFitsDuration(l.startDate, l.endDate) ==> Abs(last.paidPrincipal - TotalPrincipalTarget) <= Cent)
  {
    FirstDayWellRun(l, initialLiability);
    ScheduledCalendar(l);
    var plan := SchedulePlan(l);
    var b := plan.payments;
    var totalDays := TotalDays(l.startDate, l.endDate);
    var first := FirstLedger(initialLiability);
    LedgerOnWellRun(plan, first, l.startDate, totalDays);
    DayOfEnd(l.startDate, l.endDate, totalDays);
    var last := LedgerOn(plan, first, l.startDate, totalDays);
    if SpanFitsDuration(l.startDate, l.endDate) {
      if last.index < |b| {
        assert Has(b, b[last.index].date);
      }
    } else {
      var j :| 0 <= j < |b| && b[j].date == l.endDate;
      assert !Before(b[j].date, AddDays(l.startDate, totalDays));
    }
  }

  /**
   * Away from the end date the balance and the principal paid move together,
   * so the balance carried into each day is the initial liability less the
   * principal allocated so far. The principal is allocated against the fixed
   * target, and only the end date's write-off brings the balance to zero.
   */
  lemma LiabilityBalanceIsUnpaidPrincipal(l: Lease, initialLiability: real, k: nat)
    requires PeriodsAndRate(l).Ok? && PeriodsAndRate(l).value.periods > 0
    requires k < TotalDays(l.startDate, l.endDate)
    ensures ScheduleLedger(l, initialLiability, k).balance
         == initialLiability - ScheduleLedger(l, initialLiability, k).paidPrincipal
  {
    ScheduledCalendar(l);
    SchedulePlanEnd(l);
    forall j | 0 <= j < k ensures AddDays(l.startDate, j) != SchedulePlan(l).endDate {
      DayOfEnd(l.startDate, l.endDate, j);
    }
    BalanceAndPrincipalMoveTogether(SchedulePlan(l), FirstLedger(initialLiability), l.startDate, k);
  }

  lemma BalanceAndPrincipalMoveTogether(p: Plan, s0: Ledger, start: Date, k: nat)
    requires s0.index <= |p.payments|
    requires forall j :: 0 <= j < k ==> AddDays(start, j) != p.endDate
    ensures LedgerOn(p, s0, start, k).balance + LedgerOn(p, s0, start, k).paidPrincipal == s0.balance + s0.paidPrincipal
  {
    var i := 0;
    while i < k
      invariant i <= k
      invariant LedgerOn(p, s0, start, i).balance + LedgerOn(p, s0, start, i).paidPrincipal == s0.balance + s0.paidPrincipal
    {
      LiabilityDayKeepsSum(p, LedgerOn(p, s0, start, i), AddDays(start, i));
      i := i + 1;
    }
  }

  /** A day other than the end date moves the principal allocated from the balance to the principal paid. */
  lemma LiabilityDayKeepsSum(p: Plan, s: Ledger, date: Date)
    requires s.index <= |p.payments| && date != p.endDate
    ensures LiabilityDay(p, s, date).after.balance + LiabilityDay(p, s, date).after.paidPrincipal == s.balance + s.paidPrincipal
  {
  }

  lemma PrefixExtend<T>(s: seq<T>, i: nat)
    requires i < |s|
    ensures s[..i + 1] == s[..i] + [s[i]]
  {
  }
}
