/**
 * Period and rate resolution (`getPeriodsAndRate`) and the initial lease
 * liability (`CalculateLeaseLiability`): the present value of the regular
 * payments at the periodic discount rate, payments at period end, as in
 * paragraph 26 of IFRS 16.
 */
module PresentValue {
  import opened Results
  import opened Money
  import opened Dates
  import opened Leases

  /** The safety cap on the period-counting loop. */
  const MaxPeriods: nat := 12000

  datatype Terms = Terms(periodsPerYear: int, monthsPerPeriod: int)

  /** The frequency switch: periods per year and months per period. */
  function FrequencyTerms(f: Frequency): (r: Result<Terms, CalcError>)
    ensures r.Err? <==> f.Other?
    ensures r.Err? ==> r.error == UnsupportedFrequency(FrequencyName(f))
    ensures r.Ok? ==> r.value.monthsPerPeriod >= 1 && r.value.periodsPerYear >= 1
  {
    match f
    case Monthly => Ok(Terms(12, 1))
    case Quarterly => Ok(Terms(4, 3))
    case Annually => Ok(Terms(1, 12))
    case Other(name) => Err(UnsupportedFrequency(name))
  }

  /** Every supported frequency divides the year into whole periods. */
  lemma FrequencyCoversYear(f: Frequency)
    requires FrequencyTerms(f).Ok?
    ensures FrequencyTerms(f).value.periodsPerYear * FrequencyTerms(f).value.monthsPerPeriod == 12
  {
  }

  /** The `i`-th period boundary: the start date stepped `i` times by `months` months. */
  function Marker(start: Date, months: int, i: nat): Date {
    if i == 0 then start else AddMonths(Marker(start, months, i - 1), months)
  }

  /** The counting loop, as a recursion over the running marker `current`. */
  function CountPeriods(current: Date, end: Date, months: int, count: nat): Result<nat, CalcError>
    requires count <= MaxPeriods
    decreases MaxPeriods - count
  {
    if !Before(current, end) then Ok(count)
    else if count + 1 > MaxPeriods then Err(SafetyLimitExceeded)
    else CountPeriods(AddMonths(current, months), end, months, count + 1)
  }

  datatype PeriodsRate = PeriodsRate(periods: nat, periodicRate: real)

  /** What `getPeriodsAndRate` returns, for use by the functions that call it. */
  function PeriodsAndRate(l: Lease): Result<PeriodsRate, CalcError> {
    match FrequencyTerms(l.paymentFrequency)
    case Err(e) => Err(e)
    case Ok(t) =>
      if l.discountRate <= 0.0 then Err(RateNotPositive)
      else
        var rate := l.discountRate / t.periodsPerYear as real;
        if Before(l.endDate, AddMonths(l.startDate, t.monthsPerPeriod)) then Ok(PeriodsRate(0, rate))
        else
          match CountPeriods(l.startDate, l.endDate, t.monthsPerPeriod, 0)
          case Err(e) => Err(e)
          case Ok(n) => Ok(PeriodsRate(n, rate))
  }

  /** `getPeriodsAndRate`: the frequency switch, the rate check and the counting loop. */
  method GetPeriodsAndRate(l: Lease) returns (r: Result<PeriodsRate, CalcError>)
    ensures r == PeriodsAndRate(l)
  {
    var terms :- FrequencyTerms(l.paymentFrequency);
    if l.discountRate <= 0.0 {
      return Err(RateNotPositive);
    }
    var periodicRate := l.discountRate / terms.periodsPerYear as real;
    var months := terms.monthsPerPeriod;

    var firstPeriodEndDate := AddMonths(l.startDate, months);
    if Before(l.endDate, firstPeriodEndDate) {
      if l.endDate == l.startDate {
        return Ok(PeriodsRate(0, periodicRate));
      }
      return Ok(PeriodsRate(0, periodicRate));
    }

    var periodCount: nat := 0;
    var current := l.startDate;
    while Before(current, l.endDate)
      invariant periodCount <= MaxPeriods
      invariant CountPeriods(current, l.endDate, months, periodCount)
             == CountPeriods(l.startDate, l.endDate, months, 0)
      decreases MaxPeriods - periodCount
    {
      periodCount := periodCount + 1;
      current := AddMonths(current, months);
      if periodCount > MaxPeriods {
        return Err(SafetyLimitExceeded);
      }
    }
    return Ok(PeriodsRate(periodCount, periodicRate));
  }

  /**
   * Counting from the `c`-th marker yields the number of markers strictly
   * before `end`, or fails exactly when markers 0..MaxPeriods are all before it.
   */
  lemma {:induction false} CountPeriodsCountsMarkers(start: Date, end: Date, months: int, c: nat)
    requires c <= MaxPeriods
    requires forall i :: 0 <= i < c ==> Before(Marker(start, months, i), end)
    ensures CountPeriods(Marker(start, months, c), end, months, c).Err?
        <==> forall i :: 0 <= i <= MaxPeriods ==> Before(Marker(start, months, i), end)
    ensures CountPeriods(Marker(start, months, c), end, months, c).Err? ==>
              CountPeriods(Marker(start, months, c), end, months, c).error == SafetyLimitExceeded
    ensures CountPeriods(Marker(start, months, c), end, months, c).Ok? ==>
              var n := CountPeriods(Marker(start, months, c), end, months, c).value;
              c <= n <= MaxPeriods
              && (forall i :: 0 <= i < n ==> Before(Marker(start, months, i), end))
              && !Before(Marker(start, months, n), end)
    decreases MaxPeriods - c
  {
    var r := CountPeriods(Marker(start, months, c), end, months, c);
    if !Before(Marker(start, months, c), end) {
      assert r == Ok(c);
    } else if c + 1 > MaxPeriods {
      assert r == Err(SafetyLimitExceeded);
      assert forall i :: 0 <= i <= MaxPeriods ==> Before(Marker(start, months, i), end) by {
        forall i | 0 <= i <= MaxPeriods
          ensures Before(Marker(start, months, i), end)
        {
          if i < c {
          } else {
            assert i == c;
          }
        }
      }
    } else {
      assert Marker(start, months, c + 1) == AddMonths(Marker(start, months, c), months);
      assert r == CountPeriods(Marker(start, months, c + 1), end, months, c + 1);
      CountPeriodsCountsMarkers(start, end, months, c + 1);
    }
  }

  /**
   * The meaning of `getPeriodsAndRate`: an unsupported frequency fails before
   * the rate is looked at; a non-positive rate fails; the periodic rate is the
   * annual rate over the periods per year; a lease ending before the first
   * step is 0 periods with no error; otherwise the count is the number of
   * stepped markers strictly before the end date, at least one, unless that
   * number would exceed the safety cap.
   */
  lemma PeriodsAndRateMeaning(l: Lease)
    ensures FrequencyTerms(l.paymentFrequency).Err? ==>
              PeriodsAndRate(l) == Err(UnsupportedFrequency(FrequencyName(l.paymentFrequency)))
    ensures FrequencyTerms(l.paymentFrequency).Ok? && l.discountRate <= 0.0 ==>
              PeriodsAndRate(l) == Err(RateNotPositive)
    ensures PeriodsAndRate(l).Ok? ==>
              FrequencyTerms(l.paymentFrequency).Ok? && l.discountRate > 0.0
              && PeriodsAndRate(l).value.periodicRate
                 == l.discountRate / FrequencyTerms(l.paymentFrequency).value.periodsPerYear as real
              && PeriodsAndRate(l).value.periodicRate > 0.0
    ensures FrequencyTerms(l.paymentFrequency).Ok? && l.discountRate > 0.0 ==>
              var m := FrequencyTerms(l.paymentFrequency).value.monthsPerPeriod;
              var r := PeriodsAndRate(l);
              && (Before(l.endDate, AddMonths(l.startDate, m)) ==> r.Ok? && r.value.periods == 0)
              && (!Before(l.endDate, AddMonths(l.startDate, m)) ==>
                    && (r.Err? <==> forall i :: 0 <= i <= MaxPeriods ==> Before(Marker(l.startDate, m, i), l.endDate))
                    && (r.Err? ==> r.error == SafetyLimitExceeded)
                    && (r.Ok? ==>
                          var n := r.value.periods;
                          && 1 <= n <= MaxPeriods
                          && (forall i :: 0 <= i < n ==> Before(Marker(l.startDate, m, i), l.endDate))
                          && !Before(Marker(l.startDate, m, n), l.endDate)))
  {
    var t := FrequencyTerms(l.paymentFrequency);
    if t.Ok? && l.discountRate > 0.0 {
      var m := t.value.monthsPerPeriod;
      assert l.discountRate / t.value.periodsPerYear as real > 0.0;
      if !Before(l.endDate, AddMonths(l.startDate, m)) {
        assert Before(l.startDate, l.endDate) by {
          AddMonthsIsLater(l.startDate, m);
          BeforeIsStrictTotalOrder(l.startDate, AddMonths(l.startDate, m), l.endDate);
        }
        assert Marker(l.startDate, m, 0) == l.startDate;
        CountPeriodsCountsMarkers(l.startDate, l.endDate, m, 0);
        var c := CountPeriods(l.startDate, l.endDate, m, 0);
        if c.Ok? {
          assert c.value != 0;
        }
      }
    }
  }

  lemma PeriodicRateIsPositive(l: Lease)
    ensures PeriodsAndRate(l).Ok? ==> PeriodsAndRate(l).value.periodicRate > 0.0
  {
    var t := FrequencyTerms(l.paymentFrequency);
    if t.Ok? && l.discountRate > 0.0 {
      assert l.discountRate / t.value.periodsPerYear as real > 0.0;
    }
  }

  /** A lease whose end equals its start has no payment periods. */
  lemma ZeroLengthLeaseHasNoPeriods(l: Lease)
    requires l.startDate == l.endDate
    requires PeriodsAndRate(l).Ok?
    ensures PeriodsAndRate(l).value.periods == 0
  {
    var m := FrequencyTerms(l.paymentFrequency).value.monthsPerPeriod;
    AddMonthsIsLater(l.startDate, m);
  }

    /**
   * A lease with at least one payment period has a supported frequency, a
   * start strictly before its end, and that many marker dates before its end
   * with the next one on or after it.
   */
  lemma PeriodsAndRateMarkers(l: Lease)
    requires PeriodsAndRate(l).Ok? && PeriodsAndRate(l).value.periods > 0
    ensures FrequencyTerms(l.paymentFrequency).Ok?
    ensures Before(l.startDate, l.endDate)
    ensures var m := FrequencyTerms(l.paymentFrequency).value.monthsPerPeriod;
            var n := PeriodsAndRate(l).value.periods;
            && (forall i :: 0 <= i < n ==> Before(Marker(l.startDate, m, i), l.endDate))
            && !Before(Marker(l.startDate, m, n), l.endDate)
  {
    PeriodsAndRateMeaning(l);
    assert Marker(l.startDate, FrequencyTerms(l.paymentFrequency).value.monthsPerPeriod, 0) == l.startDate;
  }

  /** A lease with at least one payment period has a supported frequency and starts before it ends. */
  lemma PeriodsAndRateTerm(l: Lease)
    requires PeriodsAndRate(l).Ok? && PeriodsAndRate(l).value.periods > 0
    ensures FrequencyTerms(l.paymentFrequency).Ok?
    ensures Before(l.startDate, l.endDate)
  {
    PeriodsAndRateMarkers(l);
  }

/** The present value of `n` end-of-period payments: the sum of each payment discounted. */
  function DiscountedPayments(pmt: real, rate: real, n: nat): real
    requires rate > -1.0
  {
    if n == 0 then 0.0 else DiscountedPayments(pmt, rate, n - 1) + pmt / Pow(1.0 + rate, n)
  }

  /** The ordinary-annuity formula `PMT * (1 - (1+r)^-n) / r`. */
  function AnnuityPresentValue(pmt: real, rate: real, n: nat): (pv: real)
    requires rate > 0.0
    ensures pv == DiscountedPayments(pmt, rate, n)
  {
    AnnuityIsDiscountedSum(pmt, rate, n);
    pmt * ((1.0 - 1.0 / Pow(1.0 + rate, n)) / rate)
  }

  lemma {:induction false} AnnuityIsDiscountedSum(pmt: real, rate: real, n: nat)
    requires rate > 0.0
    ensures pmt * ((1.0 - 1.0 / Pow(1.0 + rate, n)) / rate) == DiscountedPayments(pmt, rate, n)
  {
    if n > 0 {
      AnnuityIsDiscountedSum(pmt, rate, n - 1);
      AnnuityStep(pmt, rate, Pow(1.0 + rate, n - 1), Pow(1.0 + rate, n));
    }
  }

  /** One more payment period adds exactly the newly discounted payment to the annuity value. */
  lemma AnnuityStep(pmt: real, rate: real, p: real, q: real)
    requires rate > 0.0 && p > 0.0
    requires q == (1.0 + rate) * p
    ensures pmt * ((1.0 - 1.0 / q) / rate) == pmt * ((1.0 - 1.0 / p) / rate) + pmt / q
  {
    var a := 1.0 / p;
    var b := 1.0 / q;
    assert a == (1.0 + rate) * b by {
      assert q * b == 1.0;
      assert p * ((1.0 + rate) * b) == 1.0;
    }
    assert (1.0 - b) / rate == (1.0 - a) / rate + b by {
      assert 1.0 - b == (1.0 - a) + rate * b;
    }
    assert pmt * b == pmt / q;
  }

  /** A positive amount divided by a factor of at least one stays positive and does not grow. */
  lemma ShrinkByFactor(a: real, q: real)
    requires a > 0.0 && q >= 1.0
    ensures 0.0 < a / q <= a
  {
    assert a / q * q == a;
  }

  /** Each discounted payment is worth less than the payment itself. */
  lemma {:induction false} DiscountedPaymentsBounds(pmt: real, rate: real, n: nat)
    requires pmt > 0.0 && rate > 0.0
    ensures n > 0 ==> 0.0 < DiscountedPayments(pmt, rate, n)
    ensures DiscountedPayments(pmt, rate, n) <= pmt * n as real
  {
    if n > 0 {
      DiscountedPaymentsBounds(pmt, rate, n - 1);
      ShrinkByFactor(pmt, Pow(1.0 + rate, n));
    }
  }

  /** `CalculateLeaseLiability`. */
  function CalculateLeaseLiability(l: Lease): (r: Result<real, CalcError>)
    ensures l.paymentAmount <= 0.0 ==> r == Err(PaymentNotPositive)
    ensures l.paymentAmount > 0.0 && l.discountRate <= 0.0 ==> r == Err(RateNotPositive)
    ensures l.paymentAmount > 0.0 && l.discountRate > 0.0
            && (IsZero(l.startDate) || IsZero(l.endDate) || Before(l.endDate, l.startDate)) ==>
              r == Err(InvalidDates)
    ensures l.paymentAmount > 0.0 && l.discountRate > 0.0
            && !IsZero(l.startDate) && !IsZero(l.endDate) && !Before(l.endDate, l.startDate)
            && PeriodsAndRate(l).Err? ==>
              r == Err(PeriodsFailed(PeriodsAndRate(l).error))
  {
    if l.paymentAmount <= 0.0 then Err(PaymentNotPositive)
    else if l.discountRate <= 0.0 then Err(RateNotPositive)
    else if IsZero(l.startDate) || IsZero(l.endDate) || Before(l.endDate, l.startDate) then Err(InvalidDates)
    else
      match PeriodsAndRate(l)
      case Err(e) => Err(PeriodsFailed(e))
      case Ok(pr) => Ok(RoundedPresentValue(l.paymentAmount, pr))
  }

  /** For a valid lease whose periods resolve, the liability is the rounded present value. */
  lemma LeaseLiabilityIsRounded(l: Lease)
    requires l.paymentAmount > 0.0 && l.discountRate > 0.0
    requires !IsZero(l.startDate) && !IsZero(l.endDate) && !Before(l.endDate, l.startDate)
    requires PeriodsAndRate(l).Ok?
    ensures PeriodsAndRate(l).value.periodicRate > 0.0
    ensures CalculateLeaseLiability(l) == Ok(RoundedPresentValue(l.paymentAmount, PeriodsAndRate(l).value))
  {
    PeriodicRateIsPositive(l);
  }

  /**
   * For a valid lease whose periods resolve, the liability is zero when there
   * are no periods, and otherwise the present value of the payments rounded
   * to six and then two places, which is positive and within half a cent (and
   * a little) of the exact sum of the discounted payments.
   */
  lemma LeaseLiabilityValue(l: Lease)
    requires l.paymentAmount > 0.0 && l.discountRate > 0.0
    requires !IsZero(l.startDate) && !IsZero(l.endDate) && !Before(l.endDate, l.startDate)
    requires PeriodsAndRate(l).Ok?
    ensures CalculateLeaseLiability(l).Ok?
    ensures PeriodsAndRate(l).value.periods == 0 ==> CalculateLeaseLiability(l).value == 0.0
    ensures var pr := PeriodsAndRate(l).value;
            var v := CalculateLeaseLiability(l).value;
            pr.periods > 0 ==>
              && pr.periodicRate > 0.0
              && v == Round2(RoundTo(DiscountedPayments(l.paymentAmount, pr.periodicRate, pr.periods), 6))
              && 0.0 < DiscountedPayments(l.paymentAmount, pr.periodicRate, pr.periods)
              && Abs(v - DiscountedPayments(l.paymentAmount, pr.periodicRate, pr.periods)) <= 0.0050005
  {
    LeaseLiabilityIsRounded(l);
    RoundedPresentValueFacts(l.paymentAmount, PeriodsAndRate(l).value, CalculateLeaseLiability(l).value);
  }

  lemma RoundedPresentValueFacts(pmt: real, pr: PeriodsRate, v: real)
    requires pmt > 0.0 && pr.periodicRate > 0.0 && v == RoundedPresentValue(pmt, pr)
    ensures pr.periods == 0 ==> v == 0.0
    ensures pr.periods > 0 ==>
              && v == Round2(RoundTo(DiscountedPayments(pmt, pr.periodicRate, pr.periods), 6))
              && 0.0 < DiscountedPayments(pmt, pr.periodicRate, pr.periods)
              && Abs(v - DiscountedPayments(pmt, pr.periodicRate, pr.periods)) <= 0.0050005
  {
  }

  /** The tail of `CalculateLeaseLiability` once the periods are known. */
  function RoundedPresentValue(pmt: real, pr: PeriodsRate): (v: real)
    ensures pr.periods == 0 ==> v == 0.0
    ensures pmt > 0.0 && pr.periods > 0 && pr.periodicRate > 0.0 ==>
              && v == Round2(RoundTo(DiscountedPayments(pmt, pr.periodicRate, pr.periods), 6))
              && 0.0 < DiscountedPayments(pmt, pr.periodicRate, pr.periods)
              && Abs(v - DiscountedPayments(pmt, pr.periodicRate, pr.periods)) <= 0.0050005
  {
    if pr.periods == 0 then 0.0
    else
      var presentValue :=
        if pr.periodicRate > 0.0 then AnnuityPresentValue(pmt, pr.periodicRate, pr.periods)
        else pmt * pr.periods as real;
      var liability := Round2(RoundTo(presentValue, 6));
      if pmt > 0.0 && pr.periodicRate > 0.0 then
        PresentValueRounding(pmt, pr.periodicRate, pr.periods, liability);
        liability
      else liability
  }

  /** Two roundings, to 6 and then 2 places, stay within half a cent (and a little) of the exact value. */
  lemma PresentValueRounding(pmt: real, rate: real, n: nat, v: real)
    requires pmt > 0.0 && rate > 0.0 && n > 0
    requires v == Round2(RoundTo(DiscountedPayments(pmt, rate, n), 6))
    ensures 0.0 < DiscountedPayments(pmt, rate, n) <= pmt * n as real
    ensures Abs(v - DiscountedPayments(pmt, rate, n)) <= 0.0050005
  {
    DiscountedPaymentsBounds(pmt, rate, n);
    var pv := DiscountedPayments(pmt, rate, n);
    var six := RoundTo(pv, 6);
    assert Abs(six - pv) <= 0.0000005 by {
      assert Pow10(6) == 1000000.0;
    }
    AbsTriangle(v, six, pv);
  }

  /** A lease carrying only the fields the present-value calculation reads. */
  function SampleLease(start: Date, end: Date, pmt: real, f: Frequency, rate: real): Lease {
    Lease("L", "", "", start, end, pmt, f, rate, 0.0, 0.0, [])
  }

  /** One turn of the counting loop. */
  lemma CountPeriodsStep(current: Date, end: Date, months: int, count: nat, next: Date)
    requires count < MaxPeriods && Before(current, end)
    requires next == AddMonths(current, months)
    ensures CountPeriods(current, end, months, count) == CountPeriods(next, end, months, count + 1)
  {
  }

  lemma ShortLeasePeriodCountExample()
    ensures PeriodsAndRate(SampleLease(Ymd(2024, 1, 1), Ymd(2024, 1, 20), 1000.0, Monthly, 0.05)) == Ok(PeriodsRate(0, 0.05 / 12.0))
  {
  }

  /** 2024-03-01 stepped yearly: three markers fall before 2027-02-28. */
  lemma AnnualCountExample()
    ensures CountPeriods(Ymd(2024, 3, 1), Ymd(2027, 2, 28), 12, 0) == Ok(3)
  {
    var e := Ymd(2027, 2, 28);
    assert AddMonths(Ymd(2024, 3, 1), 12) == Ymd(2025, 3, 1);
    assert AddMonths(Ymd(2025, 3, 1), 12) == Ymd(2026, 3, 1);
    assert AddMonths(Ymd(2026, 3, 1), 12) == Ymd(2027, 3, 1);
    CountPeriodsStep(Ymd(2024, 3, 1), e, 12, 0, Ymd(2025, 3, 1));
    CountPeriodsStep(Ymd(2025, 3, 1), e, 12, 1, Ymd(2026, 3, 1));
    CountPeriodsStep(Ymd(2026, 3, 1), e, 12, 2, Ymd(2027, 3, 1));
    assert CountPeriods(Ymd(2027, 3, 1), e, 12, 3) == Ok(3);
  }

  /** The monthly test lease 2024-01-01 .. 2024-12-31 has twelve periods. */
  lemma MonthlyCountExample()
    ensures CountPeriods(Ymd(2024, 1, 1), Ymd(2024, 12, 31), 1, 0) == Ok(12)
  {
    var e := Ymd(2024, 12, 31);
    assert AddMonths(Ymd(2024, 1, 1), 1) == Ymd(2024, 2, 1);
    assert AddMonths(Ymd(2024, 2, 1), 1) == Ymd(2024, 3, 1);
    assert AddMonths(Ymd(2024, 3, 1), 1) == Ymd(2024, 4, 1);
    assert AddMonths(Ymd(2024, 4, 1), 1) == Ymd(2024, 5, 1);
    assert AddMonths(Ymd(2024, 5, 1), 1) == Ymd(2024, 6, 1);
    assert AddMonths(Ymd(2024, 6, 1), 1) == Ymd(2024, 7, 1);
    assert AddMonths(Ymd(2024, 7, 1), 1) == Ymd(2024, 8, 1);
    assert AddMonths(Ymd(2024, 8, 1), 1) == Ymd(2024, 9, 1);
    assert AddMonths(Ymd(2024, 9, 1), 1) == Ymd(2024, 10, 1);
    assert AddMonths(Ymd(2024, 10, 1), 1) == Ymd(2024, 11, 1);
    assert AddMonths(Ymd(2024, 11, 1), 1) == Ymd(2024, 12, 1);
    assert AddMonths(Ymd(2024, 12, 1), 1) == Ymd(2025, 1, 1);
    CountPeriodsStep(Ymd(2024, 1, 1), e, 1, 0, Ymd(2024, 2, 1));
    CountPeriodsStep(Ymd(2024, 2, 1), e, 1, 1, Ymd(2024, 3, 1));
    CountPeriodsStep(Ymd(2024, 3, 1), e, 1, 2, Ymd(2024, 4, 1));
    CountPeriodsStep(Ymd(2024, 4, 1), e, 1, 3, Ymd(2024, 5, 1));
    CountPeriodsStep(Ymd(2024, 5, 1), e, 1, 4, Ymd(2024, 6, 1));
    CountPeriodsStep(Ymd(2024, 6, 1), e, 1, 5, Ymd(2024, 7, 1));
    CountPeriodsStep(Ymd(2024, 7, 1), e, 1, 6, Ymd(2024, 8, 1));
    CountPeriodsStep(Ymd(2024, 8, 1), e, 1, 7, Ymd(2024, 9, 1));
    CountPeriodsStep(Ymd(2024, 9, 1), e, 1, 8, Ymd(2024, 10, 1));
    CountPeriodsStep(Ymd(2024, 10, 1), e, 1, 9, Ymd(2024, 11, 1));
    CountPeriodsStep(Ymd(2024, 11, 1), e, 1, 10, Ymd(2024, 12, 1));
    CountPeriodsStep(Ymd(2024, 12, 1), e, 1, 11, Ymd(2025, 1, 1));
    assert CountPeriods(Ymd(2025, 1, 1), e, 1, 12) == Ok(12);
  }

  /** The annual test lease 2024-07-01 .. 2029-06-30 has five periods. */
  lemma FiveYearCountExample()
    ensures CountPeriods(Ymd(2024, 7, 1), Ymd(2029, 6, 30), 12, 0) == Ok(5)
  {
    var e := Ymd(2029, 6, 30);
    assert AddMonths(Ymd(2024, 7, 1), 12) == Ymd(2025, 7, 1);
    assert AddMonths(Ymd(2025, 7, 1), 12) == Ymd(2026, 7, 1);
    assert AddMonths(Ymd(2026, 7, 1), 12) == Ymd(2027, 7, 1);
    assert AddMonths(Ymd(2027, 7, 1), 12) == Ymd(2028, 7, 1);
    assert AddMonths(Ymd(2028, 7, 1), 12) == Ymd(2029, 7, 1);
    CountPeriodsStep(Ymd(2024, 7, 1), e, 12, 0, Ymd(2025, 7, 1));
    CountPeriodsStep(Ymd(2025, 7, 1), e, 12, 1, Ymd(2026, 7, 1));
    CountPeriodsStep(Ymd(2026, 7, 1), e, 12, 2, Ymd(2027, 7, 1));
    CountPeriodsStep(Ymd(2027, 7, 1), e, 12, 3, Ymd(2028, 7, 1));
    CountPeriodsStep(Ymd(2028, 7, 1), e, 12, 4, Ymd(2029, 7, 1));
    assert CountPeriods(Ymd(2029, 7, 1), e, 12, 5) == Ok(5);
  }

  /** The quarterly test lease 2024-01-15 .. 2026-01-14 has eight periods. */
  lemma QuarterlyCountExample()
    ensures CountPeriods(Ymd(2024, 1, 15), Ymd(2026, 1, 14), 3, 0) == Ok(8)
  {
    var e := Ymd(2026, 1, 14);
    assert AddMonths(Ymd(2024, 1, 15), 3) == Ymd(2024, 4, 15);
    assert AddMonths(Ymd(2024, 4, 15), 3) == Ymd(2024, 7, 15);
    assert AddMonths(Ymd(2024, 7, 15), 3) == Ymd(2024, 10, 15);
    assert AddMonths(Ymd(2024, 10, 15), 3) == Ymd(2025, 1, 15);
    assert AddMonths(Ymd(2025, 1, 15), 3) == Ymd(2025, 4, 15);
    assert AddMonths(Ymd(2025, 4, 15), 3) == Ymd(2025, 7, 15);
    assert AddMonths(Ymd(2025, 7, 15), 3) == Ymd(2025, 10, 15);
    assert AddMonths(Ymd(2025, 10, 15), 3) == Ymd(2026, 1, 15);
    CountPeriodsStep(Ymd(2024, 1, 15), e, 3, 0, Ymd(2024, 4, 15));
    CountPeriodsStep(Ymd(2024, 4, 15), e, 3, 1, Ymd(2024, 7, 15));
    CountPeriodsStep(Ymd(2024, 7, 15), e, 3, 2, Ymd(2024, 10, 15));
    CountPeriodsStep(Ymd(2024, 10, 15), e, 3, 3, Ymd(2025, 1, 15));
    CountPeriodsStep(Ymd(2025, 1, 15), e, 3, 4, Ymd(2025, 4, 15));
    CountPeriodsStep(Ymd(2025, 4, 15), e, 3, 5, Ymd(2025, 7, 15));
    CountPeriodsStep(Ymd(2025, 7, 15), e, 3, 6, Ymd(2025, 10, 15));
    CountPeriodsStep(Ymd(2025, 10, 15), e, 3, 7, Ymd(2026, 1, 15));
    assert CountPeriods(Ymd(2026, 1, 15), e, 3, 8) == Ok(8);
  }

  lemma AnnualPeriodsExample()
    ensures PeriodsAndRate(SampleLease(Ymd(2024, 3, 1), Ymd(2027, 2, 28), 20000.0, Annually, 0.06))
         == Ok(PeriodsRate(3, 0.06))
  {
    var l := SampleLease(Ymd(2024, 3, 1), Ymd(2027, 2, 28), 20000.0, Annually, 0.06);
    assert FrequencyTerms(l.paymentFrequency) == Ok(Terms(1, 12));
    assert AddMonths(l.startDate, 12) == Ymd(2025, 3, 1);
    AnnualCountExample();
  }

  /** Three annual payments of 20000 at 6%: 20000 / 1.06 + 20000 / 1.06^2 + 20000 / 1.06^3, rounded. */
  lemma AnnualPresentValueExample()
    ensures RoundedPresentValue(20000.0, PeriodsRate(3, 0.06)) == 53460.24
  {
    var pv := AnnuityPresentValue(20000.0, 0.06, 3);
    assert Pow(1.06, 3) == 1.191016;
    assert Pow10(6) == 1000000.0 && Pow10(2) == 100.0;
    assert Round(pv * 1000000.0) == 53460238989;
    assert RoundTo(pv, 6) == 53460.238989;
    assert Round(53460.238989 * 100.0) == 5346024;
  }

  lemma AnnualLiabilityExample()
    ensures CalculateLeaseLiability(SampleLease(Ymd(2024, 3, 1), Ymd(2027, 2, 28), 20000.0, Annually, 0.06))
         == Ok(53460.24)
  {
    AnnualPeriodsExample();
    AnnualPresentValueExample();
  }
}
