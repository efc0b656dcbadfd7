/**
 * The payment calendar of the liability schedule: the map from payment date
 * to amount that `GenerateLiabilitySchedule` fills (regular payments, extra
 * payments inside the lease term, and the hard-coded lump sum), read back in
 * date order. The map followed by its sort is modelled as one association
 * list kept strictly sorted by date.
 */
module Payments {
  import opened Money
  import opened Dates
  import opened Leases
  import opened PresentValue

  datatype Scheduled = Scheduled(date: Date, amount: real)

  predicate StrictlySorted(b: seq<Scheduled>) {
    forall i, j :: 0 <= i < j < |b| ==> Before(b[i].date, b[j].date)
  }

  /** `d` is a key of the calendar. */
  predicate Has(b: seq<Scheduled>, d: Date) {
    exists i :: 0 <= i < |b| && b[i].date == d
  }

  /** `payments[d]`: the amount stored under `d`, 0 when absent. */
  function AmountAt(b: seq<Scheduled>, d: Date): real {
    if |b| == 0 then 0.0
    else (if b[0].date == d then b[0].amount else 0.0) + AmountAt(b[1..], d)
  }

  /** The sum of all stored amounts (`totalPayment`). */
  function Total(b: seq<Scheduled>): real {
    if |b| == 0 then 0.0 else b[0].amount + Total(b[1..])
  }

  /** The number of calendar dates strictly before `d`. */
  function PaymentsBefore(b: seq<Scheduled>, d: Date): nat {
    if |b| == 0 then 0 else (if Before(b[0].date, d) then 1 else 0) + PaymentsBefore(b[1..], d)
  }

  /** In a sorted calendar, the amount under a stored date is the entry's own amount. */
  lemma {:induction false} AmountAtStored(b: seq<Scheduled>, j: nat)
    requires StrictlySorted(b) && j < |b|
    ensures AmountAt(b, b[j].date) == b[j].amount
  {
    var d := b[j].date;
    if j == 0 {
      assert !Has(b[1..], d) by {
        forall i | 0 <= i < |b[1..]| ensures b[1..][i].date != d {
          assert b[1..][i] == b[i + 1];
          BeforeIsStrictTotalOrder(d, b[i + 1].date, d);
        }
      }
      AmountAtAbsent(b[1..], d);
    } else {
      assert b[0].date != d by {
        BeforeIsStrictTotalOrder(b[0].date, d, d);
      }
      SortedTail(b);
      assert b[1..][j - 1] == b[j];
      AmountAtStored(b[1..], j - 1);
    }
  }

  lemma SortedTail(b: seq<Scheduled>)
    requires StrictlySorted(b) && |b| > 0
    ensures StrictlySorted(b[1..])
  {
    forall i, j | 0 <= i < j < |b[1..]| ensures Before(b[1..][i].date, b[1..][j].date) {
      assert b[1..][i] == b[i + 1] && b[1..][j] == b[j + 1];
    }
  }

  /** A cut at index `i` with every earlier date before `d` and no later one counts `i` dates before `d`. */
  lemma {:induction false} PaymentsBeforeAtCut(b: seq<Scheduled>, i: nat, d: Date)
    requires i <= |b|
    requires forall j :: 0 <= j < i ==> Before(b[j].date, d)
    requires forall j :: i <= j < |b| ==> !Before(b[j].date, d)
    ensures PaymentsBefore(b, d) == i
  {
    if |b| > 0 {
      var t := b[1..];
      if i == 0 {
        PaymentsBeforeAtCut(t, 0, d);
      } else {
        assert forall j :: 0 <= j < i - 1 ==> Before(t[j].date, d) by {
          forall j | 0 <= j < i - 1 ensures Before(t[j].date, d) {
            assert t[j] == b[j + 1];
          }
        }
        PaymentsBeforeAtCut(t, i - 1, d);
      }
    }
  }

  lemma AmountAtAbsent(b: seq<Scheduled>, d: Date)
    requires !Has(b, d)
    ensures AmountAt(b, d) == 0.0
  {
    if |b| > 0 {
      AmountAtAbsent(b[1..], d);
    }
  }

  lemma HasTail(b: seq<Scheduled>, d: Date)
    requires |b| > 0
    ensures Has(b, d) <==> b[0].date == d || Has(b[1..], d)
  {
    if Has(b, d) && b[0].date != d {
      var i :| 0 <= i < |b| && b[i].date == d;
      assert b[1..][i - 1].date == d;
    }
    if Has(b[1..], d) {
      var i :| 0 <= i < |b[1..]| && b[1..][i].date == d;
      assert b[i + 1].date == d;
    }
  }

  /** `payments[d] += a`: adds to an existing date or inserts it in date order. */
  function Credit(b: seq<Scheduled>, d: Date, a: real): seq<Scheduled> {
    if |b| == 0 then [Scheduled(d, a)]
    else if b[0].date == d then [Scheduled(d, b[0].amount + a)] + b[1..]
    else if Before(d, b[0].date) then [Scheduled(d, a)] + b
    else [b[0]] + Credit(b[1..], d, a)
  }

  /**
   * Crediting keeps the calendar sorted, adds `d` to its dates and nothing
   * else, adds `a` to the amount under `d` and leaves every other amount as it
   * was, and adds `a` to the total.
   */
  lemma {:induction false} CreditMeaning(b: seq<Scheduled>, d: Date, a: real)
    ensures StrictlySorted(b) ==> StrictlySorted(Credit(b, d, a))
    ensures forall x :: Has(Credit(b, d, a), x) <==> Has(b, x) || x == d
    ensures StrictlySorted(b) ==> forall x :: AmountAt(Credit(b, d, a), x) == AmountAt(b, x) + (if x == d then a else 0.0)
    ensures Total(Credit(b, d, a)) == Total(b) + a
  {
    if |b| == 0 {
      CreditEmpty(d, a);
    } else if b[0].date == d {
      CreditHead(b, d, a, Credit(b, d, a));
    } else if Before(d, b[0].date) {
      CreditFront(b, d, a, Credit(b, d, a));
    } else {
      CreditMeaning(b[1..], d, a);
      CreditLater(b, d, a, Credit(b[1..], d, a), Credit(b, d, a));
    }
  }

  lemma CreditEmpty(d: Date, a: real)
    ensures StrictlySorted([Scheduled(d, a)])
    ensures forall x :: Has([Scheduled(d, a)], x) <==> x == d
    ensures forall x :: AmountAt([Scheduled(d, a)], x) == (if x == d then a else 0.0)
    ensures Total([Scheduled(d, a)]) == a
  {
    var r := [Scheduled(d, a)];
    forall x ensures Has(r, x) <==> x == d {
      HasTail(r, x);
    }
  }

  lemma CreditHead(b: seq<Scheduled>, d: Date, a: real, r: seq<Scheduled>)
    requires |b| > 0 && b[0].date == d
    requires r == [Scheduled(d, b[0].amount + a)] + b[1..]
    ensures StrictlySorted(b) ==> StrictlySorted(r)
    ensures forall x :: Has(r, x) <==> Has(b, x) || x == d
    ensures StrictlySorted(b) ==> forall x :: AmountAt(r, x) == AmountAt(b, x) + (if x == d then a else 0.0)
    ensures Total(r) == Total(b) + a
  {
    assert r[1..] == b[1..];
    forall x ensures Has(r, x) <==> Has(b, x) || x == d {
      HasTail(r, x);
      HasTail(b, x);
    }
  }

  lemma CreditFront(b: seq<Scheduled>, d: Date, a: real, r: seq<Scheduled>)
    requires |b| > 0 && Before(d, b[0].date)
    requires r == [Scheduled(d, a)] + b
    ensures StrictlySorted(b) ==> StrictlySorted(r)
    ensures forall x :: Has(r, x) <==> Has(b, x) || x == d
    ensures StrictlySorted(b) ==> forall x :: AmountAt(r, x) == AmountAt(b, x) + (if x == d then a else 0.0)
    ensures Total(r) == Total(b) + a
  {
    assert r[1..] == b;
    forall x ensures Has(r, x) <==> Has(b, x) || x == d {
      HasTail(r, x);
    }
    if StrictlySorted(b) {
      forall i, j | 0 <= i < j < |r| ensures Before(r[i].date, r[j].date) {
        if i == 0 {
          BeforeIsStrictTotalOrder(d, b[0].date, b[j - 1].date);
        }
      }
      assert !Has(b, d) by {
        if Has(b, d) {
          var i :| 0 <= i < |b| && b[i].date == d;
          BeforeIsStrictTotalOrder(d, b[0].date, b[i].date);
        }
      }
      AmountAtAbsent(b, d);
    }
  }

  lemma CreditLater(b: seq<Scheduled>, d: Date, a: real, rest: seq<Scheduled>, r: seq<Scheduled>)
    requires |b| > 0 && b[0].date != d && !Before(d, b[0].date)
    requires StrictlySorted(b[1..]) ==> StrictlySorted(rest)
    requires forall x :: Has(rest, x) <==> Has(b[1..], x) || x == d
    requires StrictlySorted(b[1..]) ==> forall x :: AmountAt(rest, x) == AmountAt(b[1..], x) + (if x == d then a else 0.0)
    requires Total(rest) == Total(b[1..]) + a
    requires r == [b[0]] + rest
    ensures StrictlySorted(b) ==> StrictlySorted(r)
    ensures forall x :: Has(r, x) <==> Has(b, x) || x == d
    ensures StrictlySorted(b) ==> forall x :: AmountAt(r, x) == AmountAt(b, x) + (if x == d then a else 0.0)
    ensures Total(r) == Total(b) + a
  {
    assert r[1..] == rest;
    forall x ensures Has(r, x) <==> Has(b, x) || x == d {
      HasTail(r, x);
      HasTail(b, x);
    }
    if StrictlySorted(b) {
      assert StrictlySorted(b[1..]) by {
        forall i, j | 0 <= i < j < |b[1..]| ensures Before(b[1..][i].date, b[1..][j].date) {
          assert b[1..][i] == b[i + 1] && b[1..][j] == b[j + 1];
        }
      }
      forall i, j | 0 <= i < j < |r| ensures Before(r[i].date, r[j].date) {
        if i == 0 {
          var x := rest[j - 1].date;
          assert Has(rest, x);
          if x == d {
            BeforeIsStrictTotalOrder(b[0].date, d, d);
          } else {
            assert Has(b[1..], x);
            var k :| 0 <= k < |b[1..]| && b[1..][k].date == x;
            assert b[k + 1].date == x;
          }
        }
      }
    }
  }

  /** The running payment date of the regular-payment loop, clamped to the end date. */
  function PaymentDate(start: Date, end: Date, months: int, i: nat): Date {
    if i == 0 then start
    else
      var next := AddMonths(PaymentDate(start, end, months, i - 1), months);
      if After(next, end) then end else next
  }

  /** The calendar after the regular-payment loop has run `i` times. */
  function RegularPayments(start: Date, end: Date, months: int, amount: real, i: nat): seq<Scheduled> {
    if i == 0 then []
    else Credit(RegularPayments(start, end, months, amount, i - 1), PaymentDate(start, end, months, i), amount)
  }

  predicate InTerm(d: Date, start: Date, end: Date) {
    !Before(d, start) && !After(d, end)
  }

  /** The calendar after crediting each extra payment dated inside the lease term. */
  function WithExtras(b: seq<Scheduled>, extras: seq<ExtraPayment>, start: Date, end: Date): seq<Scheduled>
    decreases |extras|
  {
    if |extras| == 0 then b
    else
      var e := extras[0];
      WithExtras(if InTerm(e.date, start, end) then Credit(b, e.date, e.amount) else b, extras[1..], start, end)
  }

  /** The lump sum credited on 1 February 2025 when that day lies strictly inside the term. */
  const LumpSumDate: Date := Ymd(2025, 2, 1)
  const LumpSumAmount: real := 100000.0

  function WithLumpSum(b: seq<Scheduled>, start: Date, end: Date): seq<Scheduled> {
    if After(LumpSumDate, start) && Before(LumpSumDate, end) then Credit(b, LumpSumDate, LumpSumAmount) else b
  }

  /** The whole calendar for a lease with `periods` regular payments every `months` months. */
  function PaymentCalendar(l: Lease, months: int, periods: nat): seq<Scheduled> {
    WithLumpSum(
      WithExtras(RegularPayments(l.startDate, l.endDate, months, l.paymentAmount, periods),
                 l.extraPayments, l.startDate, l.endDate),
      l.startDate, l.endDate)
  }

  /** The sum of the extra payments dated inside the term. */
  function ExtrasInTerm(extras: seq<ExtraPayment>, start: Date, end: Date): real
    decreases |extras|
  {
    if |extras| == 0 then 0.0
    else (if InTerm(extras[0].date, start, end) then extras[0].amount else 0.0) + ExtrasInTerm(extras[1..], start, end)
  }

  // ---- properties of the calendar ----

  lemma {:induction false} RegularPaymentsProperties(start: Date, end: Date, months: int, amount: real, i: nat)
    requires !Before(end, start)
    requires months >= 1
    ensures StrictlySorted(RegularPayments(start, end, months, amount, i))
    ensures forall x :: Has(RegularPayments(start, end, months, amount, i), x) ==> InTerm(x, start, end)
  {
    if i > 0 {
      RegularPaymentsProperties(start, end, months, amount, i - 1);
      PaymentDateInTerm(start, end, months, i);
      CreditMeaning(RegularPayments(start, end, months, amount, i - 1), PaymentDate(start, end, months, i), amount);
    }
  }

  /** The regular payments add up to the period count times the payment amount. */
  lemma RegularPaymentsTotal(start: Date, end: Date, months: int, amount: real, i: nat)
    ensures Total(RegularPayments(start, end, months, amount, i)) == i as real * amount
  {
    RegularPaymentsSum(start, end, months, amount, i);
    RepeatedIsProduct(amount, i);
  }

  lemma {:induction false} RegularPaymentsSum(start: Date, end: Date, months: int, amount: real, i: nat)
    ensures Total(RegularPayments(start, end, months, amount, i)) == Repeated(amount, i)
  {
    if i > 0 {
      RegularPaymentsSum(start, end, months, amount, i - 1);
      CreditMeaning(RegularPayments(start, end, months, amount, i - 1), PaymentDate(start, end, months, i), amount);
    }
  }

  /** Every regular payment date falls inside the lease term. */
  lemma {:induction false} PaymentDateInTerm(start: Date, end: Date, months: int, i: nat)
    requires !Before(end, start)
    requires months >= 1
    ensures InTerm(PaymentDate(start, end, months, i), start, end)
  {
    if i > 0 {
      var prev := PaymentDate(start, end, months, i - 1);
      var next := AddMonths(prev, months);
      PaymentDateInTerm(start, end, months, i - 1);
      AddMonthsIsLater(prev, months);
      BeforeIsStrictTotalOrder(start, prev, next);
      BeforeIsStrictTotalOrder(next, start, prev);
    }
  }

  lemma {:induction false} WithExtrasProperties(b: seq<Scheduled>, extras: seq<ExtraPayment>, start: Date, end: Date)
    requires StrictlySorted(b)
    ensures StrictlySorted(WithExtras(b, extras, start, end))
    ensures forall x :: Has(WithExtras(b, extras, start, end), x) <==>
              Has(b, x) || exists k :: 0 <= k < |extras| && extras[k].date == x && InTerm(x, start, end)
    decreases |extras|
  {
    if |extras| > 0 {
      var e := extras[0];
      var b' := if InTerm(e.date, start, end) then Credit(b, e.date, e.amount) else b;
      CreditMeaning(b, e.date, e.amount);
      WithExtrasProperties(b', extras[1..], start, end);
      forall x
        ensures Has(WithExtras(b, extras, start, end), x) <==>
                Has(b, x) || exists k :: 0 <= k < |extras| && extras[k].date == x && InTerm(x, start, end)
      {
        if exists k :: 0 <= k < |extras[1..]| && extras[1..][k].date == x && InTerm(x, start, end) {
          var k :| 0 <= k < |extras[1..]| && extras[1..][k].date == x && InTerm(x, start, end);
          assert extras[k + 1].date == x;
        }
        if exists k :: 0 <= k < |extras| && extras[k].date == x && InTerm(x, start, end) {
          var k :| 0 <= k < |extras| && extras[k].date == x && InTerm(x, start, end);
          if k > 0 {
            assert extras[1..][k - 1].date == x;
          }
        }
      }
    }
  }

  lemma {:induction false} WithExtrasTotal(b: seq<Scheduled>, extras: seq<ExtraPayment>, start: Date, end: Date)
    ensures Total(WithExtras(b, extras, start, end)) == Total(b) + ExtrasInTerm(extras, start, end)
    decreases |extras|
  {
    if |extras| > 0 {
      var e := extras[0];
      CreditMeaning(b, e.date, e.amount);
      WithExtrasTotal(if InTerm(e.date, start, end) then Credit(b, e.date, e.amount) else b, extras[1..], start, end);
    }
  }

  /**
   * The calendar is in strictly increasing date order and every date in it
   * lies inside the lease term.
   */
  lemma PaymentCalendarProperties(l: Lease, months: int, periods: nat)
    requires !Before(l.endDate, l.startDate)
    requires months >= 1
    ensures StrictlySorted(PaymentCalendar(l, months, periods))
    ensures forall x :: Has(PaymentCalendar(l, months, periods), x) ==> InTerm(x, l.startDate, l.endDate)
  {
    var s, e := l.startDate, l.endDate;
    var reg := RegularPayments(s, e, months, l.paymentAmount, periods);
    RegularPaymentsProperties(s, e, months, l.paymentAmount, periods);
    WithExtrasProperties(reg, l.extraPayments, s, e);
    CreditMeaning(WithExtras(reg, l.extraPayments, s, e), LumpSumDate, LumpSumAmount);
  }

  /**
   * The calendar holds exactly the regular payments, the extra payments
   * inside the term and the lump sum when that applies.
   */
  lemma PaymentCalendarTotal(l: Lease, months: int, periods: nat)
    ensures Total(PaymentCalendar(l, months, periods))
         == periods as real * l.paymentAmount
            + ExtrasInTerm(l.extraPayments, l.startDate, l.endDate)
            + (if After(LumpSumDate, l.startDate) && Before(LumpSumDate, l.endDate) then LumpSumAmount else 0.0)
  {
    var s, e := l.startDate, l.endDate;
    var reg := RegularPayments(s, e, months, l.paymentAmount, periods);
    RegularPaymentsTotal(s, e, months, l.paymentAmount, periods);
    WithExtrasTotal(reg, l.extraPayments, s, e);
    CreditMeaning(WithExtras(reg, l.extraPayments, s, e), LumpSumDate, LumpSumAmount);
  }

  /**
   * With the period count that `getPeriodsAndRate` returns, the clamped payment
   * dates follow the period markers and the last regular payment falls exactly
   * on the end date.
   */
  lemma LastRegularPaymentIsOnEndDate(l: Lease, months: int, periods: nat)
    requires months >= 1 && periods >= 1
    requires forall i :: 0 <= i < periods ==> Before(Marker(l.startDate, months, i), l.endDate)
    requires !Before(Marker(l.startDate, months, periods), l.endDate)
    ensures PaymentDate(l.startDate, l.endDate, months, periods) == l.endDate
    ensures Has(PaymentCalendar(l, months, periods), l.endDate)
  {
    var s, e := l.startDate, l.endDate;
    PaymentDateFollowsMarkers(s, e, months, periods - 1, periods);
    var next := Marker(s, months, periods);
    assert next == AddMonths(PaymentDate(s, e, months, periods - 1), months);
    BeforeIsStrictTotalOrder(next, e, e);
    assert Before(Marker(s, months, 0), e);
    BeforeIsStrictTotalOrder(s, e, s);
    var reg := RegularPayments(s, e, months, l.paymentAmount, periods);
    CreditMeaning(RegularPayments(s, e, months, l.paymentAmount, periods - 1), e, l.paymentAmount);
    assert Has(reg, e);
    RegularPaymentsProperties(s, e, months, l.paymentAmount, periods);
    WithExtrasProperties(reg, l.extraPayments, s, e);
    CreditMeaning(WithExtras(reg, l.extraPayments, s, e), LumpSumDate, LumpSumAmount);
  }

  lemma {:induction false} PaymentDateFollowsMarkers(start: Date, end: Date, months: int, i: nat, periods: nat)
    requires i < periods
    requires forall j :: 0 <= j < periods ==> Before(Marker(start, months, j), end)
    ensures PaymentDate(start, end, months, i) == Marker(start, months, i)
  {
    if i > 0 {
      PaymentDateFollowsMarkers(start, end, months, i - 1, periods);
      assert Before(Marker(start, months, i), end);
      BeforeIsStrictTotalOrder(Marker(start, months, i), end, Marker(start, months, i));
    }
  }

  /** Building the calendar: the regular-payment loop, the extra-payment loop and the lump sum. */
  method CollectPayments(l: Lease, months: int, periods: nat) returns (b: seq<Scheduled>)
    ensures b == PaymentCalendar(l, months, periods)
  {
    b := [];
    var currentPaymentDate := l.startDate;
    var i := 1;
    while i <= periods
      invariant 1 <= i <= periods + 1
      invariant currentPaymentDate == PaymentDate(l.startDate, l.endDate, months, i - 1)
      invariant b == RegularPayments(l.startDate, l.endDate, months, l.paymentAmount, i - 1)
    {
      currentPaymentDate := AddMonths(currentPaymentDate, months);
      if After(currentPaymentDate, l.endDate) {
        currentPaymentDate := l.endDate;
      }
      b := Credit(b, currentPaymentDate, l.paymentAmount);
      i := i + 1;
    }

    var k := 0;
    while k < |l.extraPayments|
      invariant 0 <= k <= |l.extraPayments|
      invariant WithExtras(b, l.extraPayments[k..], l.startDate, l.endDate)
             == WithExtras(RegularPayments(l.startDate, l.endDate, months, l.paymentAmount, periods),
                           l.extraPayments, l.startDate, l.endDate)
    {
      var extra := l.extraPayments[k];
      assert l.extraPayments[k..][1..] == l.extraPayments[k + 1..];
      if InTerm(extra.date, l.startDate, l.endDate) {
        b := Credit(b, extra.date, extra.amount);
      }
      k := k + 1;
    }
    assert l.extraPayments[k..] == [];

    if After(LumpSumDate, l.startDate) && Before(LumpSumDate, l.endDate) {
      b := Credit(b, LumpSumDate, LumpSumAmount);
    }
  }
}
