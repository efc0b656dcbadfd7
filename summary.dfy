/**
 * The accounting-period summary of the server (`calculateAccountingPeriodSummary`):
 * given a reporting window [start, end], find the carried liability and
 * right-of-use balances at its edges, total the interest, payments, principal
 * and depreciation of the days inside it, force the totals to agree with the
 * balance movement within one cent, and store the rounded figures in the
 * calculation result.
 *
 * The edge and window rules are stated on arbitrary schedules, exactly as the
 * scanning loop behaves; the lemmas at the end specialise them to schedules
 * whose balances chain from one day to the next, as the generated ones do.
 */
module Summary {
  import opened Results
  import opened Money
  import opened Dates
  import opened Leases
  import PresentValue
  import Amortization

  /** The per-lease result record the server fills and serialises. */
  class CalculationResult {
    var leaseId: string
    var initialLiability: real
    var initialRoUAsset: real
    var discountRate: real
    var paymentAmount: real
    var paymentFrequency: string
    var startDate: string
    var endDate: string
    var liabilitySchedule: seq<Entry>
    var rouAssetSchedule: seq<Entry>
    var accountingPeriodStart: string
    var accountingPeriodEnd: string
    var periodLiabilityStart: real
    var periodLiabilityEnd: real
    var periodRoUAssetStart: real
    var periodRoUAssetEnd: real
    var periodInterestExpense: real
    var periodDepreciation: real
    var periodPayments: real
    var periodPrincipalPayment: real
    var error: string

    /** A result as the server builds it, with the summary fields at Go's zero values. */
    constructor(leaseId: string, initialLiability: real, initialRoUAsset: real,
                liabilitySchedule: seq<Entry>, rouAssetSchedule: seq<Entry>)
      ensures this.leaseId == leaseId
      ensures this.initialLiability == initialLiability && this.initialRoUAsset == initialRoUAsset
      ensures this.liabilitySchedule == liabilitySchedule && this.rouAssetSchedule == rouAssetSchedule
      ensures accountingPeriodStart == "" && accountingPeriodEnd == ""
      ensures periodLiabilityStart == 0.0 && periodLiabilityEnd == 0.0
      ensures periodRoUAssetStart == 0.0 && periodRoUAssetEnd == 0.0
      ensures periodInterestExpense == 0.0 && periodDepreciation == 0.0
      ensures periodPayments == 0.0 && periodPrincipalPayment == 0.0
      ensures error == ""
    {
      this.leaseId := leaseId;
      this.initialLiability := initialLiability;
      this.initialRoUAsset := initialRoUAsset;
      discountRate := 0.0;
      paymentAmount := 0.0;
      paymentFrequency := "";
      startDate := "";
      endDate := "";
      this.liabilitySchedule := liabilitySchedule;
      this.rouAssetSchedule := rouAssetSchedule;
      accountingPeriodStart := "";
      accountingPeriodEnd := "";
      periodLiabilityStart := 0.0;
      periodLiabilityEnd := 0.0;
      periodRoUAssetStart := 0.0;
      periodRoUAssetEnd := 0.0;
      periodInterestExpense := 0.0;
      periodDepreciation := 0.0;
      periodPayments := 0.0;
      periodPrincipalPayment := 0.0;
      error := "";
    }
  }

  datatype SummaryError = InvalidPeriodStart | InvalidPeriodEnd | PeriodEndBeforeStart

  /** The one-cent tolerance of the consistency checks. */
  const Tolerance: real := 0.01

  // ---------------------------------------------------------------------------
  // Window edges and window totals
  // ---------------------------------------------------------------------------

  /** `date.Equal(start) || date.After(start)`. */
  predicate OnOrAfter(date: Date, start: Date) {
    date == start || After(date, start)
  }

  /** `(date.Equal(start) || date.After(start)) && (date.Equal(end) || date.Before(end))`. */
  predicate InWindow(date: Date, start: Date, end: Date) {
    OnOrAfter(date, start) && (date == end || Before(date, end))
  }

  /** The index of the first entry at or after `k` dated on or after `start`, or `|s|` if none is. */
  function FirstOnOrAfter(s: seq<Entry>, start: Date, k: nat): (r: nat)
    requires k <= |s|
    ensures k <= r <= |s|
    ensures forall j :: k <= j < r ==> !OnOrAfter(s[j].date, start)
    ensures r < |s| ==> OnOrAfter(s[r].date, start)
    decreases |s| - k
  {
    if k == |s| then |s|
    else if OnOrAfter(s[k].date, start) then k
    else FirstOnOrAfter(s, start, k + 1)
  }

  /** The index of the first entry at or after `k` dated strictly after `end`, or `|s|` if none is. */
  function FirstAfter(s: seq<Entry>, end: Date, k: nat): (r: nat)
    requires k <= |s|
    ensures k <= r <= |s|
    ensures forall j :: k <= j < r ==> !After(s[j].date, end)
    ensures r < |s| ==> After(s[r].date, end)
    decreases |s| - k
  {
    if k == |s| then |s|
    else if After(s[k].date, end) then k
    else FirstAfter(s, end, k + 1)
  }

  /** The index of the last of the first `k` entries dated exactly `end`, or -1 if none is. */
  function LastOn(s: seq<Entry>, end: Date, k: nat): (r: int)
    requires k <= |s|
    ensures -1 <= r < k
    ensures r >= 0 ==> s[r].date == end
    ensures forall j :: r < j < k ==> s[j].date != end
  {
    if k == 0 then -1
    else if s[k - 1].date == end then k - 1
    else LastOn(s, end, k - 1)
  }

  /**
   * The balance carried in at `start`: found at the first entry dated on or
   * after it, which contributes the previous entry's closing balance when it
   * lies strictly after `start` and has a predecessor, and its own opening
   * balance otherwise; zero when every entry precedes `start`.
   */
  function StartBalance(s: seq<Entry>, start: Date): real {
    var i := FirstOnOrAfter(s, start, 0);
    if i == |s| then 0.0
    else if i > 0 && After(s[i].date, start) then s[i - 1].closingBalance
    else s[i].openingBalance
  }

  /**
   * The end balance the first `k` entries have fixed, if any: the closing
   * balance of the last entry dated `end` (each one overwrites the previous),
   * or else, when the first entry after `end` is among them, the closing
   * balance of its predecessor, or its own when it is the first entry.
   */
  function EndCandidate(s: seq<Entry>, end: Date, k: nat): Option<real>
    requires k <= |s|
  {
    var e := LastOn(s, end, k);
    var f := FirstAfter(s, end, 0);
    if e >= 0 then Some(s[e].closingBalance)
    else if f < k then Some(if f > 0 then s[f - 1].closingBalance else s[f].closingBalance)
    else None
  }

  /** The balance carried out at `end`: the candidate of the whole schedule, or the last closing balance. */
  function EndBalance(s: seq<Entry>, end: Date): real
    requires |s| > 0
  {
    match EndCandidate(s, end, |s|)
    case Some(b) => b
    case None => s[|s| - 1].closingBalance
  }

  /** Interest of the first `k` entries that fall in the window, every day counted. */
  function WindowInterest(s: seq<Entry>, start: Date, end: Date, k: nat): real
    requires k <= |s|
  {
    if k == 0 then 0.0
    else WindowInterest(s, start, end, k - 1)
         + (if InWindow(s[k - 1].date, start, end) then s[k - 1].interestExpense else 0.0)
  }

  /** Payments of the first `k` entries that fall in the window and carry a positive payment. */
  function WindowPayments(s: seq<Entry>, start: Date, end: Date, k: nat): real
    requires k <= |s|
  {
    if k == 0 then 0.0
    else WindowPayments(s, start, end, k - 1)
         + (if InWindow(s[k - 1].date, start, end) && s[k - 1].payment > 0.0 then s[k - 1].payment else 0.0)
  }

  /** Principal of the same entries as `WindowPayments`: in the window with a positive payment. */
  function WindowPrincipal(s: seq<Entry>, start: Date, end: Date, k: nat): real
    requires k <= |s|
  {
    if k == 0 then 0.0
    else WindowPrincipal(s, start, end, k - 1)
         + (if InWindow(s[k - 1].date, start, end) && s[k - 1].payment > 0.0
            then s[k - 1].principalRepayment else 0.0)
  }

  /** Depreciation of the first `k` entries that fall in the window. */
  function WindowDepreciation(s: seq<Entry>, start: Date, end: Date, k: nat): real
    requires k <= |s|
  {
    if k == 0 then 0.0
    else WindowDepreciation(s, start, end, k - 1)
         + (if InWindow(s[k - 1].date, start, end) then s[k - 1].depreciation else 0.0)
  }

  // ---------------------------------------------------------------------------
  // The one-cent corrections
  // ---------------------------------------------------------------------------

  /** The principal after the balance check: replaced by the fall in the balance when more than a cent away. */
  function CorrectPrincipal(startBalance: real, endBalance: real, principal: real): real {
    var balanceChange := startBalance - endBalance;
    if Abs(balanceChange - principal) > Tolerance then balanceChange else principal
  }

  /** The interest after the payment check: replaced by payments less principal when the sum is more than a cent off. */
  function CorrectInterest(payments: real, principal: real, interest: real): real {
    if Abs((principal + interest) - payments) > Tolerance then payments - principal else interest
  }

  /** The depreciation after the balance check, by the same rule as the principal. */
  function CorrectDepreciation(startBalance: real, endBalance: real, depreciation: real): real {
    var calculatedDepreciation := startBalance - endBalance;
    if Abs(calculatedDepreciation - depreciation) > Tolerance then calculatedDepreciation else depreciation
  }

  // ---------------------------------------------------------------------------
  // The summaries
  // ---------------------------------------------------------------------------

  datatype LiabilitySummary = LiabilitySummary(
    startBalance: real, endBalance: real, interest: real, payments: real, principal: real)

  datatype RouSummary = RouSummary(startBalance: real, endBalance: real, depreciation: real)

  /** The liability figures before rounding: edge balances, window totals, then the corrections. */
  function LiabilityTotals(s: seq<Entry>, start: Date, end: Date): LiabilitySummary
    requires |s| > 0
  {
    var startBalance := StartBalance(s, start);
    var endBalance := EndBalance(s, end);
    var principal := CorrectPrincipal(startBalance, endBalance, WindowPrincipal(s, start, end, |s|));
    var payments := WindowPayments(s, start, end, |s|);
    var interest := CorrectInterest(payments, principal, WindowInterest(s, start, end, |s|));
    LiabilitySummary(startBalance, endBalance, interest, payments, principal)
  }

  function RoundedLiability(t: LiabilitySummary): LiabilitySummary {
    LiabilitySummary(Round2(t.startBalance), Round2(t.endBalance), Round2(t.interest),
                     Round2(t.payments), Round2(t.principal))
  }

  /** The right-of-use figures before rounding. */
  function RouTotals(s: seq<Entry>, start: Date, end: Date): RouSummary
    requires |s| > 0
  {
    var startBalance := StartBalance(s, start);
    var endBalance := EndBalance(s, end);
    RouSummary(startBalance, endBalance,
               CorrectDepreciation(startBalance, endBalance, WindowDepreciation(s, start, end, |s|)))
  }

  function RoundedRou(t: RouSummary): RouSummary {
    RouSummary(Round2(t.startBalance), Round2(t.endBalance), Round2(t.depreciation))
  }

  // ---------------------------------------------------------------------------
  // What the figures satisfy
  // ---------------------------------------------------------------------------

  /**
   * After the corrections the liability figures reconcile within a cent: the
   * principal with the fall in the balance, and principal plus interest with
   * the payments. A figure that already reconciled is kept as summed.
   */
  lemma LiabilityTotalsReconcile(s: seq<Entry>, start: Date, end: Date)
    requires |s| > 0
    ensures var t := LiabilityTotals(s, start, end);
            && Abs(t.principal - (t.startBalance - t.endBalance)) <= Tolerance
            && Abs(t.principal + t.interest - t.payments) <= Tolerance
    ensures var t := LiabilityTotals(s, start, end);
            var summed := WindowPrincipal(s, start, end, |s|);
            && t.startBalance == StartBalance(s, start)
            && t.endBalance == EndBalance(s, end)
            && t.payments == WindowPayments(s, start, end, |s|)
            && (Abs((t.startBalance - t.endBalance) - summed) <= Tolerance ==> t.principal == summed)
            && (Abs(t.principal + WindowInterest(s, start, end, |s|) - t.payments) <= Tolerance ==>
                  t.interest == WindowInterest(s, start, end, |s|))
  {
  }

  /** After the correction the depreciation is within a cent of the fall in the right-of-use balance. */
  lemma RouTotalsReconcile(s: seq<Entry>, start: Date, end: Date)
    requires |s| > 0
    ensures var t := RouTotals(s, start, end);
            var summed := WindowDepreciation(s, start, end, |s|);
            && t.startBalance == StartBalance(s, start)
            && t.endBalance == EndBalance(s, end)
            && Abs(t.depreciation - (t.startBalance - t.endBalance)) <= Tolerance
            && (Abs((t.startBalance - t.endBalance) - summed) <= Tolerance ==> t.depreciation == summed)
  {
  }

  /**
   * Rounding each figure to the cent separately costs at most half a cent
   * per figure, so the stored figures still reconcile within 2.5 cents.
   */
  lemma StoredLiabilityReconciles(s: seq<Entry>, start: Date, end: Date)
    requires |s| > 0
    ensures var r := RoundedLiability(LiabilityTotals(s, start, end));
            && Abs(r.principal - (r.startBalance - r.endBalance)) <= 0.025
            && Abs(r.principal + r.interest - r.payments) <= 0.025
  {
    LiabilityTotalsReconcile(s, start, end);
    var t := LiabilityTotals(s, start, end);
    RoundedDifference(t.principal, t.startBalance, t.endBalance);
    RoundedDifference(t.principal, t.payments, t.interest);
  }

  lemma StoredRouReconciles(s: seq<Entry>, start: Date, end: Date)
    requires |s| > 0
    ensures var r := RoundedRou(RouTotals(s, start, end));
            Abs(r.depreciation - (r.startBalance - r.endBalance)) <= 0.025
  {
    RouTotalsReconcile(s, start, end);
    var t := RouTotals(s, start, end);
    RoundedDifference(t.depreciation, t.startBalance, t.endBalance);
  }

  /** Three figures within a cent of `a == b - c` stay within 2.5 cents of it once each is rounded. */
  lemma RoundedDifference(a: real, b: real, c: real)
    requires Abs(a - (b - c)) <= Tolerance
    ensures Abs(Round2(a) - (Round2(b) - Round2(c))) <= 0.025
    ensures Abs(Round2(a) + Round2(c) - Round2(b)) <= 0.025
  {
  }

  /** Stored figures are already whole cents: rounding them again changes nothing. */
  lemma StoredFiguresAreRounded(t: LiabilitySummary)
    ensures RoundedLiability(RoundedLiability(t)) == RoundedLiability(t)
  {
    Round2Idempotent(t.startBalance);
    Round2Idempotent(t.endBalance);
    Round2Idempotent(t.interest);
    Round2Idempotent(t.payments);
    Round2Idempotent(t.principal);
  }

  /**
   * The start rule stated on indices: when entry `i` is the first dated on or
   * after `start`, the start balance comes from it, or from its predecessor's
   * closing balance when it lies strictly after `start`. With no such entry
   * the start balance is zero.
   */
  lemma StartBalanceRule(s: seq<Entry>, start: Date, i: nat)
    requires i < |s| && OnOrAfter(s[i].date, start)
    requires forall j :: 0 <= j < i ==> !OnOrAfter(s[j].date, start)
    ensures StartBalance(s, start)
            == if i > 0 && After(s[i].date, start) then s[i - 1].closingBalance else s[i].openingBalance
  {
    assert FirstOnOrAfter(s, start, 0) <= i;
  }

  lemma StartBalanceNone(s: seq<Entry>, start: Date)
    requires forall j :: 0 <= j < |s| ==> !OnOrAfter(s[j].date, start)
    ensures StartBalance(s, start) == 0.0
  {
  }

  /**
   * The end rule stated on indices: an entry dated `end` gives its closing
   * balance (the last such entry, should there be several); with none, the
   * first entry after `end` gives its predecessor's closing balance, or its
   * own at index 0; with neither, the last entry's closing balance is used.
   */
  lemma EndBalanceOnEnd(s: seq<Entry>, end: Date, i: nat)
    requires i < |s| && s[i].date == end
    requires forall j :: i < j < |s| ==> s[j].date != end
    ensures EndBalance(s, end) == s[i].closingBalance
  {
  }

  lemma EndBalanceAfterEnd(s: seq<Entry>, end: Date, i: nat)
    requires i < |s| && After(s[i].date, end)
    requires forall j :: 0 <= j < |s| ==> s[j].date != end
    requires forall j :: 0 <= j < i ==> !After(s[j].date, end)
    ensures EndBalance(s, end) == if i > 0 then s[i - 1].closingBalance else s[i].closingBalance
  {
    assert FirstAfter(s, end, 0) <= i;
  }

  lemma EndBalanceNone(s: seq<Entry>, end: Date)
    requires |s| > 0
    requires forall j :: 0 <= j < |s| ==> s[j].date != end && !After(s[j].date, end)
    ensures EndBalance(s, end) == s[|s| - 1].closingBalance
  {
  }

  /**
   * A window that spans a schedule from its first to its last date reports
   * the schedule's own opening and closing balances.
   */
  lemma WholeTermBalances(s: seq<Entry>, start: Date, end: Date)
    requires |s| > 0 && s[0].date == start && s[|s| - 1].date == end
    ensures StartBalance(s, start) == s[0].openingBalance
    ensures EndBalance(s, end) == s[|s| - 1].closingBalance
  {
    StartBalanceRule(s, start, 0);
    EndBalanceOnEnd(s, end, |s| - 1);
  }

  /**
   * Over the whole term of a lease with payment periods whose term fits in a
   * `time.Duration`, the liability summary opens at the rounded initial
   * liability and closes at zero.
   */
  lemma WholeTermLiabilityBalances(l: Lease, initialLiability: real)
    requires PresentValue.PeriodsAndRate(l).Ok? && PresentValue.PeriodsAndRate(l).value.periods > 0
    requires SpanFitsDuration(l.startDate, l.endDate)
    ensures Amortization.LiabilitySchedule(l, initialLiability).Ok?
    ensures var s := Amortization.LiabilitySchedule(l, initialLiability).value;
            && StartBalance(s, l.startDate) == Round2(initialLiability)
            && EndBalance(s, l.endDate) == 0.0
  {
    Amortization.LiabilityScheduleShape(l, initialLiability);
    WholeTermBalances(Amortization.LiabilitySchedule(l, initialLiability).value, l.startDate, l.endDate);
  }

  /** Each day opens at the previous day's closing balance, as the generated schedules do. */
  predicate Chained(s: seq<Entry>) {
    forall k :: 0 < k < |s| ==> s[k].openingBalance == s[k - 1].closingBalance
  }

  /**
   * On a chained schedule both branches of the start rule agree: the start
   * balance is the opening balance of the first entry on or after `start`.
   */
  lemma ChainedStartBalance(s: seq<Entry>, start: Date)
    requires Chained(s)
    requires FirstOnOrAfter(s, start, 0) < |s|
    ensures StartBalance(s, start) == s[FirstOnOrAfter(s, start, 0)].openingBalance
  {
    var i := FirstOnOrAfter(s, start, 0);
    if i > 0 {
      assert s[i].openingBalance == s[i - 1].closingBalance;
    }
  }

  /** Only positive payments are counted, so the window's payment total is never negative. */
  lemma {:induction false} WindowPaymentsNonNegative(s: seq<Entry>, start: Date, end: Date, k: nat)
    requires k <= |s|
    ensures WindowPayments(s, start, end, k) >= 0.0
  {
    if k > 0 {
      WindowPaymentsNonNegative(s, start, end, k - 1);
    }
  }

  /** A window that no entry falls in has all four totals zero. */
  lemma {:induction false} EmptyWindowTotals(s: seq<Entry>, start: Date, end: Date, k: nat)
    requires k <= |s|
    requires forall j :: 0 <= j < k ==> !InWindow(s[j].date, start, end)
    ensures WindowInterest(s, start, end, k) == 0.0
    ensures WindowPayments(s, start, end, k) == 0.0
    ensures WindowPrincipal(s, start, end, k) == 0.0
    ensures WindowDepreciation(s, start, end, k) == 0.0
  {
    if k > 0 {
      EmptyWindowTotals(s, start, end, k - 1);
    }
  }

  // ---------------------------------------------------------------------------
  // The scanning loops and the summary method
  // ---------------------------------------------------------------------------

  /** The liability loop: one pass that finds both edge balances and the three window totals. */
  method ScanLiability(s: seq<Entry>, start: Date, end: Date)
      returns (startBalance: real, endBalance: real, totalPayments: real, totalInterest: real, totalPrincipal: real)
    requires |s| > 0
    ensures startBalance == StartBalance(s, start)
    ensures endBalance == EndBalance(s, end)
    ensures totalPayments == WindowPayments(s, start, end, |s|)
    ensures totalInterest == WindowInterest(s, start, end, |s|)
    ensures totalPrincipal == WindowPrincipal(s, start, end, |s|)
  {
    startBalance, endBalance, totalPayments, totalInterest, totalPrincipal := 0.0, 0.0, 0.0, 0.0, 0.0;
    var startFound, endFound := false, false;
    var i := 0;
    while i < |s|
      invariant 0 <= i <= |s|
      invariant startFound <==> FirstOnOrAfter(s, start, 0) < i
      invariant startBalance == if startFound then StartBalance(s, start) else 0.0
      invariant endFound <==> EndCandidate(s, end, i).Some?
      invariant endFound ==> endBalance == EndCandidate(s, end, i).value
      invariant totalPayments == WindowPayments(s, start, end, i)
      invariant totalInterest == WindowInterest(s, start, end, i)
      invariant totalPrincipal == WindowPrincipal(s, start, end, i)
    {
      startFound, startBalance := StartEdge(s, start, i, startFound, startBalance);
      var entry := s[i];
      if InWindow(entry.date, start, end) {
        totalInterest := totalInterest + entry.interestExpense;
        if entry.payment > 0.0 {
          totalPayments := totalPayments + entry.payment;
          totalPrincipal := totalPrincipal + entry.principalRepayment;
        }
      }
      endFound, endBalance := EndEdge(s, end, i, endFound, endBalance);
      i := i + 1;
    }
    if !endFound {
      endBalance := s[|s| - 1].closingBalance;
    }
  }

  /** The right-of-use loop: both edge balances and the window depreciation. */
  method ScanRou(s: seq<Entry>, start: Date, end: Date)
      returns (startBalance: real, endBalance: real, totalDepreciation: real)
    requires |s| > 0
    ensures startBalance == StartBalance(s, start)
    ensures endBalance == EndBalance(s, end)
    ensures totalDepreciation == WindowDepreciation(s, start, end, |s|)
  {
    startBalance, endBalance, totalDepreciation := 0.0, 0.0, 0.0;
    var startFound, endFound := false, false;
    var i := 0;
    while i < |s|
      invariant 0 <= i <= |s|
      invariant startFound <==> FirstOnOrAfter(s, start, 0) < i
      invariant startBalance == if startFound then StartBalance(s, start) else 0.0
      invariant endFound <==> EndCandidate(s, end, i).Some?
      invariant endFound ==> endBalance == EndCandidate(s, end, i).value
      invariant totalDepreciation == WindowDepreciation(s, start, end, i)
    {
      startFound, startBalance := StartEdge(s, start, i, startFound, startBalance);
      if InWindow(s[i].date, start, end) {
        totalDepreciation := totalDepreciation + s[i].depreciation;
      }
      endFound, endBalance := EndEdge(s, end, i, endFound, endBalance);
      i := i + 1;
    }
    if !endFound {
      endBalance := s[|s| - 1].closingBalance;
    }
  }

  /**
   * The start-edge step of both loops: the first entry dated on or after
   * `start` fixes the start balance, from its predecessor's closing balance
   * when it lies after `start` and has one, from its own opening balance
   * otherwise.
   */
  method StartEdge(s: seq<Entry>, start: Date, i: nat, startFound: bool, startBalance: real)
      returns (found: bool, balance: real)
    requires i < |s|
    requires startFound <==> FirstOnOrAfter(s, start, 0) < i
    requires startBalance == if startFound then StartBalance(s, start) else 0.0
    ensures found <==> FirstOnOrAfter(s, start, 0) < i + 1
    ensures balance == if found then StartBalance(s, start) else 0.0
  {
    found, balance := startFound, startBalance;
    var entry := s[i];
    if !startFound && OnOrAfter(entry.date, start) {
      if i > 0 && After(entry.date, start) {
        balance := s[i - 1].closingBalance;
      } else {
        balance := entry.openingBalance;
      }
      found := true;
    }
    StartFoundStep(s, start, i);
  }

  /**
   * The end-edge step of both loops: an entry dated `end` always fixes the
   * end balance at its closing balance; the first entry after `end` fixes it,
   * when nothing has yet, at its predecessor's closing balance, or its own if
   * it is the first entry.
   */
  method EndEdge(s: seq<Entry>, end: Date, i: nat, endFound: bool, endBalance: real)
      returns (found: bool, balance: real)
    requires i < |s|
    requires endFound <==> EndCandidate(s, end, i).Some?
    requires endFound ==> endBalance == EndCandidate(s, end, i).value
    ensures found <==> EndCandidate(s, end, i + 1).Some?
    ensures found ==> balance == EndCandidate(s, end, i + 1).value
  {
    found, balance := endFound, endBalance;
    var entry := s[i];
    if entry.date == end || (After(entry.date, end) && !endFound) {
      if After(entry.date, end) && i > 0 {
        balance := s[i - 1].closingBalance;
      } else {
        balance := entry.closingBalance;
      }
      found := true;
    }
    EndCandidateStep(s, end, i);
  }

  /** How one more entry changes whether the start edge has been found. */
  lemma StartFoundStep(s: seq<Entry>, start: Date, i: nat)
    requires i < |s|
    ensures var f := FirstOnOrAfter(s, start, 0);
            && (f < i + 1 <==> f < i || OnOrAfter(s[i].date, start))
            && (f >= i && OnOrAfter(s[i].date, start) ==> f == i)
  {
  }

  /** How one more entry changes the end candidate: the scan's `endFound` branch. */
  lemma EndCandidateStep(s: seq<Entry>, end: Date, i: nat)
    requires i < |s|
    ensures s[i].date == end ==> EndCandidate(s, end, i + 1) == Some(s[i].closingBalance)
    ensures s[i].date != end && After(s[i].date, end) && EndCandidate(s, end, i).None? ==>
              EndCandidate(s, end, i + 1)
              == Some(if i > 0 then s[i - 1].closingBalance else s[i].closingBalance)
    ensures s[i].date != end && !(After(s[i].date, end) && EndCandidate(s, end, i).None?) ==>
              EndCandidate(s, end, i + 1) == EndCandidate(s, end, i)
  {
    var f := FirstAfter(s, end, 0);
    if s[i].date != end && After(s[i].date, end) {
      if EndCandidate(s, end, i).None? {
        assert f == i;
      } else {
        assert f < i + 1;
      }
    }
  }

  /**
   * The window the two strings denote. `parsedStart` and `parsedEnd` are what
   * `time.Parse("2006-01-02", ·)` makes of them, `None` for a parse error.
   * The start is examined first, and a window that ends before it begins is
   * refused.
   */
  function ParseWindow(parsedStart: Option<Date>, parsedEnd: Option<Date>): (r: Result<(Date, Date), SummaryError>)
    ensures parsedStart.None? ==> r == Err(InvalidPeriodStart)
    ensures parsedStart.Some? && parsedEnd.None? ==> r == Err(InvalidPeriodEnd)
    ensures parsedStart.Some? && parsedEnd.Some? && Before(parsedEnd.value, parsedStart.value) ==>
              r == Err(PeriodEndBeforeStart)
    ensures r.Ok? <==> parsedStart.Some? && parsedEnd.Some? && !Before(parsedEnd.value, parsedStart.value)
    ensures r.Ok? ==> r.value == (parsedStart.value, parsedEnd.value)
  {
    match parsedStart
    case None => Err(InvalidPeriodStart)
    case Some(start) =>
      match parsedEnd
      case None => Err(InvalidPeriodEnd)
      case Some(end) => if Before(end, start) then Err(PeriodEndBeforeStart) else Ok((start, end))
  }

  /**
   * `calculateAccountingPeriodSummary`, given what parsing made of the two
   * window strings. An error leaves the result untouched; otherwise the
   * window strings are recorded and each non-empty schedule's summary fields
   * are overwritten with its rounded figures, while an empty schedule leaves
   * its fields as they were. Nothing else is written: the schedules are
   * only read, so a second call with the same window writes the same values.
   */
  method CalculateAccountingPeriodSummary(result: CalculationResult, periodStart: string, periodEnd: string,
                                          parsedStart: Option<Date>, parsedEnd: Option<Date>)
      returns (err: Option<SummaryError>)
    modifies result`accountingPeriodStart, result`accountingPeriodEnd
    modifies result`periodLiabilityStart, result`periodLiabilityEnd, result`periodInterestExpense,
             result`periodPayments, result`periodPrincipalPayment
    modifies result`periodRoUAssetStart, result`periodRoUAssetEnd, result`periodDepreciation
    ensures ParseWindow(parsedStart, parsedEnd).Err? ==>
              err == Some(ParseWindow(parsedStart, parsedEnd).error) && unchanged(result)
    ensures ParseWindow(parsedStart, parsedEnd).Ok? ==>
              && err.None?
              && var (start, end) := ParseWindow(parsedStart, parsedEnd).value;
                 SummaryWritten(result, start, end, periodStart, periodEnd)
  {
    var window := ParseWindow(parsedStart, parsedEnd);
    if window.Err? {
      return Some(window.error);
    }
    var (start, end) := window.value;
    WriteSummary(result, start, end, periodStart, periodEnd);
    return None;
  }

  /**
   * Running the summary twice with the same window gives the same answer and
   * leaves every summary field as the first run left it.
   */
  method SummaryIsRepeatable(result: CalculationResult, periodStart: string, periodEnd: string,
                             parsedStart: Option<Date>, parsedEnd: Option<Date>)
      returns (first: Option<SummaryError>, second: Option<SummaryError>,
               ghost liabilityAfterFirst: LiabilitySummary, ghost rouAfterFirst: RouSummary)
    modifies result`accountingPeriodStart, result`accountingPeriodEnd
    modifies result`periodLiabilityStart, result`periodLiabilityEnd, result`periodInterestExpense,
             result`periodPayments, result`periodPrincipalPayment
    modifies result`periodRoUAssetStart, result`periodRoUAssetEnd, result`periodDepreciation
    ensures first == second
    ensures LiabilityFields(result) == liabilityAfterFirst && RouFields(result) == rouAfterFirst
  {
    first := CalculateAccountingPeriodSummary(result, periodStart, periodEnd, parsedStart, parsedEnd);
    liabilityAfterFirst, rouAfterFirst := LiabilityFields(result), RouFields(result);
    second := CalculateAccountingPeriodSummary(result, periodStart, periodEnd, parsedStart, parsedEnd);
  }

  /**
   * What a successful summary leaves in the result: the window strings, and
   * for each non-empty schedule its rounded figures, for an empty one the
   * fields it had before.
   */
  twostate predicate SummaryWritten(result: CalculationResult, start: Date, end: Date,
                                    periodStart: string, periodEnd: string)
    reads result
  {
    && result.accountingPeriodStart == periodStart
    && result.accountingPeriodEnd == periodEnd
    && LiabilityDone(LiabilityFields(result), result.liabilitySchedule, start, end, old(LiabilityFields(result)))
    && RouDone(RouFields(result), result.rouAssetSchedule, start, end, old(RouFields(result)))
  }

  /** The liability fields hold the rounded figures of a non-empty schedule, and `before` for an empty one. */
  predicate LiabilityDone(fields: LiabilitySummary, ls: seq<Entry>, start: Date, end: Date, before: LiabilitySummary) {
    && (|ls| > 0 ==> fields == RoundedLiability(LiabilityTotals(ls, start, end)))
    && (|ls| == 0 ==> fields == before)
  }

  /** The same for the right-of-use fields and schedule. */
  predicate RouDone(fields: RouSummary, rs: seq<Entry>, start: Date, end: Date, before: RouSummary) {
    && (|rs| > 0 ==> fields == RoundedRou(RouTotals(rs, start, end)))
    && (|rs| == 0 ==> fields == before)
  }

  /** The writes of a successful summary, in the order the server makes them. */
  method WriteSummary(result: CalculationResult, start: Date, end: Date, periodStart: string, periodEnd: string)
    modifies result`accountingPeriodStart, result`accountingPeriodEnd
    modifies result`periodLiabilityStart, result`periodLiabilityEnd, result`periodInterestExpense,
             result`periodPayments, result`periodPrincipalPayment
    modifies result`periodRoUAssetStart, result`periodRoUAssetEnd, result`periodDepreciation
    ensures SummaryWritten(result, start, end, periodStart, periodEnd)
  {
    result.accountingPeriodStart := periodStart;
    result.accountingPeriodEnd := periodEnd;
    SummariseLiability(result, start, end);
    ghost var liability := LiabilityFields(result);
    SummariseRou(result, start, end);
    assert LiabilityFields(result) == liability;
  }

  /** The liability half of the summary: only its five fields change, and only for a non-empty schedule. */
  method SummariseLiability(result: CalculationResult, start: Date, end: Date)
    modifies result`periodLiabilityStart, result`periodLiabilityEnd, result`periodInterestExpense,
             result`periodPayments, result`periodPrincipalPayment
    ensures LiabilityDone(LiabilityFields(result), result.liabilitySchedule, start, end, old(LiabilityFields(result)))
  {
    if |result.liabilitySchedule| > 0 {
      var startBalance, endBalance, totalPayments, totalInterest, totalPrincipal :=
        ScanLiability(result.liabilitySchedule, start, end);
      totalPrincipal := CorrectPrincipal(startBalance, endBalance, totalPrincipal);
      totalInterest := CorrectInterest(totalPayments, totalPrincipal, totalInterest);
      result.periodLiabilityStart := Round2(startBalance);
      result.periodLiabilityEnd := Round2(endBalance);
      result.periodInterestExpense := Round2(totalInterest);
      result.periodPayments := Round2(totalPayments);
      result.periodPrincipalPayment := Round2(totalPrincipal);
    }
  }

  /** The right-of-use half: only its three fields change, and only for a non-empty schedule. */
  method SummariseRou(result: CalculationResult, start: Date, end: Date)
    modifies result`periodRoUAssetStart, result`periodRoUAssetEnd, result`periodDepreciation
    ensures RouDone(RouFields(result), result.rouAssetSchedule, start, end, old(RouFields(result)))
  {
    if |result.rouAssetSchedule| > 0 {
      var startBalance, endBalance, totalDepreciation := ScanRou(result.rouAssetSchedule, start, end);
      totalDepreciation := CorrectDepreciation(startBalance, endBalance, totalDepreciation);
      result.periodRoUAssetStart := Round2(startBalance);
      result.periodRoUAssetEnd := Round2(endBalance);
      result.periodDepreciation := Round2(totalDepreciation);
    }
  }

  /** The five liability summary fields of a result. */
  function LiabilityFields(r: CalculationResult): LiabilitySummary
    reads r`periodLiabilityStart, r`periodLiabilityEnd, r`periodInterestExpense,
          r`periodPayments, r`periodPrincipalPayment
  {
    LiabilitySummary(r.periodLiabilityStart, r.periodLiabilityEnd, r.periodInterestExpense,
                     r.periodPayments, r.periodPrincipalPayment)
  }

  /** The three right-of-use summary fields of a result. */
  function RouFields(r: CalculationResult): RouSummary
    reads r`periodRoUAssetStart, r`periodRoUAssetEnd, r`periodDepreciation
  {
    RouSummary(r.periodRoUAssetStart, r.periodRoUAssetEnd, r.periodDepreciation)
  }
}
