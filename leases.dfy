/**
 * The value types shared by the engine: the lease record and its extra
 * payments, the payment frequency, one row of an amortization schedule, and
 * the errors the calculation functions return.
 */
module Leases {
  import opened Dates

  /** `lease.PaymentFrequency`: a string type with three recognised values. */
  datatype Frequency = Monthly | Quarterly | Annually | Other(name: OtherName)

  /** A frequency string other than the three recognised values. */
  type OtherName = s: string | s != "Monthly" && s != "Quarterly" && s != "Annually"

  function FrequencyName(f: Frequency): string {
    match f
    case Monthly => "Monthly"
    case Quarterly => "Quarterly"
    case Annually => "Annually"
    case Other(name) => name
  }

  /** `lease.PaymentFrequency(s)`: the frequency a string denotes. */
  function FrequencyOf(s: string): (f: Frequency)
    ensures FrequencyName(f) == s
    ensures f.Other? <==> s != "Monthly" && s != "Quarterly" && s != "Annually"
  {
    if s == "Monthly" then Monthly
    else if s == "Quarterly" then Quarterly
    else if s == "Annually" then Annually
    else Other(s)
  }

  /** Every frequency is the one its string denotes. */
  lemma FrequencyNameRoundTrip(f: Frequency)
    ensures FrequencyOf(FrequencyName(f)) == f
  {
  }

  datatype ExtraPayment = ExtraPayment(date: Date, amount: real)

  datatype Lease = Lease(
    id: string,
    description: string,
    lessor: string,
    startDate: Date,
    endDate: Date,
    paymentAmount: real,
    paymentFrequency: Frequency,
    discountRate: real,
    initialDirectCost: real,
    residualValue: real,
    extraPayments: seq<ExtraPayment>)

  /** One day of a liability or right-of-use schedule (`AmortizationEntry`). */
  datatype Entry = Entry(
    period: int,
    date: Date,
    openingBalance: real,
    payment: real,
    interestExpense: real,
    depreciation: real,
    principalRepayment: real,
    closingBalance: real)

  datatype CalcError =
    | UnsupportedFrequency(frequency: string)
    | RateNotPositive
    | SafetyLimitExceeded
    | PaymentNotPositive
    | InvalidDates
    | PeriodsFailed(cause: CalcError)
    | InvalidScheduleFrequency(frequency: string)
    | NegativeRoUAsset
    | NegativeBalance(day: int)
}
