/**
 * The value types the investment-simulation handler exchanges with its
 * collaborators. Their declarations live in the domain project, which is not
 * part of this model; their shape is taken from how the handler builds and reads
 * them. Every C# `double` (rates, amounts) is the opaque type parameter `Num`:
 * the handler only copies such values, it never computes on them.
 */
module Domain {

  /** Business and calendar days from today to a maturity date, as the calendar repository counts them. */
  datatype CalendarCount = CalendarCount(businessDays: int, calendarDays: int)

  /** One observed point of a benchmark yield curve: a maturity in business days and its annual rate. */
  datatype EttjRate<Num> = EttjRate(businessDays: int, rateValue: Num)

  /** A benchmark yield curve (ETTJ), with its points in the order the repository returns them. */
  datatype Ettj<Num> = Ettj(rates: seq<EttjRate<Num>>)

  /** An anchor handed to the interpolation calculator. */
  datatype InterpolationPoint<Num> = InterpolationPoint(businessDays: int, rateValue: Num)

  /** Two anchors and the maturity, in business days, at which a rate is wanted. */
  datatype InterpolationSet<Num> =
    InterpolationSet(first: InterpolationPoint<Num>, second: InterpolationPoint<Num>, targetMaturityDays: int)

  /** The input of the investment simulator. */
  datatype InvestmentParameter<Num> = InvestmentParameter(
    investedAmount: Num,
    projectedRate: Num,
    calendarCount: CalendarCount,
    rate: Num,
    isTaxFree: bool)

  /** The request the handler serves: `index` names the benchmark curve, `rate` is the contract rate. */
  datatype SimulateInvestmentCommand<Num, Index, Date> = SimulateInvestmentCommand(
    investedAmount: Num,
    rate: Num,
    isTaxFree: bool,
    maturityDate: Date,
    index: Index)
}
