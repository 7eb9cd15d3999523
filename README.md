# Investment simulation handler: projected-rate selection

This project models `SimulateInvestmentHandler`, the handler that serves an
investment-simulation request. For a request it:

1. asks the calendar repository for the business- and calendar-day count up to the maturity date;
2. fetches the benchmark yield curve (ETTJ) for the requested index and that business-day count;
3. projects a rate. A curve with exactly one point gives that point's rate directly. Any other
   curve is sorted stably by business days (LINQ `OrderBy`). Its first two points become the
   anchors of an interpolation set whose target is the business-day count. That set goes to the
   exponential interpolation calculator;
4. builds the investment parameter from the invested amount, the projected rate, the calendar
   count, the contract rate and the tax-free flag, and returns what the investment simulator
   returns.

The model is written in a functional style, as the source is: the handler's fields are
read-only, and its methods are straight-line code, one conditional and a LINQ pipeline.

- `Domain` (`domain.dfy`) holds the value types the handler exchanges. Every C# `double` is
  the opaque type parameter `Num`, because the handler only copies rates and amounts and never
  computes on them.
- `OrderBy` (`order_by.dfy`) is `OrderBy(x => x.BusinessDays).ToList()`: an insertion sort that
  places each point before the first point whose business days are not smaller. That makes it
  stable. It is proved sorted, a permutation of its input, stable, and, when business days are
  distinct, independent of the input order.
- `Handlers` (`simulate_investment_handler.dfy`) has the handler. Its four injected collaborators
  are the function-valued fields of the `SimulateInvestmentHandler` datatype and are left
  uninterpreted. `ProjectedRate.interpolation` records the argument the interpolation calculator
  was called with, or `None` when it was not called. `Handle` also returns a trace (`Handled`) of
  the values it exchanged with its collaborators: the calendar count it received, the curve
  query it made, the projected rate and the simulator's input.
- Indexing a too-short sorted list raises `ArgumentOutOfRangeException` in the source. Here that
  is `Failure(ArgumentOutOfRange(i))`, with `i` the index that failed. An empty curve fails at
  index 0. A one-point curve never reaches the indexer from `Handle`.

The anchors are always the two shortest-maturity points, whatever the target. The target is
passed only to the calculator, so the anchors need not be the pair that frames it
(`AnchorsNeedNotBracketTarget`). An empty curve is not rejected up front. It takes the
interpolation branch and fails when it indexes `rates[0]`.

## Model

| member | source | states |
|---|---|---|
| Handlers.Handle | Easynvest.SimulatorCalc/Easynvest.SimulatorCalc.Application/Handlers/SimulateInvestmentHandler.cs:29-40 | Fails exactly when the fetched curve is empty. Otherwise the curve is looked up with the calendar's business-day count, and any interpolation target is that same count. The simulator's parameter carries the invested amount, contract rate and tax flag unchanged, plus the calendar count and the projected rate. That projected rate is the one `GetProjectedRate` gives for the fetched curve at the calendar's business-day count. The simulator's result is returned unchanged. |
| Handlers.GetProjectedRate | Easynvest.SimulatorCalc/Easynvest.SimulatorCalc.Application/Handlers/SimulateInvestmentHandler.cs:42-48 | A one-point curve yields its rate unchanged and does not call the calculator. An empty curve fails at index 0. A curve of two or more points yields the calculator's result on exactly the interpolation set `TransformEttjToInterpolationSet` builds for that curve and target. That set's anchors are pinned by the anchor lemmas, and its target is the given business-day count. |
| Handlers.TransformEttjToInterpolationSet | Easynvest.SimulatorCalc/Easynvest.SimulatorCalc.Application/Handlers/SimulateInvestmentHandler.cs:50-61 | Fails exactly when the curve has fewer than two points, at the index that is missing. Otherwise the target passes through and the first anchor's business days are at most the second's. |
| Handlers.AnchorsAreTwoShortest | Easynvest.SimulatorCalc/Easynvest.SimulatorCalc.Application/Handlers/SimulateInvestmentHandler.cs:52-58 | The anchors copy two distinct curve points unchanged. No curve point is shorter than the first anchor. Once both anchors are set aside, no remaining point is shorter than the second anchor. The anchors are the same for every target. |
| Handlers.AnchorsKeepCurveOrder | Easynvest.SimulatorCalc/Easynvest.SimulatorCalc.Application/Handlers/SimulateInvestmentHandler.cs:52-55 | Stability at the anchors: among the points with the shortest maturity, the first anchor is the earliest in curve order. If the second anchor ties with it, the second anchor is the next one in curve order. Otherwise the second anchor is the earliest, in curve order, of the points at its own maturity. |
| Handlers.AnchorsIndependentOfCurveOrder | Easynvest.SimulatorCalc/Easynvest.SimulatorCalc.Application/Handlers/SimulateInvestmentHandler.cs:52-55 | When business-day counts are distinct, any reordering of the curve's points gives the same interpolation set. |
| Handlers.AnchorsNeedNotBracketTarget | Easynvest.SimulatorCalc/Easynvest.SimulatorCalc.Application/Handlers/SimulateInvestmentHandler.cs:50-60 | For the curve {63, 21, 42} and target 50, the anchors are 21 and 42, so both lie below the target. |
| Handlers.HandleSinglePointCurve | Easynvest.SimulatorCalc/Easynvest.SimulatorCalc.Application/Handlers/SimulateInvestmentHandler.cs:31-44 | With a one-point curve, the request succeeds, the calculator is never called, and the simulator gets that point's rate unchanged. |
| Handlers.HandleInterpolatesFromTwoShortest | Easynvest.SimulatorCalc/Easynvest.SimulatorCalc.Application/Handlers/SimulateInvestmentHandler.cs:31-47 | With a curve of two or more points, the simulator gets the calculator's result. The calculator's anchors are the curve's two shortest points, and its target is the calendar's business-day count. |
| OrderBy.OrderByBusinessDays | Easynvest.SimulatorCalc/Easynvest.SimulatorCalc.Application/Handlers/SimulateInvestmentHandler.cs:52 | The ordered list is sorted by business days and is a permutation of the curve. |
| OrderBy.OrderByStable | Easynvest.SimulatorCalc/Easynvest.SimulatorCalc.Application/Handlers/SimulateInvestmentHandler.cs:52 | For every business-day count, the ordered list keeps the points at that count in their input order. |
| OrderBy.OrderByOrderIndependent | Easynvest.SimulatorCalc/Easynvest.SimulatorCalc.Application/Handlers/SimulateInvestmentHandler.cs:52 | When business days are distinct, two orderings of the same points sort to the same list. |
| OrderBy.SortedArrangementUnique | Easynvest.SimulatorCalc/Easynvest.SimulatorCalc.Application/Handlers/SimulateInvestmentHandler.cs:52 | A strictly increasing arrangement of a set of points is the only sorted arrangement of those points. This is the order-free reference the sort is compared against. |

## Left out

- The calendar repository, the ETTJ repository, the interpolation calculator and the investment simulator are not part of this model. They are uninterpreted functions. Their exceptions, and any null they might return, are not modelled.
- The exponential interpolation and the compounding and tax arithmetic live in the calculator and the simulator, which are not part of this model. They work on floating-point values. Rates and amounts are opaque here.
- The handler does not guard against two anchors with equal business days. Whatever the calculator does with such a set is the calculator's concern and is not modelled.
- MediatR request dispatch and constructor dependency injection are framework plumbing. Injection is the construction of the `SimulateInvestmentHandler` value.
- Fields of the curve other than its points, and fields of the command that the handler does not read, are not modelled.
- Business-day counts are unbounded integers. The C# `int` range is not modelled, because the handler performs no arithmetic on these counts.
