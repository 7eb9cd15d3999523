/**
 * The handler that answers a simulation request. It counts business days up to
 * the maturity date, fetches the benchmark curve for that horizon, and projects
 * a rate from the curve. When the curve has one point, that point's rate is used
 * as it is. Otherwise the two shortest-maturity points go to the exponential
 * interpolation calculator. The handler then runs the investment simulator.
 *
 * The four collaborators arrive by constructor injection. Here they are the
 * function-valued fields of `SimulateInvestmentHandler`, left uninterpreted.
 */
module Handlers {
  import opened Wrappers
  import opened Domain
  import opened OrderBy

  /** The exception the list indexer raises when the sorted curve has no point at `index`. */
  datatype Error = ArgumentOutOfRange(index: nat)

  /** The handler's injected collaborators, each reduced to the one operation the handler calls. */
  datatype SimulateInvestmentHandler<!Num, !Index, !Date, InvestmentResult> = SimulateInvestmentHandler(
    getCountByRange: Date -> CalendarCount,
    getEttjByType: (Index, int) -> Ettj<Num>,
    calculateExponential: InterpolationSet<Num> -> Num,
    simulate: InvestmentParameter<Num> -> InvestmentResult)

  /**
   * A projected rate together with the argument the interpolation calculator was
   * called with, or None when the calculator was not called.
   */
  datatype ProjectedRate<Num> = ProjectedRate(value: Num, interpolation: Option<InterpolationSet<Num>>)

  /**
   * What `Handle` returns: the simulator's result, and a trace of the values
   * the handler exchanged with its collaborators: the calendar count it received,
   * the curve query it made, the projected rate and the simulator's input.
   */
  datatype Handled<Num, Index, InvestmentResult> = Handled(
    result: InvestmentResult,
    calendarCount: CalendarCount,
    curveQuery: (Index, int),
    projection: ProjectedRate<Num>,
    parameter: InvestmentParameter<Num>)

  /** The curve point an anchor was copied from. */
  function AsEttjRate<Num>(p: InterpolationPoint<Num>): EttjRate<Num> {
    EttjRate(p.businessDays, p.rateValue)
  }

  /**
   * Sorts the curve stably by business days, then takes the first two points as
   * the anchors. Indexing a sorted list that is too short raises an exception.
   */
  function TransformEttjToInterpolationSet<Num>(ettj: Ettj<Num>, targetMaturityDays: int): (r: Result<InterpolationSet<Num>, Error>)
    ensures r.Failure? <==> |ettj.rates| < 2
    ensures r.Failure? ==> r.error == ArgumentOutOfRange(|ettj.rates|)
    ensures r.Success? ==> r.value.targetMaturityDays == targetMaturityDays
    ensures r.Success? ==> r.value.first.businessDays <= r.value.second.businessDays
  {
    var rates := OrderByBusinessDays(ettj.rates);
    if |rates| == 0 then Failure(ArgumentOutOfRange(0))
    else if |rates| == 1 then Failure(ArgumentOutOfRange(1))
    else
      var firstRate := rates[0];
      var secondRate := rates[1];
      var firstInterpolationPoint := InterpolationPoint(firstRate.businessDays, firstRate.rateValue);
      var secondInterpolationPoint := InterpolationPoint(secondRate.businessDays, secondRate.rateValue);
      Success(InterpolationSet(firstInterpolationPoint, secondInterpolationPoint, targetMaturityDays))
  }

  /**
   * A one-point curve gives its rate directly. Any other curve goes through the
   * interpolation set, so an empty curve raises an exception there.
   */
  function GetProjectedRate<Num, Index, Date, InvestmentResult>(
    h: SimulateInvestmentHandler<Num, Index, Date, InvestmentResult>, ettj: Ettj<Num>, businessDays: int
  ): (r: Result<ProjectedRate<Num>, Error>)
    ensures |ettj.rates| == 0 ==> r == Failure(ArgumentOutOfRange(0))
    ensures |ettj.rates| == 1 ==> r == Success(ProjectedRate(ettj.rates[0].rateValue, None))
    ensures |ettj.rates| >= 2 ==>
      && r.Success?
      && r.value.interpolation == Some(TransformEttjToInterpolationSet(ettj, businessDays).value)
      && r.value.interpolation.value.targetMaturityDays == businessDays
      && r.value.value == h.calculateExponential(r.value.interpolation.value)
  {
    if |ettj.rates| == 1 then Success(ProjectedRate(ettj.rates[0].rateValue, None))
    else
      match TransformEttjToInterpolationSet(ettj, businessDays)
      case Failure(e) => Failure(e)
      case Success(interpolationSet) =>
        Success(ProjectedRate(h.calculateExponential(interpolationSet), Some(interpolationSet)))
  }

  /**
   * Serves one simulation request. It fails exactly when the curve is empty.
   * Otherwise the simulator receives the invested amount, contract rate and
   * tax flag unchanged, the projected rate and the calendar count, and its
   * result is returned as it is. The curve lookup and the interpolation target
   * both use the calendar's business-day count.
   */
  function Handle<Num, Index, Date, InvestmentResult>(
    h: SimulateInvestmentHandler<Num, Index, Date, InvestmentResult>,
    command: SimulateInvestmentCommand<Num, Index, Date>
  ): (r: Result<Handled<Num, Index, InvestmentResult>, Error>)
    ensures
      var calendarCount := h.getCountByRange(command.maturityDate);
      var ettj := h.getEttjByType(command.index, calendarCount.businessDays);
      && (r.Success? <==> |ettj.rates| > 0)
      && (r.Failure? ==> r.error == ArgumentOutOfRange(0))
      && (r.Success? ==>
            && r.value.calendarCount == calendarCount
            && r.value.curveQuery == (command.index, calendarCount.businessDays)
            && r.value.projection == GetProjectedRate(h, ettj, calendarCount.businessDays).value
            && r.value.parameter == InvestmentParameter(
                 command.investedAmount, r.value.projection.value, calendarCount, command.rate, command.isTaxFree)
            && r.value.result == h.simulate(r.value.parameter)
            && (r.value.projection.interpolation.Some? ==>
                  r.value.projection.interpolation.value.targetMaturityDays == calendarCount.businessDays))
  {
    var calendarCount := h.getCountByRange(command.maturityDate);
    var ettj := h.getEttjByType(command.index, calendarCount.businessDays);
    match GetProjectedRate(h, ettj, calendarCount.businessDays)
    case Failure(e) => Failure(e)
    case Success(projectedRate) =>
      var investmentParameter := InvestmentParameter(
        command.investedAmount, projectedRate.value, calendarCount, command.rate, command.isTaxFree);
      Success(Handled(
        h.simulate(investmentParameter), calendarCount, (command.index, calendarCount.businessDays),
        projectedRate, investmentParameter))
  }

  /**
   * The anchors are the two shortest-maturity points of the curve, copied
   * unchanged. Both are points of the curve, and they are two distinct
   * occurrences. No point is shorter than the first anchor. Once both anchors
   * are set aside, no point is shorter than the second. The target does not
   * influence the choice.
   */
  lemma AnchorsAreTwoShortest<Num>(ettj: Ettj<Num>, targetMaturityDays: int)
    requires |ettj.rates| >= 2
    ensures TransformEttjToInterpolationSet(ettj, targetMaturityDays).Success?
    ensures
      var s := TransformEttjToInterpolationSet(ettj, targetMaturityDays).value;
      var first, second := AsEttjRate(s.first), AsEttjRate(s.second);
      && multiset{first, second} <= multiset(ettj.rates)
      && (forall p | p in ettj.rates :: first.businessDays <= p.businessDays)
      && (forall p | p in multiset(ettj.rates) - multiset{first, second} :: second.businessDays <= p.businessDays)
      && (forall t :: TransformEttjToInterpolationSet(ettj, t).value.first == s.first
                   && TransformEttjToInterpolationSet(ettj, t).value.second == s.second)
  {
    var r := OrderByBusinessDays(ettj.rates);
    var s := TransformEttjToInterpolationSet(ettj, targetMaturityDays).value;
    assert AsEttjRate(s.first) == r[0] && AsEttjRate(s.second) == r[1];
    assert r == [r[0], r[1]] + r[2..];
    assert multiset(ettj.rates) == multiset{r[0], r[1]} + multiset(r[2..]);
    forall p | p in ettj.rates ensures r[0].businessDays <= p.businessDays {
      assert p in multiset(r);
    }
    forall p | p in multiset(ettj.rates) - multiset{r[0], r[1]} ensures r[1].businessDays <= p.businessDays {
      assert p in r[2..];
    }
  }

  /**
   * Stability of the sort seen at the anchors. When several points share the
   * shortest maturity, the first anchor is the earliest of them in curve order.
   * When the second anchor has that maturity too, it is the next of them.
   * When the second anchor has a longer maturity, it is the earliest, in curve
   * order, of the points at that maturity.
   */
  lemma AnchorsKeepCurveOrder<Num>(ettj: Ettj<Num>, targetMaturityDays: int)
    requires |ettj.rates| >= 2
    ensures TransformEttjToInterpolationSet(ettj, targetMaturityDays).Success?
    ensures
      var s := TransformEttjToInterpolationSet(ettj, targetMaturityDays).value;
      var ties := PointsAt(ettj.rates, s.first.businessDays);
      && |ties| >= 1 && ties[0] == AsEttjRate(s.first)
      && (s.second.businessDays == s.first.businessDays ==> |ties| >= 2 && ties[1] == AsEttjRate(s.second))
      && (s.second.businessDays != s.first.businessDays ==>
            var secondTies := PointsAt(ettj.rates, s.second.businessDays);
            |secondTies| >= 1 && secondTies[0] == AsEttjRate(s.second))
  {
    var r := OrderByBusinessDays(ettj.rates);
    var s := TransformEttjToInterpolationSet(ettj, targetMaturityDays).value;
    assert AsEttjRate(s.first) == r[0] && AsEttjRate(s.second) == r[1];
    OrderByStable(ettj.rates, r[0].businessDays);
    PointsAtShortest(r);
    if r[1].businessDays != r[0].businessDays {
      OrderByStable(ettj.rates, r[1].businessDays);
      PointsAtSecond(r);
    }
  }


  /**
   * When the business-day counts of a curve are distinct, reordering its points
   * leaves the interpolation set unchanged.
   */
  lemma AnchorsIndependentOfCurveOrder<Num>(a: Ettj<Num>, b: Ettj<Num>, targetMaturityDays: int)
    requires DistinctBusinessDays(a.rates)
    requires multiset(a.rates) == multiset(b.rates)
    ensures TransformEttjToInterpolationSet(a, targetMaturityDays) == TransformEttjToInterpolationSet(b, targetMaturityDays)
  {
    OrderByOrderIndependent(a.rates, b.rates);
  }

  /**
   * The anchors need not bracket the target. For a curve at 21, 42 and 63
   * business days, listed out of order, the target 50 gets the anchors 21 and 42.
   * Both anchors lie below the target, although 42 and 63 would frame it.
   */
  lemma AnchorsNeedNotBracketTarget<Num>(r21: Num, r42: Num, r63: Num)
    ensures
      var s := TransformEttjToInterpolationSet(Ettj([EttjRate(63, r63), EttjRate(21, r21), EttjRate(42, r42)]), 50);
      && s == Success(InterpolationSet(InterpolationPoint(21, r21), InterpolationPoint(42, r42), 50))
      && s.value.second.businessDays < s.value.targetMaturityDays
  {
  }

  /**
   * With a one-point curve the simulator gets that point's rate unchanged, and
   * the interpolation calculator is never called.
   */
  lemma HandleSinglePointCurve<Num, Index, Date, InvestmentResult>(
    h: SimulateInvestmentHandler<Num, Index, Date, InvestmentResult>,
    command: SimulateInvestmentCommand<Num, Index, Date>
  )
    requires |h.getEttjByType(command.index, h.getCountByRange(command.maturityDate).businessDays).rates| == 1
    ensures
      var ettj := h.getEttjByType(command.index, h.getCountByRange(command.maturityDate).businessDays);
      var r := Handle(h, command);
      && r.Success?
      && r.value.projection.interpolation == None
      && r.value.parameter.projectedRate == ettj.rates[0].rateValue
  {
  }

  /**
   * With a curve of two or more points, the projected rate is what the
   * interpolation calculator returns. Its anchors are the two shortest points of
   * the curve, and its target is the calendar's business-day count.
   */
  lemma HandleInterpolatesFromTwoShortest<Num, Index, Date, InvestmentResult>(
    h: SimulateInvestmentHandler<Num, Index, Date, InvestmentResult>,
    command: SimulateInvestmentCommand<Num, Index, Date>
  )
    requires |h.getEttjByType(command.index, h.getCountByRange(command.maturityDate).businessDays).rates| >= 2
    ensures
      var businessDays := h.getCountByRange(command.maturityDate).businessDays;
      var ettj := h.getEttjByType(command.index, businessDays);
      var r := Handle(h, command);
      && r.Success?
      && r.value.projection.interpolation.Some?
      && var s := r.value.projection.interpolation.value;
      && r.value.parameter.projectedRate == h.calculateExponential(s)
      && s.targetMaturityDays == businessDays
      && multiset{AsEttjRate(s.first), AsEttjRate(s.second)} <= multiset(ettj.rates)
      && (forall p | p in ettj.rates :: s.first.businessDays <= p.businessDays)
      && (forall p | p in multiset(ettj.rates) - multiset{AsEttjRate(s.first), AsEttjRate(s.second)} ::
            s.second.businessDays <= p.businessDays)
  {
    var businessDays := h.getCountByRange(command.maturityDate).businessDays;
    AnchorsAreTwoShortest(h.getEttjByType(command.index, businessDays), businessDays);
  }
}
