/** Lot arithmetic (src/utils/price.py, src/utils/lot_calculator.py). Lot steps and bounds are
    multiples of 0.01, so rounding to two decimals is the identity. */
module LotSizing {
  import opened Basics
  import opened Products

  datatype SymbolInfo = SymbolInfo(
    symbol: string, digits: int, point: real, tickSize: real, tickValue: real,
    lotMin: real, lotMax: real, lotStep: real,
    ask: real, bid: real, stopsLevel: nat, freezeLevel: nat)

  /** What the broker's symbol metadata always satisfies. */
  predicate ValidSymbol(si: SymbolInfo) {
    si.point > 0.0 && si.lotStep > 0.0 && 0.0 < si.lotMin <= si.lotMax
  }

  datatype LotCalc = LotCalc(lotSize: real, riskAmount: real, riskPips: real)

  function PipSize(point: real, digits: int): real {
    if digits == 5 || digits == 3 then point * 10.0 else point
  }

  function Steps(lots: real, step: real): real
    requires step > 0.0
  {
    Times((lots / step).Floor as real, step)
  }

  function NormaliseLots(lots: real, lotStep: real, lotMin: real, lotMax: real): real
    requires lotStep > 0.0
  {
    Max(lotMin, Min(Steps(lots, lotStep), lotMax))
  }

  lemma StepsBelow(lots: real, step: real)
    requires step > 0.0
    ensures lots - step < Steps(lots, step) <= lots
    ensures lots >= 0.0 ==> Steps(lots, step) >= 0.0
  {
    var q := lots / step;
    var n := q.Floor as real;
    TimesQuotient(lots, step);
    TimesMonotone(n, q, step);
    TimesStrict(q, n + 1.0, step);
    TimesDistributes(n, 1.0, step);
    TimesUnit(step);
    if lots >= 0.0 {
      QuotientOrder(lots, step, 0.0);
      TimesMonotone(0.0, n, step);
    }
  }

  /** Steps are whole: the largest multiple of the step that does not exceed the raw size. */
  lemma StepsAreWhole(lots: real, step: real) returns (n: int)
    requires step > 0.0
    ensures Steps(lots, step) == Times(n as real, step) <= lots < Times(n as real + 1.0, step)
  {
    n := (lots / step).Floor;
    StepsBelow(lots, step);
    TimesDistributes(n as real, 1.0, step);
    TimesUnit(step);
  }

  /** Snapped lots are that multiple, kept between the bounds. */
  lemma NormalisedLotsAreWhole(lots: real, lotStep: real, lotMin: real, lotMax: real) returns (n: int)
    requires lotStep > 0.0
    ensures Times(n as real, lotStep) <= lots < Times(n as real + 1.0, lotStep)
    ensures var normal := NormaliseLots(lots, lotStep, lotMin, lotMax);
            normal == if Times(n as real, lotStep) < lotMin || lotMax < lotMin then lotMin
                      else if Times(n as real, lotStep) > lotMax then lotMax else Times(n as real, lotStep)
  {
    n := StepsAreWhole(lots, lotStep);
  }

  /** Snapping never rounds up, except by the clamp to the minimum: exactly when the raw size is
      below it. Between the bounds it loses less than one step. */
  lemma NormalisedLotsFitIff(lots: real, lotStep: real, lotMin: real, lotMax: real)
    requires lotStep > 0.0
    ensures NormaliseLots(lots, lotStep, lotMin, lotMax) <= lots <==> lots >= lotMin
    ensures lotMin <= NormaliseLots(lots, lotStep, lotMin, lotMax)
    ensures lotMin <= lotMax ==> NormaliseLots(lots, lotStep, lotMin, lotMax) <= lotMax
    ensures lotMin <= lots <= lotMax ==> NormaliseLots(lots, lotStep, lotMin, lotMax) > lots - lotStep
  {
    StepsBelow(lots, lotStep);
  }

  /** The loss of one lot over the stop distance that sizing will use, if it can tell. */
  function LossPerLot(entry: real, stop: real, si: SymbolInfo, fromBroker: Option<real>): (loss: Option<real>)
    requires si.point > 0.0
    ensures loss.Some? ==> loss.value != 0.0
  {
    var pip := PipSize(si.point, si.digits);
    var riskPips := Abs(entry - stop) / pip;
    if riskPips == 0.0 then None
    else if fromBroker.Some? && fromBroker.value > 0.0 then fromBroker
    else if si.tickSize == 0.0 then None
    else
      var pipValue := Times(si.tickValue / si.tickSize, pip);
      if pipValue == 0.0 then None
      else
        TimesNonZero(riskPips, pipValue);
        Some(Times(riskPips, pipValue))
  }

  function CalculateLotSize(
    riskAmount: real, entry: real, stop: real, si: SymbolInfo, maxLot: real, minLot: real, fromBroker: Option<real>): LotCalc
    requires si.point > 0.0 && si.lotStep > 0.0
  {
    var riskPips := Abs(entry - stop) / PipSize(si.point, si.digits);
    match LossPerLot(entry, stop, si, fromBroker)
    case None => LotCalc(minLot, riskAmount, riskPips)
    case Some(loss) => LotCalc(NormaliseLots(riskAmount / loss, si.lotStep, minLot, Min(maxLot, si.lotMax)), riskAmount, riskPips)
  }

  /** The tick formula costs a lot linearly in the stop distance, whatever the pip size. */
  lemma TickFormulaIsLinear(entry: real, stop: real, si: SymbolInfo)
    requires si.point > 0.0 && si.tickSize > 0.0 && si.tickValue > 0.0 && entry != stop
    ensures LossPerLot(entry, stop, si, None) == Some(Times(Abs(entry - stop), si.tickValue / si.tickSize))
  {
    var pip, v := PipSize(si.point, si.digits), si.tickValue / si.tickSize;
    var distance := Abs(entry - stop);
    QuotientOrder(si.tickValue, si.tickSize, 0.0);
    QuotientOrder(distance, pip, 0.0);
    TimesUnit(pip);
    TimesUnit(si.tickSize);
    TimesQuotient(distance, pip);
    TimesQuotient(si.tickValue, si.tickSize);
    TimesPositive(v, pip);
    TimesCommutes(v, pip);
    TimesAssociates(distance / pip, pip, v);
  }

  /** The broker's own answer is preferred when it is positive, and the sized position respects the
      configured and the broker's bounds. */
  lemma SizedPositionIsBounded(
    riskAmount: real, entry: real, stop: real, si: SymbolInfo, maxLot: real, minLot: real, fromBroker: Option<real>)
    requires si.point > 0.0 && si.lotStep > 0.0 && minLot <= maxLot && minLot <= si.lotMax
    ensures var sized := CalculateLotSize(riskAmount, entry, stop, si, maxLot, minLot, fromBroker);
            && minLot <= sized.lotSize <= maxLot && sized.lotSize <= si.lotMax && sized.riskAmount == riskAmount
            && (LossPerLot(entry, stop, si, fromBroker).None? ==> sized.lotSize == minLot)
    ensures entry != stop && fromBroker.Some? && fromBroker.value > 0.0 ==> LossPerLot(entry, stop, si, fromBroker) == fromBroker
  {
    QuotientOrder(Abs(entry - stop), PipSize(si.point, si.digits), 0.0);
    TimesUnit(PipSize(si.point, si.digits));
  }

  /** The sized position costs no more than the risk amount exactly when the raw size reaches the
      minimum lot; below it the clamp oversizes. (The maximum only ever reduces.) */
  lemma SizedPositionFitsIff(
    riskAmount: real, entry: real, stop: real, si: SymbolInfo, maxLot: real, minLot: real, fromBroker: Option<real>)
    requires si.point > 0.0 && si.lotStep > 0.0
    requires LossPerLot(entry, stop, si, fromBroker).Some? && LossPerLot(entry, stop, si, fromBroker).value > 0.0
    ensures var loss := LossPerLot(entry, stop, si, fromBroker).value;
            var lots := CalculateLotSize(riskAmount, entry, stop, si, maxLot, minLot, fromBroker).lotSize;
            Times(lots, loss) <= riskAmount <==> riskAmount / loss >= minLot
  {
    var loss := LossPerLot(entry, stop, si, fromBroker).value;
    var lots := CalculateLotSize(riskAmount, entry, stop, si, maxLot, minLot, fromBroker).lotSize;
    NormalisedLotsFitIff(riskAmount / loss, si.lotStep, minLot, Min(maxLot, si.lotMax));
    QuotientOrder(riskAmount, loss, lots);
  }

  /** A quote's extra digit does not change the pip, and the reported risk is the stop distance in pips. */
  lemma PipIgnoresTheExtraDigit(
    riskAmount: real, entry: real, stop: real, si: SymbolInfo, maxLot: real, minLot: real, fromBroker: Option<real>)
    requires si.point > 0.0 && si.lotStep > 0.0
    ensures PipSize(si.point / 10.0, 5) == PipSize(si.point, 4) == si.point
    ensures PipSize(si.point / 10.0, 3) == PipSize(si.point, 2) == si.point
    ensures Times(CalculateLotSize(riskAmount, entry, stop, si, maxLot, minLot, fromBroker).riskPips, PipSize(si.point, si.digits))
         == Abs(entry - stop)
  {
    TimesQuotient(Abs(entry - stop), PipSize(si.point, si.digits));
  }
}
