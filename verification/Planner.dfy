/** Turning an approved signal into a plan sized for the worst fill it may get
    (src/execution/planner.py). */
module Planner {
  import opened Basics
  import opened Products
  import opened LotSizing

  datatype Signal = Signal(
    id: string, symbol: string, side: Side, entryPrice: real, stopLoss: real, tp2: real)

  datatype PlanConfig = PlanConfig(
    spreadRiskMultiplier: real, maxSlippagePctOfStop: real, symbolMultiplier: real,
    maxLot: real, minLot: real, tp1TriggerPct: real, tp1Percentage: real)

  predicate ValidPlanConfig(cfg: PlanConfig) {
    && cfg.spreadRiskMultiplier >= 0.0 && cfg.maxSlippagePctOfStop >= 0.0 && cfg.symbolMultiplier >= 0.0
    && 0.0 <= cfg.tp1Percentage <= 100.0 && 0.0 <= cfg.tp1TriggerPct <= 100.0
  }

  datatype TradePlan = TradePlan(
    signalId: string, symbol: string, side: Side, entryPrice: real, stopLoss: real,
    tp1: real, tp2: real, lotSize: real, riskAmount: real, tp1Lots: real, riskMultiplier: real)

  function Spread(si: SymbolInfo): real {
    if si.ask != 0.0 && si.bid != 0.0 then si.ask - si.bid else 0.0
  }

  function Surcharge(si: SymbolInfo, cfg: PlanConfig): real {
    Times(Spread(si), cfg.spreadRiskMultiplier)
  }

  /** The worst entry the slippage limit lets through. */
  function PessimisticEntry(sig: Signal, cfg: PlanConfig): real {
    var slip := Times(cfg.maxSlippagePctOfStop, Abs(sig.entryPrice - sig.stopLoss));
    match sig.side case Sell => sig.entryPrice - slip case Buy => sig.entryPrice + slip
  }

  function SizingDistance(sig: Signal, si: SymbolInfo, cfg: PlanConfig): real {
    Abs(PessimisticEntry(sig, cfg) - sig.stopLoss) + Surcharge(si, cfg)
  }

  function SizingStop(sig: Signal, si: SymbolInfo, cfg: PlanConfig): real {
    match sig.side
    case Buy => sig.entryPrice - SizingDistance(sig, si, cfg)
    case Sell => sig.entryPrice + SizingDistance(sig, si, cfg)
  }

  function ClampedMultiplier(m: real): real {
    Max(0.0, Min(1.0, m))
  }

  function RiskAmount(base: real, riskMultiplier: real, cfg: PlanConfig, tierCap: real): real {
    Min(Times(Times(base, ClampedMultiplier(riskMultiplier)), cfg.symbolMultiplier), tierCap)
  }

  function Tp1Level(sig: Signal, cfg: PlanConfig): real {
    var offset := Times(cfg.tp1TriggerPct / 100.0, Abs(sig.tp2 - sig.entryPrice));
    match sig.side case Buy => sig.entryPrice + offset case Sell => sig.entryPrice - offset
  }

  function Tp1Lots(lots: real, step: real, cfg: PlanConfig): real
    requires step > 0.0
  {
    if cfg.tp1Percentage > 0.0 && 0.0 < cfg.tp1TriggerPct < 100.0 then
      var raw := Steps(Times(lots, cfg.tp1Percentage / 100.0), step);
      if raw < step then 0.0 else if raw >= lots then Steps(lots - step, step) else raw
    else 0.0
  }

  /** `base` and `tierCap` come from the day's latched equity; `fromBroker` is the broker's own cost
      of one lot over the sizing distance, when it answers. */
  function Plan(
    sig: Signal, si: SymbolInfo, cfg: PlanConfig, base: real, tierCap: real, riskMultiplier: real, fromBroker: Option<real>): TradePlan
    requires si.point > 0.0 && si.lotStep > 0.0
  {
    var riskAmount := RiskAmount(base, riskMultiplier, cfg, tierCap);
    var sized := CalculateLotSize(riskAmount, sig.entryPrice, SizingStop(sig, si, cfg), si, cfg.maxLot, cfg.minLot, fromBroker);
    TradePlan(sig.id, si.symbol, sig.side, sig.entryPrice, sig.stopLoss,
              Tp1Level(sig, cfg), sig.tp2, sized.lotSize, sized.riskAmount,
              Tp1Lots(sized.lotSize, si.lotStep, cfg), ClampedMultiplier(riskMultiplier))
  }

  // ---------- What the plan guarantees ----------

  /** What a stopped-out position loses per unit: negative when the stop lies on the winning side. */
  function StopDistance(side: Side, fill: real, stop: real): real {
    Gain(side, stop, fill)
  }

  /** The fill is no worse than the slippage limit allows; better is always allowed. */
  predicate WithinSlippage(side: Side, entry: real, stop: real, fill: real, maxPct: real) {
    match side
    case Buy => fill - entry <= Times(maxPct, Abs(entry - stop))
    case Sell => entry - fill <= Times(maxPct, Abs(entry - stop))
  }

  /** Sizing looks at a stop at least as far as any accepted fill can get from the plan's stop. */
  lemma AcceptedFillsAreCovered(sig: Signal, si: SymbolInfo, cfg: PlanConfig, fill: real)
    requires WithinSlippage(sig.side, sig.entryPrice, sig.stopLoss, fill, cfg.maxSlippagePctOfStop)
    ensures StopDistance(sig.side, fill, sig.stopLoss) + Surcharge(si, cfg) <= SizingDistance(sig, si, cfg)
  {
  }

  // Shifting every level with the fill keeps the plan's own stop distance, which is also covered.
  lemma ShiftedLevelsAreCovered(sig: Signal, si: SymbolInfo, cfg: PlanConfig, fill: real)
    requires ValidPlanConfig(cfg)
    ensures StopDistance(sig.side, fill, sig.stopLoss + (fill - sig.entryPrice)) + Surcharge(si, cfg) <= SizingDistance(sig, si, cfg)
  {
    TimesMonotone(0.0, cfg.maxSlippagePctOfStop, Abs(sig.entryPrice - sig.stopLoss));
  }

  lemma RiskAmountWithinBase(base: real, riskMultiplier: real, cfg: PlanConfig, tierCap: real)
    requires base >= 0.0 && 0.0 <= cfg.symbolMultiplier <= 1.0
    ensures RiskAmount(base, riskMultiplier, cfg, tierCap) <= base && RiskAmount(base, riskMultiplier, cfg, tierCap) <= tierCap
  {
    var c := ClampedMultiplier(riskMultiplier);
    TimesMonotone(0.0, c, base);
    TimesMonotone(c, 1.0, base);
    TimesUnit(base);
    TimesMonotone(cfg.symbolMultiplier, 1.0, Times(base, c));
    TimesUnit(Times(base, c));
  }

  /** The multipliers reach the sizing: the risk amount is the base amount times the decided and the
      symbol's multiplier, exactly as long as that stays within the ceiling, which caps it otherwise. */
  lemma PlannedRiskIff(
    sig: Signal, si: SymbolInfo, cfg: PlanConfig, base: real, tierCap: real, riskMultiplier: real, fromBroker: Option<real>)
    requires si.point > 0.0 && si.lotStep > 0.0
    ensures var share := if riskMultiplier < 0.0 then 0.0 else if riskMultiplier > 1.0 then 1.0 else riskMultiplier;
            var full, plan := Times(Times(base, share), cfg.symbolMultiplier), Plan(sig, si, cfg, base, tierCap, riskMultiplier, fromBroker);
            && plan.riskAmount <= full && plan.riskAmount <= tierCap && plan.riskMultiplier == share
            && (plan.riskAmount == full <==> full <= tierCap) && (plan.riskAmount != full ==> plan.riskAmount == tierCap)
  {
  }

  /** Sizing looks at a stop that lies beyond the planned one by the slippage allowed on its distance and
      by the share of a known spread that the surcharge counts. */
  lemma SizingDistanceIs(sig: Signal, si: SymbolInfo, cfg: PlanConfig)
    requires cfg.maxSlippagePctOfStop >= 0.0 && StopDistance(sig.side, sig.entryPrice, sig.stopLoss) > 0.0
    ensures var distance := StopDistance(sig.side, sig.entryPrice, sig.stopLoss);
            var spread := if si.ask == 0.0 || si.bid == 0.0 then 0.0 else si.ask - si.bid;
            && SizingDistance(sig, si, cfg) ==
               distance + Times(cfg.maxSlippagePctOfStop, distance) + Times(spread, cfg.spreadRiskMultiplier)
            && Gain(sig.side, SizingStop(sig, si, cfg), sig.entryPrice) == SizingDistance(sig, si, cfg)
  {
    var distance := StopDistance(sig.side, sig.entryPrice, sig.stopLoss);
    TimesMonotone(0.0, cfg.maxSlippagePctOfStop, distance);
    TimesUnit(distance);
  }

  /** The planned lots are the largest whole number of steps that the risk amount pays for, kept between
      the configured and the broker's bounds. */
  lemma PlannedLotsUseTheRisk(
    sig: Signal, si: SymbolInfo, cfg: PlanConfig, base: real, tierCap: real, riskMultiplier: real, fromBroker: Option<real>,
    valuePerPrice: real) returns (n: int)
    requires ValidSymbol(si) && PricedLinearly(sig, si, cfg, fromBroker, valuePerPrice)
    ensures var plan, perStep := Plan(sig, si, cfg, base, tierCap, riskMultiplier, fromBroker),
                                 Times(si.lotStep, Times(SizingDistance(sig, si, cfg), valuePerPrice));
            var lots, most := Times(n as real, si.lotStep), if cfg.maxLot < si.lotMax then cfg.maxLot else si.lotMax;
            && Times(n as real, perStep) <= plan.riskAmount < Times(n as real + 1.0, perStep)
            && plan.lotSize == if lots < cfg.minLot || most < cfg.minLot then cfg.minLot else if lots > most then most else lots
  {
    var loss, risk := Times(SizingDistance(sig, si, cfg), valuePerPrice), RiskAmount(base, riskMultiplier, cfg, tierCap);
    TimesPositive(SizingDistance(sig, si, cfg), valuePerPrice);
    n := NormalisedLotsAreWhole(risk / loss, si.lotStep, cfg.minLot, Min(cfg.maxLot, si.lotMax));
    QuotientOrder(risk, loss, Times(n as real, si.lotStep));
    QuotientOrder(risk, loss, Times(n as real + 1.0, si.lotStep));
    TimesAssociates(n as real, si.lotStep, loss);
    TimesAssociates(n as real + 1.0, si.lotStep, loss);
  }

  /** The instrument's value of one price unit per lot, as whichever source sized the plan sees it. */
  predicate PricedLinearly(sig: Signal, si: SymbolInfo, cfg: PlanConfig, fromBroker: Option<real>, valuePerPrice: real)
    requires si.point > 0.0
  {
    && valuePerPrice > 0.0
    && SizingDistance(sig, si, cfg) > 0.0
    && LossPerLot(sig.entryPrice, SizingStop(sig, si, cfg), si, fromBroker) == Some(Times(SizingDistance(sig, si, cfg), valuePerPrice))
  }

  function RawLots(sig: Signal, si: SymbolInfo, cfg: PlanConfig, base: real, tierCap: real, riskMultiplier: real, valuePerPrice: real): real
    requires Times(SizingDistance(sig, si, cfg), valuePerPrice) != 0.0
  {
    RiskAmount(base, riskMultiplier, cfg, tierCap) / Times(SizingDistance(sig, si, cfg), valuePerPrice)
  }

  function WorstLoss(lots: real, distance: real, valuePerPrice: real): real {
    Times(lots, Times(distance, valuePerPrice))
  }

  /** Pessimistic sizing: whatever part of the plan is filled, at whatever accepted price, being
      stopped out costs no more than the risk amount, which is no more than the base amount. */
  lemma PlanStaysWithinRisk(
    sig: Signal, si: SymbolInfo, cfg: PlanConfig, base: real, tierCap: real, riskMultiplier: real,
    fromBroker: Option<real>, valuePerPrice: real, distance: real, filled: real)
    requires ValidSymbol(si) && ValidPlanConfig(cfg) && PricedLinearly(sig, si, cfg, fromBroker, valuePerPrice)
    requires RawLots(sig, si, cfg, base, tierCap, riskMultiplier, valuePerPrice) >= cfg.minLot
    requires distance <= SizingDistance(sig, si, cfg)
    requires 0.0 <= filled <= Plan(sig, si, cfg, base, tierCap, riskMultiplier, fromBroker).lotSize
    ensures WorstLoss(filled, distance, valuePerPrice) <= RiskAmount(base, riskMultiplier, cfg, tierCap)
  {
    var full := Times(SizingDistance(sig, si, cfg), valuePerPrice);
    var plan := Plan(sig, si, cfg, base, tierCap, riskMultiplier, fromBroker);
    TimesPositive(SizingDistance(sig, si, cfg), valuePerPrice);
    SizedPositionFitsIff(RiskAmount(base, riskMultiplier, cfg, tierCap), sig.entryPrice, SizingStop(sig, si, cfg), si,
                         cfg.maxLot, cfg.minLot, fromBroker);
    TimesMonotone(distance, SizingDistance(sig, si, cfg), valuePerPrice);
    TimesMonotone(Times(distance, valuePerPrice), full, filled);
    TimesMonotone(filled, plan.lotSize, full);
  }

  /** A TP1 partial close never consumes the whole position. */
  lemma Tp1LotsLeaveARunner(lots: real, step: real, cfg: PlanConfig)
    requires ValidPlanConfig(cfg) && step > 0.0 && lots > 0.0
    ensures 0.0 <= Tp1Lots(lots, step, cfg) < lots
  {
    var share := cfg.tp1Percentage / 100.0;
    TimesMonotone(share, 1.0, lots);
    TimesUnit(lots);
    StepsBelow(Times(lots, share), step);
    StepsBelow(lots - step, step);
  }

  /** TP1 takes the largest whole number of steps within its share of the lots, if that is at least one
      step; if it leaves none over, the largest that leaves a step. */
  lemma Tp1LotsAreTheirShare(lots: real, step: real, cfg: PlanConfig) returns (n: int, m: int)
    requires ValidPlanConfig(cfg) && step > 0.0 && lots > 0.0
    ensures Times(n as real, step) <= Times(lots, cfg.tp1Percentage / 100.0) < Times(n as real + 1.0, step)
    ensures cfg.tp1Percentage > 0.0 && 0.0 < cfg.tp1TriggerPct < 100.0 && step <= Times(n as real, step) < lots ==>
              Tp1Lots(lots, step, cfg) == Times(n as real, step)
    ensures cfg.tp1Percentage == 0.0 || Times(n as real, step) < step || cfg.tp1TriggerPct == 0.0 || cfg.tp1TriggerPct == 100.0 ==>
              Tp1Lots(lots, step, cfg) == 0.0
    ensures Times(m as real, step) <= lots - step < Times(m as real + 1.0, step)
    ensures cfg.tp1Percentage > 0.0 && 0.0 < cfg.tp1TriggerPct < 100.0 && Times(n as real, step) >= lots && Times(n as real, step) >= step ==>
              Tp1Lots(lots, step, cfg) == Times(m as real, step)
  {
    n := StepsAreWhole(Times(lots, cfg.tp1Percentage / 100.0), step);
    m := StepsAreWhole(lots - step, step);
  }

  /** TP1 lies at its share of the way from the entry to TP2. */
  lemma Tp1LiesAtItsShare(sig: Signal, cfg: PlanConfig)
    requires Gain(sig.side, sig.entryPrice, sig.tp2) >= 0.0
    ensures Times(100.0, Gain(sig.side, sig.entryPrice, Tp1Level(sig, cfg))) == Times(cfg.tp1TriggerPct, Gain(sig.side, sig.entryPrice, sig.tp2))
  {
    var range := Gain(sig.side, sig.entryPrice, sig.tp2);
    TimesAssociates(100.0, cfg.tp1TriggerPct / 100.0, range);
    assert Times(100.0, cfg.tp1TriggerPct / 100.0) == cfg.tp1TriggerPct;
  }

  /** TP1 lies strictly between entry and TP2 exactly when its trigger is a proper fraction and TP2
      is on the winning side. */
  lemma Tp1IsBetweenIff(sig: Signal, cfg: PlanConfig)
    requires ValidPlanConfig(cfg)
    ensures (match sig.side
             case Buy => sig.entryPrice < Tp1Level(sig, cfg) < sig.tp2
             case Sell => sig.tp2 < Tp1Level(sig, cfg) < sig.entryPrice)
       <==> 0.0 < cfg.tp1TriggerPct < 100.0 && StopDistance(sig.side, sig.tp2, sig.entryPrice) > 0.0
  {
    var f, range := cfg.tp1TriggerPct / 100.0, Abs(sig.tp2 - sig.entryPrice);
    TimesUnit(range);
    TimesUnit(f);
    if 0.0 < f < 1.0 && range > 0.0 {
      TimesPositive(f, range);
      TimesStrict(f, 1.0, range);
    }
    TimesMonotone(0.0, f, range);
    TimesMonotone(f, 1.0, range);
  }

  /** Stop, entry, TP1 and TP2 lie in this order in the direction of the trade. */
  predicate LevelsInOrder(p: TradePlan) {
    && Gain(p.side, p.stopLoss, p.entryPrice) > 0.0
    && Gain(p.side, p.entryPrice, p.tp1) > 0.0 && Gain(p.side, p.tp1, p.tp2) > 0.0
  }

  /** The levels of a plan are in order exactly when the signal's own are and TP1 has a proper trigger;
      and the volume set aside for TP1 always leaves a position to run. */
  lemma PlannedLevelsAreInOrderIff(
    sig: Signal, si: SymbolInfo, cfg: PlanConfig, base: real, tierCap: real, riskMultiplier: real, fromBroker: Option<real>)
    requires ValidSymbol(si) && ValidPlanConfig(cfg) && cfg.minLot > 0.0
    ensures var plan := Plan(sig, si, cfg, base, tierCap, riskMultiplier, fromBroker);
            && (LevelsInOrder(plan) <==>
                Gain(sig.side, sig.stopLoss, sig.entryPrice) > 0.0 && Gain(sig.side, sig.entryPrice, sig.tp2) > 0.0
                && 0.0 < cfg.tp1TriggerPct < 100.0)
            && 0.0 <= plan.tp1Lots < plan.lotSize
            && plan.signalId == sig.id && plan.side == sig.side && plan.entryPrice == sig.entryPrice
            && plan.stopLoss == sig.stopLoss && plan.tp2 == sig.tp2
  {
    var plan := Plan(sig, si, cfg, base, tierCap, riskMultiplier, fromBroker);
    Tp1IsBetweenIff(sig, cfg);
    Tp1LotsLeaveARunner(plan.lotSize, si.lotStep, cfg);
  }
}
