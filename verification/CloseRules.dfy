/** How the position manager judges prices: the realised R of a close, why a position disappeared, and
    where a breakeven stop may go (src/positions/manager.py). Prices are exact. */
module CloseRules {
  import opened Basics
  import opened Products
  import opened TradeContribution

  datatype CloseReason = Tp2Reached | StopHit | Manual | Unknown | ClosedWhileDown

  // ---------- Realised R ----------

  /** The plan's stop lies on the losing side of a real entry price. */
  predicate HasRisk(side: Side, entry: real, planStop: real) {
    entry != 0.0 && Gain(side, planStop, entry) > 0.0
  }

  /** R measures the distance travelled in units of the original stop distance, signed by side; it is
      zero for trades without an original risk, wherever they close. */
  lemma RrMeasuresDistance(side: Side, entry: real, planStop: real, close: real)
    ensures HasRisk(side, entry, planStop) ==>
      Times(RealizedRr(side, Some(entry), planStop, close), Abs(entry - planStop)) == Gain(side, entry, close)
    ensures !HasRisk(side, entry, planStop) ==> RealizedRr(side, Some(entry), planStop, close) == 0.0
  {
    if HasRisk(side, entry, planStop) {
      TimesQuotient(Gain(side, entry, close), Abs(entry - planStop));
    }
  }

  /** A stop-out at the planned stop costs exactly one R; a close further out costs more. */
  lemma StopOutCostsOneR(side: Side, entry: real, planStop: real, close: real)
    requires HasRisk(side, entry, planStop)
    ensures RealizedRr(side, Some(entry), planStop, planStop) == -1.0
    ensures RealizedRr(side, Some(entry), planStop, close) < -1.0 <==> Gain(side, planStop, close) < 0.0
  {
    var risk := Abs(entry - planStop);
    RrMeasuresDistance(side, entry, planStop, planStop);
    TimesUnit(risk);
    assert Times(-1.0, risk) == -risk;
    TimesCancels(RealizedRr(side, Some(entry), planStop, planStop), -1.0, risk);
    QuotientOrder(Gain(side, entry, close), risk, -1.0);
  }

  // ---------- Why a position disappeared ----------

  datatype DealReason = ByStop | ByTarget | Other

  datatype Deal = Deal(price: real, reason: DealReason)

  datatype Closing = Closing(reason: CloseReason, price: Option<real>, rr: Option<real>)

  predicate ReachedTarget(side: Side, price: real, tp2: real) {
    match side case Buy => price >= tp2 case Sell => price <= tp2
  }

  predicate ReachedStop(side: Side, price: real, stop: real) {
    match side case Buy => price <= stop case Sell => price >= stop
  }

  /** The price a close is judged by: the deal's when the broker names stop or target, else the last
      polled price, else the deal's. */
  function JudgedPrice(lastPrice: Option<real>, deal: Option<Deal>): Option<real> {
    if deal.Some? && (deal.value.reason.ByStop? || deal.value.reason.ByTarget? || lastPrice.None?)
    then Some(deal.value.price) else lastPrice
  }

  function Classify(side: Side, stop: real, tp2: real, lastPrice: Option<real>, deal: Option<Deal>): CloseReason {
    if deal.Some? && !deal.value.reason.Other? then if deal.value.reason.ByTarget? then Tp2Reached else StopHit
    else
      var price := JudgedPrice(lastPrice, deal);
      if price.None? || tp2 == 0.0 then Unknown
      else if ReachedTarget(side, price.value, tp2) then Tp2Reached
      else if ReachedStop(side, price.value, stop) then StopHit
      else Manual
  }

  // A recorded price of zero counts as missing, and the target, then the entry, stands in for it.
  function ClosePrice(price: Option<real>, tp2: real, entry: real): Option<real> {
    match price
    case None => None
    case Some(p) => Some(if p != 0.0 then p else if tp2 != 0.0 then tp2 else entry)
  }

  function CloseOf(
    side: Side, entry: real, planStop: real, stop: real, tp2: real, lastPrice: Option<real>, deal: Option<Deal>): Closing
  {
    var price := ClosePrice(JudgedPrice(lastPrice, deal), tp2, entry);
    Closing(Classify(side, stop, tp2, lastPrice, deal), price,
            match price case None => None case Some(p) => Some(RealizedRr(side, Some(entry), planStop, p)))
  }

  /** Without a broker reason and without any price the close is unknown and carries neither price nor
      R; a price is never invented for it. */
  lemma NothingIsInvented(
    side: Side, entry: real, planStop: real, stop: real, tp2: real, lastPrice: Option<real>, deal: Option<Deal>)
    ensures var c := CloseOf(side, entry, planStop, stop, tp2, lastPrice, deal);
            && (c.rr.None? <==> lastPrice.None? && deal.None?)
            && (c.price.None? <==> c.rr.None?)
            && (c.rr.None? ==> c.reason == Unknown)
  {
  }

  /** The broker's own reason always wins; without one, target and stop are told from the judged price,
      the target first, and anything between them is manual. */
  lemma ReasonIsDetermined(side: Side, stop: real, tp2: real, lastPrice: Option<real>, deal: Option<Deal>)
    ensures var reason, price := Classify(side, stop, tp2, lastPrice, deal), JudgedPrice(lastPrice, deal);
            if deal.Some? && !deal.value.reason.Other? then
              (reason == StopHit <==> deal.value.reason.ByStop?) && (reason == Tp2Reached <==> deal.value.reason.ByTarget?)
            else
              && (reason == Unknown <==> price.None? || tp2 == 0.0)
              && (reason == Tp2Reached <==> price.Some? && tp2 != 0.0 && Gain(side, tp2, price.value) >= 0.0)
              && (reason == StopHit <==>
                  price.Some? && tp2 != 0.0 && Gain(side, tp2, price.value) < 0.0 && Gain(side, stop, price.value) <= 0.0)
  {
  }

  /** A stop or target deal settles the close, whatever was polled: its price, the distance to it in R,
      and its reason are recorded. */
  lemma BrokerDealDecides(side: Side, entry: real, planStop: real, stop: real, tp2: real, lastPrice: Option<real>, deal: Deal)
    requires HasRisk(side, entry, planStop) && !deal.reason.Other? && deal.price != 0.0
    ensures var c := CloseOf(side, entry, planStop, stop, tp2, lastPrice, Some(deal));
            && c.price == Some(deal.price) && c.rr.Some?
            && Times(c.rr.value, Abs(entry - planStop)) == Gain(side, entry, deal.price)
            && c.reason == (if deal.reason.ByStop? then StopHit else Tp2Reached)
            && (deal.price == planStop ==> c.rr == Some(-1.0))
  {
    RrMeasuresDistance(side, entry, planStop, deal.price);
    StopOutCostsOneR(side, entry, planStop, deal.price);
  }

  /** With no deal or any other one, the polled price settles it when there is one, else the deal's, else
      nothing is recorded. */
  lemma PolledPriceDecides(side: Side, entry: real, planStop: real, stop: real, tp2: real, lastPrice: Option<real>, deal: Option<Deal>)
    requires HasRisk(side, entry, planStop) && (deal.None? || deal.value.reason.Other?)
    requires lastPrice != Some(0.0) && (deal.Some? ==> deal.value.price != 0.0)
    ensures var c := CloseOf(side, entry, planStop, stop, tp2, lastPrice, deal);
            var price := if lastPrice.Some? then lastPrice else if deal.Some? then Some(deal.value.price) else None;
            && c.price == price && (c.rr.Some? <==> price.Some?)
            && (price.Some? ==> Times(c.rr.value, Abs(entry - planStop)) == Gain(side, entry, price.value))
            && (c.reason == Unknown <==> price.None? || tp2 == 0.0)
            && (c.reason == Tp2Reached <==> price.Some? && tp2 != 0.0 && Gain(side, tp2, price.value) >= 0.0)
            && (c.reason == StopHit <==>
                price.Some? && tp2 != 0.0 && Gain(side, tp2, price.value) < 0.0 && Gain(side, stop, price.value) <= 0.0)
            && c.reason in {Unknown, Tp2Reached, StopHit, Manual}
  {
    if lastPrice.Some? {
      RrMeasuresDistance(side, entry, planStop, lastPrice.value);
    } else if deal.Some? {
      RrMeasuresDistance(side, entry, planStop, deal.value.price);
    }
  }

  /** A price is made up in exactly one case: the judged price is zero, and what stands in for it, the
      target or without one the entry, is not. */
  lemma PriceIsReplacedIff(
    side: Side, entry: real, planStop: real, stop: real, tp2: real, lastPrice: Option<real>, deal: Option<Deal>)
    ensures var recorded, judged := CloseOf(side, entry, planStop, stop, tp2, lastPrice, deal).price, JudgedPrice(lastPrice, deal);
            && (recorded != judged <==> judged == Some(0.0) && (tp2 != 0.0 || entry != 0.0))
            && (recorded != judged ==> recorded == Some(if tp2 != 0.0 then tp2 else entry))
  {
  }

  /** What is recorded then: the target's price with the full R of the target, under the reason the
      broker names or, without one, as a stop hit for a buy and as a target hit for a sell. */
  lemma ZeroPriceBecomesTheTarget(
    side: Side, entry: real, planStop: real, stop: real, tp2: real, lastPrice: Option<real>, deal: Option<Deal>)
    requires HasRisk(side, entry, planStop) && stop > 0.0 && tp2 > 0.0
    requires JudgedPrice(lastPrice, deal) == Some(0.0)
    ensures var c := CloseOf(side, entry, planStop, stop, tp2, lastPrice, deal);
            && c.price == Some(tp2) && c.rr.Some?
            && Times(c.rr.value, Abs(entry - planStop)) == Gain(side, entry, tp2)
            && c.reason == (if deal.Some? && deal.value.reason.ByStop? then StopHit
                            else if deal.Some? && deal.value.reason.ByTarget? then Tp2Reached
                            else if side.Buy? then StopHit else Tp2Reached)
  {
    RrMeasuresDistance(side, entry, planStop, tp2);
  }

  // ---------- Breakeven ----------

  datatype StopRules = StopRules(point: real, stopsLevel: nat, freezeLevel: nat)

  datatype BreakevenConfig = BreakevenConfig(spreadMultiplier: real, maxBufferPctOfRisk: real)

  /** Configuration loading accepts no multiplier strictly between zero and one. */
  predicate ValidBreakevenConfig(cfg: BreakevenConfig) {
    (cfg.spreadMultiplier == 0.0 || cfg.spreadMultiplier >= 1.0) && cfg.maxBufferPctOfRisk >= 0.0
  }

  function LevelPoints(rules: StopRules): nat {
    if rules.stopsLevel < rules.freezeLevel then rules.freezeLevel else rules.stopsLevel
  }

  function MinDistance(rules: StopRules): real {
    Times((LevelPoints(rules) + 1) as real, rules.point)
  }

  function Buffer(cfg: BreakevenConfig, entry: real, planStop: real, bid: real, ask: real): real {
    var spread, multiplier := Max(ask - bid, 0.0), Max(cfg.spreadMultiplier, 0.0);
    var riskCap := Times(Abs(entry - planStop), Max(cfg.maxBufferPctOfRisk, 0.0) / 100.0);
    if multiplier == 0.0 then 0.0 else Max(spread, Min(Times(spread, multiplier), riskCap))
  }

  /** `entry` is the signal's own entry when the trade has one. */
  function ValidBreakevenStop(
    cfg: BreakevenConfig, side: Side, entry: real, planStop: real, rules: StopRules, bid: real, ask: real): Option<real>
  {
    var buffer := Buffer(cfg, entry, planStop, bid, ask);
    match side
    case Buy => if bid > 0.0 && entry + buffer <= bid - MinDistance(rules) then Some(entry + buffer) else None
    case Sell => if ask > 0.0 && entry - buffer >= ask + MinDistance(rules) then Some(entry - buffer) else None
  }

  /** Entry and buffer lie at least one point beyond the larger of the broker's two distances. */
  predicate BreakevenHasRoom(
    cfg: BreakevenConfig, side: Side, entry: real, planStop: real, rules: StopRules, bid: real, ask: real)
  {
    var level := if rules.stopsLevel > rules.freezeLevel then rules.stopsLevel else rules.freezeLevel;
    var buffer, distance := Buffer(cfg, entry, planStop, bid, ask), Times(level as real + 1.0, rules.point);
    match side
    case Buy => bid > 0.0 && entry + buffer + distance <= bid
    case Sell => ask > 0.0 && ask + distance <= entry - buffer
  }

  /** There is a breakeven stop exactly when there is room for it, and it is entry and buffer. */
  lemma BreakevenStopIff(
    cfg: BreakevenConfig, side: Side, entry: real, planStop: real, rules: StopRules, bid: real, ask: real)
    ensures var stop := ValidBreakevenStop(cfg, side, entry, planStop, rules, bid, ask);
            && (stop.Some? <==> BreakevenHasRoom(cfg, side, entry, planStop, rules, bid, ask))
            && (stop.Some? ==> Gain(side, entry, stop.value) == Buffer(cfg, entry, planStop, bid, ask))
  {
    assert (LevelPoints(rules) + 1) as real == LevelPoints(rules) as real + 1.0;
  }

  /** The buffer protects at least one spread once enabled, otherwise never exceeds its cap, and is the
      largest that does not. */
  lemma BufferIsBracketed(cfg: BreakevenConfig, entry: real, planStop: real, bid: real, ask: real)
    requires ValidBreakevenConfig(cfg)
    ensures var spread, b := Max(ask - bid, 0.0), Buffer(cfg, entry, planStop, bid, ask);
            var cap := Times(Abs(entry - planStop), cfg.maxBufferPctOfRisk / 100.0);
            if cfg.spreadMultiplier == 0.0 then b == 0.0
            else
              && spread <= b <= Times(spread, cfg.spreadMultiplier) && b <= Max(spread, cap)
              && (b == Times(spread, cfg.spreadMultiplier) || b == Max(spread, cap))
  {
    var spread := Max(ask - bid, 0.0);
    if cfg.spreadMultiplier != 0.0 {
      TimesMonotone(1.0, cfg.spreadMultiplier, spread);
      TimesUnit(spread);
    }
  }

  /** Whatever the configuration, a breakeven stop never gives back the entry. */
  lemma BreakevenKeepsTheEntry(
    cfg: BreakevenConfig, side: Side, entry: real, planStop: real, rules: StopRules, bid: real, ask: real)
    requires ValidBreakevenStop(cfg, side, entry, planStop, rules, bid, ask).Some?
    ensures Gain(side, entry, ValidBreakevenStop(cfg, side, entry, planStop, rules, bid, ask).value) >= 0.0
  {
  }

  /** A breakeven stop keeps the entry before it is rounded to the quote's digits. Rounding moves it by at
      most half a point, which it can give back of the entry but not of the broker's stop and freeze
      distance. */
  lemma BreakevenIsSafe(
    cfg: BreakevenConfig, side: Side, entry: real, planStop: real, rules: StopRules, bid: real, ask: real, rounded: real)
    requires ValidBreakevenConfig(cfg) && rules.point > 0.0
    requires ValidBreakevenStop(cfg, side, entry, planStop, rules, bid, ask).Some?
    requires Abs(rounded - ValidBreakevenStop(cfg, side, entry, planStop, rules, bid, ask).value) <= rules.point / 2.0
    ensures var level := Times(LevelPoints(rules) as real, rules.point);
            var stop := ValidBreakevenStop(cfg, side, entry, planStop, rules, bid, ask).value;
            match side
            case Buy => entry <= stop && entry - rules.point / 2.0 <= rounded < bid - level
            case Sell => stop <= entry && ask + level < rounded <= entry + rules.point / 2.0
  {
    BufferIsBracketed(cfg, entry, planStop, bid, ask);
    TimesDistributes(LevelPoints(rules) as real, 1.0, rules.point);
    TimesUnit(rules.point);
    assert (LevelPoints(rules) + 1) as real == LevelPoints(rules) as real + 1.0;
  }
}
