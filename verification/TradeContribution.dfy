/** What a closed trade contributes to the R-equity curve, computed once from the live trade and
    once from its persisted row (src/risk/equity_throttle.py, src/positions/manager.py). */
module TradeContribution {
  import opened Basics
  import opened Products

  datatype PlanFields = PlanFields(entryPrice: real, stopLoss: real, riskMultiplier: real)

  datatype ClosedTrade = ClosedTrade(
    side: Side, plan: PlanFields, entryPrice: Option<real>,
    entryLots: real, currentLots: real, tp1Lots: real,
    tp1: real, tp1Hit: bool, tp1ClosePrice: Option<real>,
    closePrice: Option<real>, realizedRr: Option<real>, closedAt: Option<int>)

  /** A row of the trades table. `planJson` is absent on legacy rows. */
  datatype TradeRow = TradeRow(
    side: string, planJson: Option<PlanFields>, entryPrice: Option<real>,
    entryLots: real, currentLots: real,
    tp1: real, tp1Hit: bool,
    closePrice: Option<real>, realizedRr: Option<real>, closedAt: Option<int>)

  datatype Contribution = Contribution(closedAt: int, r: real)

  // Missing prices and zero prices read alike.
  predicate Present(price: Option<real>) {
    price.Some? && price.value != 0.0
  }

  function OrElse(price: Option<real>, fallback: Option<real>): Option<real> {
    if Present(price) then price else fallback
  }

  function SideName(side: Side): string {
    match side case Buy => "BUY" case Sell => "SELL"
  }

  /** R of a full close at `closePrice`, measured against the plan's original stop. */
  function RealizedRr(side: Side, entryPrice: Option<real>, planStop: real, closePrice: real): real {
    if !Present(entryPrice) || planStop == entryPrice.value then 0.0
    else
      var risk := Gain(side, planStop, entryPrice.value);
      if risk <= 0.0 then 0.0 else Gain(side, entryPrice.value, closePrice) / risk
  }

  /** Realized R in money terms: the TP1 leg and the final leg blended by volume. */
  function MoneyR(
    side: string, entryPrice: Option<real>, originalSl: Option<real>, closePrice: Option<real>,
    realizedRr: Option<real>, tp1Hit: bool, tp1Fraction: real, tp1ExitPrice: Option<real>): Option<real>
  {
    if realizedRr.None? then None
    else if !tp1Hit || tp1Fraction <= 0.0 then realizedRr
    else if !Present(entryPrice) || !Present(originalSl) || !Present(closePrice) || !Present(tp1ExitPrice) then realizedRr
    else if side != "BUY" && side != "SELL" then realizedRr
    else
      var s := if side == "BUY" then Buy else Sell;
      var risk := Gain(s, originalSl.value, entryPrice.value);
      if risk <= 0.0 then realizedRr
      else
        var fraction := Min(1.0, Max(0.0, tp1Fraction));
        var rTp1 := Gain(s, entryPrice.value, tp1ExitPrice.value) / risk;
        var rFinal := Gain(s, entryPrice.value, closePrice.value) / risk;
        Some(Blend(fraction, rTp1, rFinal))
  }

  function Blend(fraction: real, rTp1: real, rFinal: real): real {
    fraction * rTp1 + (1.0 - fraction) * rFinal
  }

  /** R scaled by the multiplier the trade was sized with; a zero multiplier reads as absent. */
  function Weighted(r: real, multiplier: real): real {
    r * (if multiplier == 0.0 then 1.0 else multiplier)
  }

  function LiveTp1Fraction(t: ClosedTrade): real {
    if t.entryLots > 0.0 then t.tp1Lots / t.entryLots else 0.0
  }

  function LiveTp1Exit(t: ClosedTrade): Option<real> {
    OrElse(t.tp1ClosePrice, Some(t.tp1))
  }

  function FromTrade(t: ClosedTrade, now: int): Option<Contribution> {
    if t.realizedRr.None? then None
    else
      var r := MoneyR(
                 SideName(t.side), OrElse(t.entryPrice, Some(t.plan.entryPrice)), Some(t.plan.stopLoss),
                 t.closePrice, t.realizedRr, t.tp1Hit, LiveTp1Fraction(t), LiveTp1Exit(t));
      if r.None? then None
      else
        var closedAt := if t.closedAt.Some? && t.closedAt.value != 0 then t.closedAt.value else now;
        Some(Contribution(closedAt, Weighted(r.value, t.plan.riskMultiplier)))
  }

  function RowTp1Fraction(row: TradeRow): real {
    if row.tp1Hit && row.entryLots > 0.0 && 0.0 <= row.currentLots < row.entryLots
    then 1.0 - row.currentLots / row.entryLots
    else 0.0
  }

  function FromRow(row: TradeRow): Option<Contribution> {
    if row.realizedRr.None? || row.closedAt.None? then None
    else
      var planEntry := if row.planJson.Some? then Some(row.planJson.value.entryPrice) else None;
      var planStop := if row.planJson.Some? then Some(row.planJson.value.stopLoss) else None;
      var multiplier := if row.planJson.Some? then row.planJson.value.riskMultiplier else 1.0;
      var r := MoneyR(
                 if row.side == "" then "BUY" else row.side,
                 OrElse(planEntry, row.entryPrice), planStop, row.closePrice,
                 row.realizedRr, row.tp1Hit, RowTp1Fraction(row), Some(row.tp1));
      if r.None? then None else Some(Contribution(row.closedAt.value, Weighted(r.value, multiplier)))
  }

  /** The row the repository holds after the trade closed: plan_json keeps the plan of the first save. */
  function RowOf(t: ClosedTrade): TradeRow {
    TradeRow(SideName(t.side), Some(t.plan), t.entryPrice, t.entryLots, t.currentLots,
             t.tp1, t.tp1Hit, t.closePrice, t.realizedRr, t.closedAt)
  }

  /** The entry a restart measures from when it blends. */
  function PlanEntry(t: ClosedTrade): real
    requires t.entryPrice.Some?
  {
    if t.plan.entryPrice != 0.0 then t.plan.entryPrice else t.entryPrice.value
  }

  /** A trade that PositionManager closed with every level present and its planned stop on the losing
      side of its planned entry. The fill may lie anywhere. */
  predicate CleanlyClosed(t: ClosedTrade) {
    && Present(t.entryPrice) && t.plan.stopLoss != 0.0
    && Gain(t.side, t.plan.stopLoss, PlanEntry(t)) > 0.0
    && Present(t.closePrice)
    && t.realizedRr == Some(RealizedRr(t.side, t.entryPrice, t.plan.stopLoss, t.closePrice.value))
    && t.tp1 != 0.0
    && t.closedAt.Some? && t.closedAt.value != 0
  }

  // ---------- Money R as a distance ----------

  /** The share of the position that counts as closed at TP1. */
  function Share(tp1Hit: bool, fraction: real): real {
    if tp1Hit && fraction > 0.0 then Min(1.0, fraction) else 0.0
  }

  /** The one price at which the whole position would have earned as much. */
  function BlendedPrice(share: real, exit: real, close: real): real {
    close + Times(share, exit - close)
  }

  lemma BlendOfDistances(x: real, c: real, risk: real, f: real)
    requires risk > 0.0
    ensures Blend(f, x / risk, c / risk) == (c + Times(f, x - c)) / risk
  {
    var p, q := x / risk, c / risk;
    TimesQuotient(x, risk);
    TimesQuotient(c, risk);
    TimesDistributes(p, q, risk);
    TimesAssociates(f, p - q, risk);
    TimesDistributes(q, Times(f, p - q), risk);
    TimesQuotient(c + Times(f, x - c), risk);
    assert Blend(f, p, q) == q + Times(f, p - q);
    TimesCancels(Blend(f, p, q), (c + Times(f, x - c)) / risk, risk);
  }

  /** Blending two legs by volume is closing the whole position at the blended price. */
  lemma BlendIsAtBlendedPrice(side: Side, entry: real, stop: real, close: real, exit: real, f: real)
    requires entry != 0.0 && Gain(side, stop, entry) > 0.0
    ensures Blend(f, Gain(side, entry, exit) / Gain(side, stop, entry), Gain(side, entry, close) / Gain(side, stop, entry))
         == RealizedRr(side, Some(entry), stop, BlendedPrice(f, exit, close))
  {
    var risk := Gain(side, stop, entry);
    BlendOfDistances(Gain(side, entry, exit), Gain(side, entry, close), risk, f);
    var d := exit - close;
    assert Gain(side, entry, exit) - Gain(side, entry, close) == match side case Buy => d case Sell => -d;
    TimesDistributes(0.0, d, f);
    TimesUnit(f);
  }

  /** Money R is the R of closing the whole position at the blended price, measured from `entry` when
      legs are blended and from the fill when nothing is. */
  lemma MoneyRValue(side: Side, entry: real, fill: real, stop: real, close: real, exit: real, tp1Hit: bool, fraction: real)
    requires entry != 0.0 && stop != 0.0 && close != 0.0 && exit != 0.0
    requires Gain(side, stop, entry) > 0.0 || entry == fill
    ensures MoneyR(SideName(side), Some(entry), Some(stop), Some(close),
                   Some(RealizedRr(side, Some(fill), stop, close)), tp1Hit, fraction, Some(exit))
         == Some(RealizedRr(side, Some(if Share(tp1Hit, fraction) == 0.0 then fill else entry), stop,
                            BlendedPrice(Share(tp1Hit, fraction), exit, close)))
  {
    var share := Share(tp1Hit, fraction);
    TimesUnit(exit - close);
    if share != 0.0 {
      assert Min(1.0, Max(0.0, fraction)) == share;
      if Gain(side, stop, entry) > 0.0 {
        BlendIsAtBlendedPrice(side, entry, stop, close, exit, share);
      }
    }
  }

  // ---------- The two readings of a closed trade ----------

  function LivePrice(t: ClosedTrade): real
    requires t.closePrice.Some?
  {
    BlendedPrice(Share(t.tp1Hit, LiveTp1Fraction(t)), LiveTp1Exit(t).value, t.closePrice.value)
  }

  function RowShare(t: ClosedTrade): real {
    Share(t.tp1Hit, RowTp1Fraction(RowOf(t)))
  }

  function RowPrice(t: ClosedTrade): real
    requires t.closePrice.Some?
  {
    BlendedPrice(RowShare(t), t.tp1, t.closePrice.value)
  }

  function RowEntry(t: ClosedTrade): real
    requires t.entryPrice.Some?
  {
    if RowShare(t) == 0.0 then t.entryPrice.value else PlanEntry(t)
  }

  lemma LiveValue(t: ClosedTrade, now: int)
    requires CleanlyClosed(t)
    ensures FromTrade(t, now) == Some(Contribution(
              t.closedAt.value, Weighted(RealizedRr(t.side, t.entryPrice, t.plan.stopLoss, LivePrice(t)), t.plan.riskMultiplier)))
  {
    var fill := t.entryPrice.value;
    MoneyRValue(t.side, fill, fill, t.plan.stopLoss, t.closePrice.value, LiveTp1Exit(t).value, t.tp1Hit, LiveTp1Fraction(t));
  }

  lemma RowValue(t: ClosedTrade)
    requires CleanlyClosed(t)
    ensures FromRow(RowOf(t)) == Some(Contribution(
              t.closedAt.value, Weighted(RealizedRr(t.side, Some(RowEntry(t)), t.plan.stopLoss, RowPrice(t)), t.plan.riskMultiplier)))
  {
    MoneyRValue(t.side, PlanEntry(t), t.entryPrice.value, t.plan.stopLoss, t.closePrice.value, t.tp1, t.tp1Hit, RowTp1Fraction(RowOf(t)));
  }

  /** What the curve is credited with: in units of the risk taken, the two legs' earnings added up by
      volume, times the multiplier the trade was sized with. */
  lemma ContributionIsWhatTheLegsEarned(t: ClosedTrade, now: int)
    requires CleanlyClosed(t) && Gain(t.side, t.plan.stopLoss, t.entryPrice.value) > 0.0
    requires 0.0 <= t.tp1Lots <= t.entryLots && t.entryLots > 0.0
    ensures var risk, fill := Gain(t.side, t.plan.stopLoss, t.entryPrice.value), t.entryPrice.value;
            var exit := if t.tp1ClosePrice.Some? && t.tp1ClosePrice.value != 0.0 then t.tp1ClosePrice.value else t.tp1;
            var early := if t.tp1Hit then t.tp1Lots else 0.0;
            var earned := Times(early, Gain(t.side, fill, exit)) + Times(t.entryLots - early, Gain(t.side, fill, t.closePrice.value));
            var multiplier := if t.plan.riskMultiplier == 0.0 then 1.0 else t.plan.riskMultiplier;
            && FromTrade(t, now).Some? && FromTrade(t, now).value.closedAt == t.closedAt.value
            && Times(FromTrade(t, now).value.r, Times(risk, t.entryLots)) == Times(multiplier, earned)
  {
    LiveValue(t, now);
    RiskCancels(t);
    LegsByVolume(t);
    var rr := RealizedRr(t.side, t.entryPrice, t.plan.stopLoss, LivePrice(t));
    var multiplier := if t.plan.riskMultiplier == 0.0 then 1.0 else t.plan.riskMultiplier;
    var volume := Times(Gain(t.side, t.plan.stopLoss, t.entryPrice.value), t.entryLots);
    TimesCommutes(rr, multiplier);
    TimesAssociates(multiplier, rr, volume);
    assert FromTrade(t, now).value.r == Times(rr, multiplier);
  }

  lemma RiskCancels(t: ClosedTrade)
    requires CleanlyClosed(t) && Gain(t.side, t.plan.stopLoss, t.entryPrice.value) > 0.0
    ensures Times(RealizedRr(t.side, t.entryPrice, t.plan.stopLoss, LivePrice(t)),
                  Times(Gain(t.side, t.plan.stopLoss, t.entryPrice.value), t.entryLots))
         == Times(Gain(t.side, t.entryPrice.value, LivePrice(t)), t.entryLots)
  {
    var risk, gain := Gain(t.side, t.plan.stopLoss, t.entryPrice.value), Gain(t.side, t.entryPrice.value, LivePrice(t));
    TimesQuotient(gain, risk);
    TimesAssociates(gain / risk, risk, t.entryLots);
  }

  lemma LegsByVolume(t: ClosedTrade)
    requires CleanlyClosed(t) && 0.0 <= t.tp1Lots <= t.entryLots && t.entryLots > 0.0
    ensures var fill, early := t.entryPrice.value, if t.tp1Hit then t.tp1Lots else 0.0;
            Times(Gain(t.side, fill, LivePrice(t)), t.entryLots) ==
            Times(early, Gain(t.side, fill, LiveTp1Exit(t).value)) + Times(t.entryLots - early, Gain(t.side, fill, t.closePrice.value))
  {
    var fill, close, exit, lots := t.entryPrice.value, t.closePrice.value, LiveTp1Exit(t).value, t.entryLots;
    var early := if t.tp1Hit then t.tp1Lots else 0.0;
    var share, d := Share(t.tp1Hit, LiveTp1Fraction(t)), exit - close;
    FractionInRange(t.tp1Lots, lots);
    TimesQuotient(t.tp1Lots, lots);
    TimesUnit(lots);
    assert Times(share, lots) == early;
    TimesCommutes(d, lots);
    TimesAssociates(share, lots, d);
    TimesAssociates(share, d, lots);
    assert Times(Times(share, d), lots) == Times(early, d);
    TimesDistributes(Gain(t.side, fill, close), Times(share, d), lots);
    TimesDistributes(lots, early, Gain(t.side, fill, close));
    TimesDistributes(Gain(t.side, fill, exit), Gain(t.side, fill, close), early);
    TimesCommutes(Gain(t.side, fill, close), lots);
    TimesDistributes(0.0, d, early);
    TimesUnit(early);
  }

  lemma WeightIsInjective(x: real, y: real, m: real)
    ensures Weighted(x, m) == Weighted(y, m) <==> x == y
  {
    var weight := if m == 0.0 then 1.0 else m;
    if x * weight == y * weight {
      Cancel(x, y, weight);
    }
  }

  /** One plus R is the distance from the stop, in units of the risk. */
  lemma RFromTheStop(side: Side, entry: real, stop: real, price: real)
    requires entry != 0.0 && Gain(side, stop, entry) > 0.0
    ensures Times(RealizedRr(side, Some(entry), stop, price) + 1.0, Gain(side, stop, entry)) == Gain(side, stop, price)
  {
    var risk := Gain(side, stop, entry);
    TimesQuotient(Gain(side, entry, price), risk);
    TimesDistributes(RealizedRr(side, Some(entry), stop, price), 1.0, risk);
    TimesUnit(risk);
  }

  /** Two closes measured from different entries against one stop have the same R exactly when their
      distances from the stop are in proportion to the risks. */
  lemma SameRIff(side: Side, a: real, b: real, stop: real, x: real, y: real)
    requires a != 0.0 && b != 0.0 && Gain(side, stop, a) > 0.0 && Gain(side, stop, b) > 0.0
    ensures RealizedRr(side, Some(a), stop, x) == RealizedRr(side, Some(b), stop, y)
       <==> Times(Gain(side, stop, x), Gain(side, stop, b)) == Times(Gain(side, stop, y), Gain(side, stop, a))
  {
    var ra, rb := Gain(side, stop, a), Gain(side, stop, b);
    var p, q := RealizedRr(side, Some(a), stop, x) + 1.0, RealizedRr(side, Some(b), stop, y) + 1.0;
    RFromTheStop(side, a, stop, x);
    RFromTheStop(side, b, stop, y);
    TimesAssociates(p, ra, rb);
    TimesAssociates(q, rb, ra);
    TimesCommutes(ra, rb);
    TimesPositive(ra, rb);
    if Times(p, Times(ra, rb)) == Times(q, Times(ra, rb)) {
      TimesCancels(p, q, Times(ra, rb));
    }
  }

  /** What a restart has to get right: with a fill beyond its own stop, that nothing is blended or the
      blended exit is the planned entry; otherwise, that both readings give the same R. */
  predicate ReadingsAgree(t: ClosedTrade)
    requires CleanlyClosed(t)
  {
    var stop, fill := t.plan.stopLoss, t.entryPrice.value;
    if Gain(t.side, stop, fill) <= 0.0 then RowShare(t) == 0.0 || RowPrice(t) == PlanEntry(t)
    else Times(Gain(t.side, stop, LivePrice(t)), Gain(t.side, stop, RowEntry(t))) == Times(Gain(t.side, stop, RowPrice(t)), Gain(t.side, stop, fill))
  }

  /** A restart rebuilds a trade's contribution exactly when the live exit, measured from the fill, and
      the exit in the row, measured from the entry the row goes by, lie equally far from the stop in
      units of their risks. */
  lemma RowMatchesLiveIff(t: ClosedTrade, now: int)
    requires CleanlyClosed(t)
    ensures FromRow(RowOf(t)) == FromTrade(t, now) <==> ReadingsAgree(t)
  {
    var stop, fill := t.plan.stopLoss, t.entryPrice.value;
    LiveValue(t, now);
    RowValue(t);
    WeightIsInjective(RealizedRr(t.side, Some(RowEntry(t)), stop, RowPrice(t)),
                      RealizedRr(t.side, Some(fill), stop, LivePrice(t)), t.plan.riskMultiplier);
    if Gain(t.side, stop, fill) > 0.0 {
      SameRIff(t.side, fill, RowEntry(t), stop, LivePrice(t), RowPrice(t));
    } else if RowShare(t) != 0.0 {
      var risk := Gain(t.side, stop, PlanEntry(t));
      TimesQuotient(Gain(t.side, PlanEntry(t), RowPrice(t)), risk);
      TimesUnit(risk);
    }
  }

  /** Filled at the planned entry, the two readings agree exactly when they exit at the same price. */
  lemma SameEntryAgreesIff(t: ClosedTrade, now: int)
    requires CleanlyClosed(t) && t.entryPrice.value == PlanEntry(t)
    ensures FromRow(RowOf(t)) == FromTrade(t, now) <==> LivePrice(t) == RowPrice(t)
  {
    var risk := Gain(t.side, t.plan.stopLoss, PlanEntry(t));
    RowMatchesLiveIff(t, now);
    if ReadingsAgree(t) {
      TimesCancels(Gain(t.side, t.plan.stopLoss, LivePrice(t)), Gain(t.side, t.plan.stopLoss, RowPrice(t)), risk);
    }
  }

  /** No TP1, or a TP1 partial executed at the planned level. */
  predicate Tp1AsPlanned(t: ClosedTrade) {
    t.tp1Hit ==>
      && t.tp1ClosePrice == Some(t.tp1) && t.currentLots == t.entryLots - t.tp1Lots
      && 0.0 <= t.tp1Lots <= t.entryLots && t.entryLots > 0.0
  }

  lemma FractionInRange(part: real, whole: real)
    requires 0.0 <= part <= whole && whole > 0.0
    ensures 0.0 <= part / whole <= 1.0
    ensures part / whole == 0.0 <==> part == 0.0
    ensures part / whole == 1.0 - (whole - part) / whole
  {
    var q, rest := part / whole, (whole - part) / whole;
    Distribute(q, rest, whole);
    assert q * whole == part && rest * whole == whole - part;
    Cancel(q + rest, 1.0, whole);
  }

  lemma AsPlannedExitsTogether(t: ClosedTrade)
    requires CleanlyClosed(t) && Tp1AsPlanned(t)
    ensures LivePrice(t) == RowPrice(t) && (RowShare(t) != 0.0 <==> t.tp1Hit && t.tp1Lots > 0.0)
  {
    if t.tp1Hit {
      FractionInRange(t.tp1Lots, t.entryLots);
    }
  }

  /** With TP1 as planned, a restart agrees exactly when the trade was filled at its planned entry, or
      nothing was blended, or the blended exit is the stop itself. A limit order filled better than its
      price is none of these. */
  lemma AsPlannedAgreesIff(t: ClosedTrade, now: int)
    requires CleanlyClosed(t) && Tp1AsPlanned(t) && Gain(t.side, t.plan.stopLoss, t.entryPrice.value) > 0.0
    ensures FromRow(RowOf(t)) == FromTrade(t, now)
       <==> t.entryPrice.value == PlanEntry(t) || !(t.tp1Hit && t.tp1Lots > 0.0) || LivePrice(t) == t.plan.stopLoss
  {
    var stop := t.plan.stopLoss;
    var d, a, b := Gain(t.side, stop, LivePrice(t)), Gain(t.side, stop, t.entryPrice.value), Gain(t.side, stop, PlanEntry(t));
    RowMatchesLiveIff(t, now);
    AsPlannedExitsTogether(t);
    TimesDistributes(b, a, d);
    if d != 0.0 && a != b {
      TimesNonZero(d, b - a);
    }
    TimesUnit(a);
    TimesUnit(b);
  }

  /** A TP1 partial executed at the quote of the poll that saw the level crossed. */
  predicate Tp1AtTheQuote(t: ClosedTrade) {
    && t.tp1Hit && Present(t.tp1ClosePrice)
    && 0.0 < t.tp1Lots <= t.entryLots && t.currentLots == t.entryLots - t.tp1Lots
  }

  /** The ordinary case: filled at the planned entry with TP1 taken at the quote, a restart agrees exactly
      when that quote was the TP1 level itself. */
  lemma Tp1QuoteIsMisreadIff(t: ClosedTrade, now: int)
    requires CleanlyClosed(t) && t.entryPrice.value == PlanEntry(t) && Tp1AtTheQuote(t)
    ensures FromRow(RowOf(t)) != FromTrade(t, now) <==> t.tp1ClosePrice.value != t.tp1
  {
    var share, close := t.tp1Lots / t.entryLots, t.closePrice.value;
    SameEntryAgreesIff(t, now);
    FractionInRange(t.tp1Lots, t.entryLots);
    assert Share(t.tp1Hit, LiveTp1Fraction(t)) == share == RowShare(t);
    TimesCommutes(share, t.tp1ClosePrice.value - close);
    TimesCommutes(share, t.tp1 - close);
    if LivePrice(t) == RowPrice(t) {
      TimesCancels(t.tp1ClosePrice.value - close, t.tp1 - close, share);
    }
  }

  /** A trade the two readings disagree on: a limit order at 100 filled at 99, half of it taken at 110. */
  lemma ImprovedFillIsMisread(t: ClosedTrade, now: int)
    requires CleanlyClosed(t) && t.side.Buy? && t.plan == PlanFields(100.0, 90.0, 1.0) && t.entryPrice == Some(99.0)
    requires t.tp1Hit && t.tp1 == 110.0 && t.tp1ClosePrice == Some(110.0) && t.closePrice == Some(120.0)
    requires t.entryLots == 1.0 && t.tp1Lots == 0.5 && t.currentLots == 0.5
    ensures FromRow(RowOf(t)) != FromTrade(t, now)
  {
    AsPlannedAgreesIff(t, now);
    assert LivePrice(t) == 115.0;
  }

  /** A TP1 whose partial close failed is still credited to the live curve: a restart agrees exactly when
      that credit is worth nothing. */
  lemma FailedTp1PartialIsMisreadIff(t: ClosedTrade, now: int)
    requires CleanlyClosed(t) && Gain(t.side, t.plan.stopLoss, t.entryPrice.value) > 0.0
    requires t.tp1Hit && !Present(t.tp1ClosePrice) && t.currentLots == t.entryLots > 0.0
    ensures FromRow(RowOf(t)) != FromTrade(t, now) <==> t.tp1Lots > 0.0 && t.closePrice.value != t.tp1
  {
    var share, close := Share(t.tp1Hit, LiveTp1Fraction(t)), t.closePrice.value;
    RowMatchesLiveIff(t, now);
    QuotientOrder(t.tp1Lots, t.entryLots, 0.0);
    TimesUnit(t.entryLots);
    TimesUnit(t.tp1 - close);
    TimesUnit(share);
    if share != 0.0 && t.tp1 != close {
      TimesNonZero(share, t.tp1 - close);
    }
    var risk := Gain(t.side, t.plan.stopLoss, t.entryPrice.value);
    if ReadingsAgree(t) {
      TimesCancels(Gain(t.side, t.plan.stopLoss, LivePrice(t)), Gain(t.side, t.plan.stopLoss, RowPrice(t)), risk);
    }
  }

  // ---------- What is missing ----------

  /** Whenever something the blend needs is missing or off, the recorded R stands; a trade without an R, and
      only such a trade, has no money R. */
  lemma RecordedRStands(
    side: string, entry: Option<real>, stop: Option<real>, close: Option<real>, rr: Option<real>,
    tp1Hit: bool, fraction: real, exit: Option<real>)
    ensures MoneyR(side, entry, stop, close, rr, tp1Hit, fraction, exit).Some? <==> rr.Some?
    ensures !tp1Hit || fraction <= 0.0 || side !in ["BUY", "SELL"] || (exists p :: p in [entry, stop, close, exit] && p in [None, Some(0.0)]) ==>
              MoneyR(side, entry, stop, close, rr, tp1Hit, fraction, exit) == rr
    ensures entry.Some? && stop.Some? && (if side == "BUY" then entry.value <= stop.value else stop.value <= entry.value) ==>
              MoneyR(side, entry, stop, close, rr, tp1Hit, fraction, exit) == rr
  {
  }

  /** A live trade counts from its close time, or from now when it has none. */
  lemma UndatedTradeCountsFromNow(t: ClosedTrade, now: int)
    ensures FromTrade(t, now).Some? <==> t.realizedRr.Some?
    ensures t.realizedRr.Some? ==>
              FromTrade(t, now).value.closedAt == if t.closedAt.None? || t.closedAt.value == 0 then now else t.closedAt.value
  {
  }

  /** A row counts exactly when it has an R and a close time; one without its plan counts with the R as
      recorded, and one without a side as a buy. */
  lemma IncompleteRows(row: TradeRow)
    ensures FromRow(row).Some? <==> row.realizedRr.Some? && row.closedAt.Some?
    ensures FromRow(row).Some? && row.planJson.None? ==> FromRow(row) == Some(Contribution(row.closedAt.value, row.realizedRr.value))
    ensures FromRow(row.(side := "")) == FromRow(row.(side := "BUY"))
  {
  }
}
