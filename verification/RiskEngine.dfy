/** The ordered risk rules and the engine that folds them into one decision (src/risk/rules.py,
    src/risk/engine.py). A rule's reason text is its name. */
module RiskEngine {
  import opened Basics
  import opened Products
  import LotSizing
  import Planner
  import opened ClusterTracker
  import EquityThrottle

  datatype Config = Config(
    noHedging: bool, maxLosingStreak: int, maxExposurePerSymbol: int, maxDailyLossPct: real,
    driftEnabled: bool, maxDriftPct: real, minRr: real, maxSpreadToStop: real)

  datatype OpenTrade = OpenTrade(signalId: string, symbol: string, side: Side, entryPrice: Option<real>)

  /** Everything a rule may look at; the trackers' answers are read once per evaluation. */
  datatype Context = Context(
    signal: Planner.Signal, isLimit: bool, openTrades: seq<OpenTrade>, config: Config, dailyLossPct: real,
    effectiveOpen: int, effectiveSymbol: int, quote: Option<LotSizing.SymbolInfo>, paused: bool,
    cluster: Option<ClusterPreview>, throttle: Option<EquityThrottle.ThrottlePreview>)

  datatype Key =
    | RiskMultiplier | PlannedClusterR | ThrottleMultiplier | ThrottleDrawdown | DriftPrice | DriftPct | FillPrice

  datatype Rule =
    | LossGuard | ClusterRisk | ThrottleRisk | NoHedging | MaxOpenTrades | MaxSymbolExposure
    | DuplicateSignal | DailyLossLimit | EntryDrift | MinRr | SpreadQuality

  const ALL_RULES := [
    LossGuard, ClusterRisk, ThrottleRisk, NoHedging, MaxOpenTrades, MaxSymbolExposure,
    DuplicateSignal, DailyLossLimit, EntryDrift, MinRr, SpreadQuality]

  const UNKNOWN_ID := "unknown"

  datatype Verdict = Pass(data: map<Key, real>) | Reject

  datatype Decision = Approved(data: map<Key, real>) | Rejected(rule: Rule) | NoRules

  const PASS := Pass(map[])

  // ---------- The rules ----------

  function PassIf(ok: bool): Verdict {
    if ok then PASS else Reject
  }

  function Slots(cfg: Config): int {
    if cfg.maxLosingStreak < 1 then 1 else cfg.maxLosingStreak
  }

  /** The price this signal would fill at: a limit order's own level, else the live quote. */
  function FillPriceOf(ctx: Context, si: LotSizing.SymbolInfo): real {
    if ctx.isLimit then ctx.signal.entryPrice else if ctx.signal.side.Buy? then si.ask else si.bid
  }

  predicate QuoteIsValid(ctx: Context) {
    ctx.quote.Some? && ctx.quote.value.ask > 0.0 && ctx.quote.value.bid > 0.0
  }

  predicate IsConflict(ctx: Context, t: OpenTrade) {
    t.symbol == ctx.signal.symbol && t.side != ctx.signal.side
  }

  predicate IsDuplicate(ctx: Context, t: OpenTrade) {
    t.signalId == ctx.signal.id && t.signalId != UNKNOWN_ID
  }

  function JudgeCluster(preview: Option<ClusterPreview>): Verdict {
    match preview
    case None => PASS
    case Some(Refused(_, _)) => Reject
    case Some(Approved(_, m, planned)) => Pass(map[RiskMultiplier := m, PlannedClusterR := planned])
  }

  function JudgeThrottle(preview: Option<EquityThrottle.ThrottlePreview>): Verdict {
    if preview.Some? && preview.value.multiplier < 1.0
    then Pass(map[ThrottleMultiplier := preview.value.multiplier, ThrottleDrawdown := preview.value.drawdownR])
    else PASS
  }

  function JudgeDailyLoss(cfg: Config, lossPct: real): Verdict {
    var safety := Times(cfg.maxDailyLossPct, 0.95);
    PassIf(lossPct < safety && lossPct + cfg.maxDailyLossPct / Slots(cfg) as real <= safety)
  }

  function AdverseDrift(ctx: Context, fill: real): real {
    Max(0.0, if ctx.signal.side.Buy? then fill - ctx.signal.entryPrice else ctx.signal.entryPrice - fill)
  }

  function JudgeDrift(ctx: Context): Verdict {
    var risk := Abs(ctx.signal.entryPrice - ctx.signal.stopLoss);
    if !QuoteIsValid(ctx) then Reject
    else if risk == 0.0 then PASS
    else
      var fill := FillPriceOf(ctx, ctx.quote.value);
      var drift := AdverseDrift(ctx, fill);
      var pct := drift / risk * 100.0;
      if ctx.config.driftEnabled && pct > ctx.config.maxDriftPct then Reject
      else Pass(map[DriftPrice := drift, DriftPct := pct, FillPrice := fill])
  }

  function JudgeMinRr(ctx: Context): Verdict {
    if !QuoteIsValid(ctx) then Reject
    else
      var pip := LotSizing.PipSize(ctx.quote.value.point, ctx.quote.value.digits);
      var fill := FillPriceOf(ctx, ctx.quote.value);
      var risk, reward := Planner.StopDistance(ctx.signal.side, fill, ctx.signal.stopLoss),
                          Planner.StopDistance(ctx.signal.side, ctx.signal.tp2, fill);
      if pip <= 0.0 || risk <= 0.0 || reward <= 0.0 then Reject
      else
        QuotientOrder(risk, pip, 0.0);
        TimesUnit(pip);
        var slPips, tpPips := risk / pip, reward / pip;
        if slPips == 0.0 then Reject else PassIf(tpPips / slPips >= ctx.config.minRr)
  }

  function JudgeSpread(ctx: Context): Verdict {
    if !QuoteIsValid(ctx) then Reject
    else
      var si := ctx.quote.value;
      var pip := LotSizing.PipSize(si.point, si.digits);
      if pip <= 0.0 then Reject
      else
        var spreadPips, slPips := (si.ask - si.bid) / pip, Abs(FillPriceOf(ctx, si) - ctx.signal.stopLoss) / pip;
        if spreadPips < 0.0 || slPips == 0.0 then Reject
        else PassIf(spreadPips / slPips <= ctx.config.maxSpreadToStop)
  }

  function Judge(rule: Rule, ctx: Context): Verdict {
    match rule
    case LossGuard => PassIf(!ctx.paused)
    case ClusterRisk => JudgeCluster(ctx.cluster)
    case ThrottleRisk => JudgeThrottle(ctx.throttle)
    case NoHedging => PassIf(ctx.config.noHedging ==> forall t :: t in ctx.openTrades ==> !IsConflict(ctx, t))
    case MaxOpenTrades => PassIf(ctx.effectiveOpen < Slots(ctx.config))
    case MaxSymbolExposure => PassIf(ctx.effectiveSymbol < ctx.config.maxExposurePerSymbol)
    case DuplicateSignal => PassIf(forall t :: t in ctx.openTrades ==> !IsDuplicate(ctx, t))
    case DailyLossLimit => JudgeDailyLoss(ctx.config, ctx.dailyLossPct)
    case EntryDrift => JudgeDrift(ctx)
    case MinRr => JudgeMinRr(ctx)
    case SpreadQuality => JudgeSpread(ctx)
  }

  // ---------- The decision ----------

  /** The rule that rejects, if one does, with every rule before it passing. */
  function FirstRejection(rules: seq<Rule>, ctx: Context): Option<Rule> {
    if rules == [] then None
    else if FirstRejection(rules[..|rules| - 1], ctx).Some? then FirstRejection(rules[..|rules| - 1], ctx)
    else if Judge(rules[|rules| - 1], ctx).Reject? then Some(rules[|rules| - 1])
    else None
  }

  /** The data of all passing rules, later rules overwriting earlier ones. */
  function Gathered(rules: seq<Rule>, ctx: Context): map<Key, real> {
    if rules == [] then map[]
    else
      var earlier := Gathered(rules[..|rules| - 1], ctx);
      match Judge(rules[|rules| - 1], ctx) case Pass(data) => earlier + data case Reject => earlier
  }

  function Lookup(data: map<Key, real>, key: Key, fallback: real): real {
    if key in data then data[key] else fallback
  }

  function Composed(data: map<Key, real>): map<Key, real> {
    var throttle := Lookup(data, ThrottleMultiplier, 1.0);
    var rest := data - {ThrottleMultiplier};
    if throttle < 1.0 then rest[RiskMultiplier := Times(Lookup(rest, RiskMultiplier, 1.0), throttle)] else rest
  }

  function Decide(rules: seq<Rule>, ctx: Context): Decision {
    if rules == [] then NoRules
    else match FirstRejection(rules, ctx)
      case Some(rule) => Rejected(rule)
      case None => Decision.Approved(Composed(Gathered(rules, ctx)))
  }

  method Evaluate(rules: seq<Rule>, ctx: Context) returns (d: Decision)
    ensures d == Decide(rules, ctx)
  {
    if rules == [] {
      return NoRules;
    }
    var data: map<Key, real> := map[];
    for i := 0 to |rules|
      invariant FirstRejection(rules[..i], ctx).None?
      invariant data == Gathered(rules[..i], ctx)
    {
      assert rules[..i + 1][..i] == rules[..i];
      var verdict := Judge(rules[i], ctx);
      if verdict.Reject? {
        FirstRejectionIsFirst(rules, ctx, i);
        return Rejected(rules[i]);
      }
      data := data + verdict.data;
    }
    assert rules[..|rules|] == rules;
    var throttle := Lookup(data, ThrottleMultiplier, 1.0);
    data := data - {ThrottleMultiplier};
    if throttle < 1.0 {
      data := data[RiskMultiplier := Times(Lookup(data, RiskMultiplier, 1.0), throttle)];
    }
    return Decision.Approved(data);
  }

  /** `rules[k]` rejects after everything before it passed: it decides. */
  lemma {:induction false} FirstRejectionIsFirst(rules: seq<Rule>, ctx: Context, k: nat)
    requires k < |rules| && FirstRejection(rules[..k], ctx).None? && Judge(rules[k], ctx).Reject?
    ensures FirstRejection(rules, ctx) == Some(rules[k])
  {
    var front := rules[..|rules| - 1];
    if k < |front| {
      assert front[..k] == rules[..k];
      FirstRejectionIsFirst(front, ctx, k);
    }
  }

  /** A list of rules approves exactly when every one of them passes; it names one of them when not. */
  lemma {:induction false} RejectsIffSomeRuleDoes(rules: seq<Rule>, ctx: Context)
    ensures FirstRejection(rules, ctx).None? <==> forall r :: r in rules ==> Judge(r, ctx).Pass?
    ensures FirstRejection(rules, ctx).Some? ==>
      FirstRejection(rules, ctx).value in rules && Judge(FirstRejection(rules, ctx).value, ctx).Reject?
  {
    if rules != [] {
      var front, last := rules[..|rules| - 1], rules[|rules| - 1];
      RejectsIffSomeRuleDoes(front, ctx);
      assert rules == front + [last];
    }
  }

  // ---------- Composition does not depend on the order ----------

  /** The only rule that writes a key. */
  function Owner(key: Key): Rule {
    match key
    case RiskMultiplier => ClusterRisk
    case PlannedClusterR => ClusterRisk
    case ThrottleMultiplier => ThrottleRisk
    case ThrottleDrawdown => ThrottleRisk
    case DriftPrice => EntryDrift
    case DriftPct => EntryDrift
    case FillPrice => EntryDrift
  }

  lemma RulesWriteOnlyWhatTheyOwn(rule: Rule, ctx: Context, key: Key)
    requires Judge(rule, ctx).Pass? && key in Judge(rule, ctx).data
    ensures Owner(key) == rule
  {
  }

  predicate Contributes(rules: seq<Rule>, ctx: Context, key: Key) {
    Owner(key) in rules && Judge(Owner(key), ctx).Pass? && key in Judge(Owner(key), ctx).data
  }

  /** The gathered data holds a key exactly when its owner is among the rules and wrote it. */
  lemma {:induction false} GatheredLookup(rules: seq<Rule>, ctx: Context, key: Key)
    ensures key in Gathered(rules, ctx) <==> Contributes(rules, ctx, key)
    ensures Contributes(rules, ctx, key) ==> Gathered(rules, ctx)[key] == Judge(Owner(key), ctx).data[key]
  {
    if rules != [] {
      var front, last := rules[..|rules| - 1], rules[|rules| - 1];
      assert rules == front + [last];
      GatheredLookup(front, ctx, key);
      if Judge(last, ctx).Pass? && key in Judge(last, ctx).data {
        RulesWriteOnlyWhatTheyOwn(last, ctx, key);
      }
    }
  }

  /** Any two lists of the same rules approve the same signals with the same data. */
  lemma OrderDoesNotMatter(rules: seq<Rule>, others: seq<Rule>, ctx: Context)
    requires forall r :: r in rules <==> r in others
    ensures Decide(rules, ctx).Approved? <==> Decide(others, ctx).Approved?
    ensures Decide(rules, ctx).Approved? ==> Decide(rules, ctx) == Decide(others, ctx)
  {
    RejectsIffSomeRuleDoes(rules, ctx);
    RejectsIffSomeRuleDoes(others, ctx);
    forall key: Key
      ensures key in Gathered(rules, ctx) <==> key in Gathered(others, ctx)
      ensures key in Gathered(rules, ctx) ==> Gathered(rules, ctx)[key] == Gathered(others, ctx)[key]
    {
      GatheredLookup(rules, ctx, key);
      GatheredLookup(others, ctx, key);
    }
    assert Gathered(rules, ctx) == Gathered(others, ctx);
    if rules != [] {
      assert rules[0] in others;
    }
    if others != [] {
      assert others[0] in rules;
    }
  }

  function ClusterFactor(rules: seq<Rule>, ctx: Context): real {
    if ClusterRisk in rules && ctx.cluster.Some? && ctx.cluster.value.Approved? then ctx.cluster.value.riskMultiplier else 1.0
  }

  function ThrottleFactor(rules: seq<Rule>, ctx: Context): real {
    if ThrottleRisk in rules && ctx.throttle.Some? && ctx.throttle.value.multiplier < 1.0 then ctx.throttle.value.multiplier else 1.0
  }

  function DecidedMultiplier(d: Decision): real
    requires d.Approved?
  {
    Lookup(d.data, RiskMultiplier, 1.0)
  }

  /** The size multiplier is the product of the cluster's and the throttle's, neither overwriting the
      other, and the throttle's own entry does not leak into the decision. */
  lemma MultiplierIsAProduct(rules: seq<Rule>, ctx: Context)
    requires Decide(rules, ctx).Approved?
    ensures DecidedMultiplier(Decide(rules, ctx)) == Times(ClusterFactor(rules, ctx), ThrottleFactor(rules, ctx))
    ensures ThrottleMultiplier !in Decide(rules, ctx).data
  {
    RejectsIffSomeRuleDoes(rules, ctx);
    GatheredLookup(rules, ctx, RiskMultiplier);
    GatheredLookup(rules, ctx, ThrottleMultiplier);
    TimesUnit(ClusterFactor(rules, ctx));
  }

  lemma ClusterPreviewIsInRange(g: Group, st: ClusterState)
    requires ValidGroup(g) && PreviewOf(g, st).Approved?
    ensures 0.0 < PreviewOf(g, st).riskMultiplier == PreviewOf(g, st).plannedRiskR <= 1.0
  {
  }

  lemma PlannedRiskIsCarried(rules: seq<Rule>, ctx: Context)
    requires Decide(rules, ctx).Approved? && ClusterRisk in rules && ctx.cluster.Some?
    ensures ctx.cluster.value.Approved? && PlannedClusterR in Decide(rules, ctx).data
    ensures Decide(rules, ctx).data[PlannedClusterR] == ctx.cluster.value.plannedRiskR
  {
    RejectsIffSomeRuleDoes(rules, ctx);
    assert Judge(ClusterRisk, ctx).Pass?;
    GatheredLookup(rules, ctx, PlannedClusterR);
  }

  /** The reserved cluster R never falls short of what the trade will risk, and the multiplier of an
      approved signal is positive and at most one. */
  lemma ReservationCoversTheRisk(rules: seq<Rule>, ctx: Context, g: Group, st: ClusterState, throttle: EquityThrottle.Config)
    requires Decide(rules, ctx).Approved? && ClusterRisk in rules
    requires ValidGroup(g) && EquityThrottle.ValidConfig(throttle)
    requires ctx.cluster == Some(PreviewOf(g, st))
    requires ctx.throttle.Some? ==> ctx.throttle.value.multiplier == 1.0 || ctx.throttle.value.multiplier == throttle.riskMultiplier
    ensures PlannedClusterR in Decide(rules, ctx).data
    ensures 0.0 < DecidedMultiplier(Decide(rules, ctx)) <= Decide(rules, ctx).data[PlannedClusterR] <= 1.0
  {
    PlannedRiskIsCarried(rules, ctx);
    MultiplierIsAProduct(rules, ctx);
    ClusterPreviewIsInRange(g, st);
    var c, t := ClusterFactor(rules, ctx), ThrottleFactor(rules, ctx);
    TimesPositive(c, t);
    TimesMonotone(t, 1.0, c);
    TimesUnit(c);
  }

  // ---------- What the shipped list admits ----------

  lemma PipsCancel(a: real, b: real, pip: real)
    requires pip > 0.0 && b > 0.0
    ensures b / pip > 0.0 && (a / pip) / (b / pip) == a / b
  {
    QuotientOrder(b, pip, 0.0);
    TimesUnit(pip);
    if b / pip == 0.0 {
      TimesQuotient(b, pip);
    }
    var x, y := a / pip, b / pip;
    TimesQuotient(a, pip);
    TimesQuotient(b, pip);
    TimesQuotient(a, b);
    TimesQuotient(x, y);
    TimesAssociates(a / b, y, pip);
    TimesAssociates(x / y, y, pip);
    assert Times(Times(a / b, y), pip) == Times(Times(x / y, y), pip);
    TimesCancels(Times(a / b, y), Times(x / y, y), pip);
    TimesCancels(a / b, x / y, y);
  }

  /** In prices, without pips: the fill lies strictly between stop and TP2, and the reward is at least
      the minimum ratio times the risk. */
  lemma MinRrPassesIff(ctx: Context)
    requires QuoteIsValid(ctx) && ctx.quote.value.point > 0.0
    ensures var fill := FillPriceOf(ctx, ctx.quote.value);
            var risk := Planner.StopDistance(ctx.signal.side, fill, ctx.signal.stopLoss);
            var reward := Planner.StopDistance(ctx.signal.side, ctx.signal.tp2, fill);
            JudgeMinRr(ctx).Pass? <==> risk > 0.0 && reward > 0.0 && reward >= Times(ctx.config.minRr, risk)
  {
    var fill := FillPriceOf(ctx, ctx.quote.value);
    var risk := Planner.StopDistance(ctx.signal.side, fill, ctx.signal.stopLoss);
    var reward := Planner.StopDistance(ctx.signal.side, ctx.signal.tp2, fill);
    if risk > 0.0 {
      PipsCancel(reward, risk, LotSizing.PipSize(ctx.quote.value.point, ctx.quote.value.digits));
      QuotientOrder(reward, risk, ctx.config.minRr);
    }
  }

  /** In prices: the spread is non-negative and at most the threshold times a non-zero stop distance. */
  lemma SpreadPassesIff(ctx: Context)
    requires QuoteIsValid(ctx) && ctx.quote.value.point > 0.0
    ensures var si := ctx.quote.value;
            var distance := Abs(FillPriceOf(ctx, si) - ctx.signal.stopLoss);
            JudgeSpread(ctx).Pass? <==>
            distance != 0.0 && 0.0 <= si.ask - si.bid <= Times(ctx.config.maxSpreadToStop, distance)
  {
    var si := ctx.quote.value;
    var pip := LotSizing.PipSize(si.point, si.digits);
    var distance := Abs(FillPriceOf(ctx, si) - ctx.signal.stopLoss);
    QuotientOrder(si.ask - si.bid, pip, 0.0);
    TimesUnit(pip);
    if distance > 0.0 {
      PipsCancel(si.ask - si.bid, distance, pip);
      QuotientOrder(si.ask - si.bid, distance, ctx.config.maxSpreadToStop);
    }
  }

  /** The safety stop is implied by the projection: one more stopped-out trade must stay within 95% of
      the budget. */
  lemma DailyLossPassesIff(cfg: Config, lossPct: real)
    requires cfg.maxDailyLossPct > 0.0
    ensures JudgeDailyLoss(cfg, lossPct).Pass? <==>
            lossPct + cfg.maxDailyLossPct / Slots(cfg) as real <= Times(cfg.maxDailyLossPct, 0.95)
  {
    var n := Slots(cfg) as real;
    QuotientOrder(cfg.maxDailyLossPct, n, 0.0);
    TimesUnit(n);
    TimesQuotient(cfg.maxDailyLossPct, n);
  }

  /** With no loss yet, the daily-loss rule lets a trade through exactly when the budget is split into
      at least two: a configured streak of one never trades. */
  lemma TradingNeedsTwoSlots(cfg: Config)
    requires cfg.maxDailyLossPct > 0.0
    ensures JudgeDailyLoss(cfg, 0.0).Pass? <==> cfg.maxLosingStreak >= 2
  {
    DailyLossPassesIff(cfg, 0.0);
    var b, n := cfg.maxDailyLossPct, Slots(cfg) as real;
    QuotientOrder(b, n, Times(b, 0.95));
    TimesUnit(b);
    TimesAssociates(b, 0.95, n);
    if cfg.maxLosingStreak >= 2 {
      TimesMonotone(1.0, Times(0.95, n), b);
    } else {
      TimesStrict(Times(0.95, n), 1.0, b);
    }
  }

  lemma NoSlotNeverTrades(rules: seq<Rule>, ctx: Context)
    requires DailyLossLimit in rules && ctx.config.maxLosingStreak <= 1
    requires ctx.config.maxDailyLossPct > 0.0 && ctx.dailyLossPct >= 0.0
    ensures Decide(rules, ctx).Rejected?
  {
    TradingNeedsTwoSlots(ctx.config);
    DailyLossPassesIff(ctx.config, 0.0);
    DailyLossPassesIff(ctx.config, ctx.dailyLossPct);
    RejectsIffSomeRuleDoes(rules, ctx);
  }

  lemma DriftPassesIff(ctx: Context)
    requires QuoteIsValid(ctx)
    ensures var risk := Abs(ctx.signal.entryPrice - ctx.signal.stopLoss);
            var drift := AdverseDrift(ctx, FillPriceOf(ctx, ctx.quote.value));
            JudgeDrift(ctx).Pass? <==>
            (ctx.config.driftEnabled && risk != 0.0 ==> Times(drift, 100.0) <= Times(ctx.config.maxDriftPct, risk))
  {
    var risk := Abs(ctx.signal.entryPrice - ctx.signal.stopLoss);
    var drift := AdverseDrift(ctx, FillPriceOf(ctx, ctx.quote.value));
    if risk != 0.0 {
      QuotientOrder(drift, risk, ctx.config.maxDriftPct / 100.0);
      TimesAssociates(100.0, ctx.config.maxDriftPct / 100.0, risk);
      assert Times(100.0, ctx.config.maxDriftPct / 100.0) == ctx.config.maxDriftPct;
    }
  }

  /** A limit signal is judged at its own level, so it never drifts. */
  lemma LimitSignalsNeverDrift(ctx: Context)
    requires QuoteIsValid(ctx) && ctx.isLimit && ctx.config.maxDriftPct >= 0.0
    ensures JudgeDrift(ctx).Pass?
  {
    DriftPassesIff(ctx);
    TimesUnit(100.0);
    TimesMonotone(0.0, ctx.config.maxDriftPct, Abs(ctx.signal.entryPrice - ctx.signal.stopLoss));
    TimesUnit(Abs(ctx.signal.entryPrice - ctx.signal.stopLoss));
  }

  lemma ShippedListHoldsEveryRule(rule: Rule)
    ensures rule in ALL_RULES
  {
    var i := match rule
      case LossGuard => 0 case ClusterRisk => 1 case ThrottleRisk => 2 case NoHedging => 3 case MaxOpenTrades => 4
      case MaxSymbolExposure => 5 case DuplicateSignal => 6 case DailyLossLimit => 7 case EntryDrift => 8
      case MinRr => 9 case SpreadQuality => 10;
    assert ALL_RULES[i] == rule;
  }

  lemma ApprovalPassesEveryRule(ctx: Context, rule: Rule)
    requires Decide(ALL_RULES, ctx).Approved?
    ensures Judge(rule, ctx).Pass?
  {
    RejectsIffSomeRuleDoes(ALL_RULES, ctx);
    ShippedListHoldsEveryRule(rule);
  }

  /** The price a signal would fill at lies strictly between stop and TP2, with reward, spread and drift
      in their bounds. */
  predicate QuoteAdmits(ctx: Context) {
    && ctx.quote.Some? && ctx.quote.value.ask > 0.0 && ctx.quote.value.bid > 0.0
    && var si, sig := ctx.quote.value, ctx.signal;
    var fill := if ctx.isLimit then sig.entryPrice else match sig.side case Buy => si.ask case Sell => si.bid;
    var risk, reward, planned := Gain(sig.side, sig.stopLoss, fill), Gain(sig.side, fill, sig.tp2), Abs(sig.entryPrice - sig.stopLoss);
    && risk > 0.0 && reward > 0.0 && reward >= Times(ctx.config.minRr, risk)
    && 0.0 <= si.ask - si.bid <= Times(ctx.config.maxSpreadToStop, risk)
    && (ctx.config.driftEnabled && planned != 0.0 && Gain(sig.side, sig.entryPrice, fill) > 0.0 ==>
          Times(Gain(sig.side, sig.entryPrice, fill), 100.0) <= Times(ctx.config.maxDriftPct, planned))
  }

  /** The trades already open admit the signal. */
  predicate BookAdmits(ctx: Context) {
    && (ctx.effectiveOpen < 1 || ctx.effectiveOpen < ctx.config.maxLosingStreak) && ctx.effectiveSymbol < ctx.config.maxExposurePerSymbol
    && forall t :: t in ctx.openTrades ==>
         && (ctx.config.noHedging && t.symbol == ctx.signal.symbol ==> t.side == ctx.signal.side)
         && (t.signalId == ctx.signal.id ==> t.signalId == "unknown")
  }

  /** What an approval by the shipped list means for the book. */
  lemma ApprovalMeans(ctx: Context)
    requires Decide(ALL_RULES, ctx).Approved?
    ensures !ctx.paused
    ensures ctx.effectiveOpen < Slots(ctx.config) && ctx.effectiveSymbol < ctx.config.maxExposurePerSymbol
    ensures ctx.config.noHedging ==> forall t :: t in ctx.openTrades ==> !IsConflict(ctx, t)
    ensures forall t :: t in ctx.openTrades ==> !IsDuplicate(ctx, t)
    ensures ctx.cluster.Some? ==> ctx.cluster.value.Approved?
    ensures JudgeDailyLoss(ctx.config, ctx.dailyLossPct).Pass? && JudgeDrift(ctx).Pass?
    ensures JudgeMinRr(ctx).Pass? && JudgeSpread(ctx).Pass?
  {
    forall rule: Rule ensures Judge(rule, ctx).Pass? {
      ApprovalPassesEveryRule(ctx, rule);
    }
    assert Judge(LossGuard, ctx).Pass? && Judge(ClusterRisk, ctx).Pass? && Judge(NoHedging, ctx).Pass?;
    assert Judge(MaxOpenTrades, ctx).Pass? && Judge(MaxSymbolExposure, ctx).Pass? && Judge(DuplicateSignal, ctx).Pass?;
    assert Judge(DailyLossLimit, ctx).Pass? && Judge(EntryDrift, ctx).Pass?;
    assert Judge(MinRr, ctx).Pass? && Judge(SpreadQuality, ctx).Pass?;
  }

  lemma QuoteAdmitsIff(ctx: Context)
    requires ctx.quote.Some? ==> ctx.quote.value.point > 0.0
    requires ctx.config.maxDriftPct >= 0.0
    ensures JudgeMinRr(ctx).Pass? && JudgeSpread(ctx).Pass? && JudgeDrift(ctx).Pass? <==> QuoteAdmits(ctx)
  {
    if QuoteIsValid(ctx) {
      MinRrPassesIff(ctx);
      SpreadPassesIff(ctx);
      DriftPassesIff(ctx);
      TimesUnit(100.0);
      TimesMonotone(0.0, ctx.config.maxDriftPct, Abs(ctx.signal.entryPrice - ctx.signal.stopLoss));
      TimesUnit(Abs(ctx.signal.entryPrice - ctx.signal.stopLoss));
    }
  }

  /** The shipped list approves exactly when nothing is paused, the cluster lets it through, the book and
      the quote admit it, and one more stopped-out trade stays within 95% of the daily limit. */
  lemma ApprovedIff(ctx: Context)
    requires ctx.quote.Some? ==> ctx.quote.value.point > 0.0
    requires ctx.config.maxDriftPct >= 0.0 && ctx.config.maxDailyLossPct > 0.0
    ensures Decide(ALL_RULES, ctx).Approved? <==>
      && !ctx.paused && (ctx.cluster.Some? ==> ctx.cluster.value.Approved?) && BookAdmits(ctx) && QuoteAdmits(ctx)
      && ctx.dailyLossPct + ctx.config.maxDailyLossPct / (if ctx.config.maxLosingStreak > 1 then ctx.config.maxLosingStreak else 1) as real
         <= Times(ctx.config.maxDailyLossPct, 0.95)
  {
    QuoteAdmitsIff(ctx);
    DailyLossPassesIff(ctx.config, ctx.dailyLossPct);
    RejectsIffSomeRuleDoes(ALL_RULES, ctx);
    if Decide(ALL_RULES, ctx).Approved? {
      ApprovalMeans(ctx);
    } else {
      var rule := FirstRejection(ALL_RULES, ctx).value;
      assert Judge(rule, ctx).Reject?;
    }
  }

  /** An approval with the drift rule on a planned risk reports the price the signal would fill at and how
      far that lies on the losing side of the entry, in price and in percent of the planned risk. */
  lemma ApprovalReportsTheDrift(ctx: Context)
    requires Decide(ALL_RULES, ctx).Approved? && ctx.signal.entryPrice != ctx.signal.stopLoss
    ensures ctx.quote.Some? && DriftPrice in Decide(ALL_RULES, ctx).data && DriftPct in Decide(ALL_RULES, ctx).data
    ensures FillPrice in Decide(ALL_RULES, ctx).data
    ensures var data, sig := Decide(ALL_RULES, ctx).data, ctx.signal;
            && data[FillPrice] == (if ctx.isLimit then sig.entryPrice else match sig.side case Buy => ctx.quote.value.ask case Sell => ctx.quote.value.bid)
            && data[DriftPrice] == Max(0.0, Gain(sig.side, sig.entryPrice, data[FillPrice]))
            && Times(data[DriftPct], Abs(sig.entryPrice - sig.stopLoss)) == Times(100.0, data[DriftPrice])
  {
    ApprovalPassesEveryRule(ctx, EntryDrift);
    ShippedListHoldsEveryRule(EntryDrift);
    GatheredLookup(ALL_RULES, ctx, DriftPrice);
    GatheredLookup(ALL_RULES, ctx, DriftPct);
    GatheredLookup(ALL_RULES, ctx, FillPrice);
    var risk, drift := Abs(ctx.signal.entryPrice - ctx.signal.stopLoss), AdverseDrift(ctx, FillPriceOf(ctx, ctx.quote.value));
    TimesQuotient(drift, risk);
    assert Times(drift / risk * 100.0, risk) == Times(100.0, Times(drift / risk, risk));
  }

  /** An approval at a reduced size reports the drawdown behind it. */
  lemma ApprovalReportsTheThrottle(ctx: Context)
    requires Decide(ALL_RULES, ctx).Approved? && ctx.throttle.Some?
    ensures ThrottleDrawdown in Decide(ALL_RULES, ctx).data <==> ctx.throttle.value.multiplier < 1.0
    ensures ctx.throttle.value.multiplier < 1.0 ==> Decide(ALL_RULES, ctx).data[ThrottleDrawdown] == ctx.throttle.value.drawdownR
  {
    ApprovalPassesEveryRule(ctx, ThrottleRisk);
    ShippedListHoldsEveryRule(ThrottleRisk);
    GatheredLookup(ALL_RULES, ctx, ThrottleDrawdown);
  }

  /** A paused tracker is what a rejection names, whatever else is wrong. */
  lemma PauseIsNamedFirst(ctx: Context)
    requires ctx.paused
    ensures Decide(ALL_RULES, ctx) == Rejected(LossGuard)
  {
    assert ALL_RULES[..0] == [];
    FirstRejectionIsFirst(ALL_RULES, ctx, 0);
  }
}
