/** Whole market-only days of the execution engine (src/execution/engine.py): signals handled one at a
    time, the risk rules, the planner, the market order loop and the in-memory store put together. The
    broker, the quotes, the trackers' previews and the order of events are arbitrary. */
module MarketRuns {
  import opened Basics
  import opened Products
  import LotSizing
  import Planner
  import OrderManager
  import RiskEngine
  import LossTracker
  import TierCap
  import ClusterTracker
  import EquityThrottle
  import EngineSlots
  import SlCascade
  import CloseRules

  datatype Settings = Settings(
    risk: RiskEngine.Config, loss: LossTracker.Config, exec: OrderManager.ExecConfig, adjustLevels: bool,
    tierThreshold: real, tierBasePct: real, tierFloorPct: real)

  /** An open trade: its fill, its stop at the broker and the one on record, the signal's entry and the
      planned stop that a breakeven move goes by, the spread surcharge sizing added, the distance sizing
      covered, the money value of one price unit per lot, and the quote it could have been closed at when
      it was admitted. */
  datatype Holding = Holding(
    trade: RiskEngine.OpenTrade, lots: real, fill: real, stop: real, recorded: real, signalEntry: real, planStop: real,
    surcharge: real, covered: real, valuePerPrice: real, exitQuote: real)

  datatype Book = Book(open: seq<Holding>, loss: LossTracker.State)

  /** The market order's outcome and log, and whether shifting the levels reached the broker. */
  datatype Answer = Answer(outcome: OrderManager.MarketOutcome, log: seq<OrderManager.Submission>, levelsSynced: bool)

  datatype Incoming = Incoming(
    signal: Planner.Signal, planConfig: Planner.PlanConfig, quote: LotSizing.SymbolInfo, dailyLossPct: real,
    cluster: Option<ClusterTracker.ClusterPreview>, throttle: Option<EquityThrottle.ThrottlePreview>,
    fromBroker: Option<real>, valuePerPrice: real, now: int, answer: Option<Answer>)

  datatype Event =
    | Execute(incoming: Incoming)
    | LossUpdate(update: LossTracker.Event)
    | CloseTrade(k: nat)
    | Reduce(k: nat, lots: real)
    | Cascade(k: nat, stop: real)
    | Breakeven(k: nat, config: CloseRules.BreakevenConfig, rules: CloseRules.StopRules, bid: real, ask: real)

  // ---------- Handling one signal ----------

  function Trades(open: seq<Holding>): seq<RiskEngine.OpenTrade> {
    seq(|open|, i requires 0 <= i < |open| => open[i].trade)
  }

  function OnSymbol(open: seq<Holding>, symbol: string): nat {
    if open == [] then 0
    else OnSymbol(open[..|open| - 1], symbol) + if open[|open| - 1].trade.symbol == symbol then 1 else 0
  }

  function ContextOf(s: Settings, book: Book, e: Incoming): RiskEngine.Context {
    RiskEngine.Context(
      e.signal, false, Trades(book.open), s.risk, e.dailyLossPct, |book.open|, OnSymbol(book.open, e.signal.symbol),
      Some(e.quote), LossTracker.IsPaused(book.loss, e.now), e.cluster, e.throttle)
  }

  /** A trade on the signal's symbol and side that price has not yet carried past its entry. */
  predicate Blocks(e: Incoming, h: Holding) {
    && h.trade.symbol == e.signal.symbol && h.trade.side == e.signal.side && h.trade.entryPrice.Some?
    && !(match e.signal.side
         case Buy => e.quote.bid > h.trade.entryPrice.value
         case Sell => e.quote.ask < h.trade.entryPrice.value)
  }

  predicate Admitted(s: Settings, book: Book, e: Incoming) {
    && (forall h :: h in book.open ==> h.trade.signalId != e.signal.id)
    && (forall h :: h in book.open ==> !Blocks(e, h))
    && RiskEngine.Decide(RiskEngine.ALL_RULES, ContextOf(s, book, e)).Approved?
  }

  function Base(s: Settings, book: Book): real {
    LossTracker.DailyRiskAmount(s.loss, book.loss, s.risk.maxLosingStreak)
  }

  function Ceiling(s: Settings, book: Book): real {
    TierCap.TierCapAmount(book.loss.startEquity, s.tierThreshold, s.tierBasePct, s.tierFloorPct)
  }

  function Multiplier(s: Settings, book: Book, e: Incoming): real
    requires Admitted(s, book, e)
  {
    RiskEngine.DecidedMultiplier(RiskEngine.Decide(RiskEngine.ALL_RULES, ContextOf(s, book, e)))
  }

  function PlanOf(s: Settings, book: Book, e: Incoming): Planner.TradePlan
    requires Admitted(s, book, e) && LotSizing.ValidSymbol(e.quote)
  {
    Planner.Plan(e.signal, e.quote, e.planConfig, Base(s, book), Ceiling(s, book), Multiplier(s, book, e), e.fromBroker)
  }

  predicate Fills(e: Incoming) {
    e.answer.Some? && e.answer.value.outcome.Filled? && e.answer.value.log != []
  }

  predicate ShiftsLevels(s: Settings, e: Incoming, fill: real) {
    s.adjustLevels && Abs(fill - e.signal.entryPrice) > 0.00000001
  }

  /** The trade recorded for a fill. Levels follow the fill only when configured and when it slipped, and
      at the broker only when it took the change. */
  function HoldingOf(s: Settings, e: Incoming): Holding
    requires Fills(e)
  {
    var sig, a := e.signal, e.answer.value;
    var fill, brokerStop := a.outcome.price, a.log[|a.log| - 1].sl;
    var shifted := sig.stopLoss + (fill - sig.entryPrice);
    var recorded := if ShiftsLevels(s, e, fill) then shifted else sig.stopLoss;
    Holding(RiskEngine.OpenTrade(sig.id, sig.symbol, sig.side, Some(fill)), a.outcome.volume, fill,
            if ShiftsLevels(s, e, fill) && a.levelsSynced then shifted else brokerStop, recorded, sig.entryPrice, recorded,
            Planner.Surcharge(e.quote, e.planConfig), Planner.SizingDistance(sig, e.quote, e.planConfig), e.valuePerPrice,
            if sig.side.Buy? then e.quote.bid else e.quote.ask)
  }

  function HandleSignal(s: Settings, book: Book, e: Incoming): Book {
    if Admitted(s, book, e) && Fills(e) then book.(open := book.open + [HoldingOf(s, e)]) else book
  }

  /** A stacked trade's stop follows a newer one only when that is more favourable. */
  function Cascaded(h: Holding, stop: real): Holding {
    if SlCascade.IsMoreFavorable(h.trade.side, stop, h.recorded) then h.(stop := stop, recorded := stop) else h
  }

  function AtBreakeven(h: Holding, cfg: CloseRules.BreakevenConfig, rules: CloseRules.StopRules, bid: real, ask: real): Holding {
    match CloseRules.ValidBreakevenStop(cfg, h.trade.side, h.signalEntry, h.planStop, rules, bid, ask)
    case None => h
    case Some(stop) => h.(stop := stop, recorded := stop)
  }

  function Changed(h: Holding, e: Event): Holding {
    match e
    case Reduce(_, lots) => h.(lots := lots)
    case Cascade(_, stop) => Cascaded(h, stop)
    case Breakeven(_, cfg, rules, bid, ask) => AtBreakeven(h, cfg, rules, bid, ask)
    case _ => h
  }

  function Apply(s: Settings, book: Book, e: Event): Book {
    match e
    case Execute(incoming) => HandleSignal(s, book, incoming)
    case LossUpdate(update) => book.(loss := LossTracker.Step(s.loss, book.loss, update))
    case CloseTrade(k) => if k < |book.open| then book.(open := book.open[..k] + book.open[k + 1..]) else book
    case _ => if e.k < |book.open| then book.(open := book.open[e.k := Changed(book.open[e.k], e)]) else book
  }

  function Run(s: Settings, book: Book, events: seq<Event>): Book {
    if events == [] then book else Apply(s, Run(s, book, events[..|events| - 1]), events[|events| - 1])
  }

  // ---------- The engine ----------

  lemma ReservingAndReleasingIsNeutral(symbol: string, id: string)
    ensures EngineSlots.Release(EngineSlots.Reserve(EngineSlots.FREE, symbol, id), symbol, id) == EngineSlots.FREE
  {
    var reserved := EngineSlots.Reserve(EngineSlots.FREE, symbol, id);
    assert reserved.counts - {symbol} == map[];
    assert reserved.ids - {id} == {};
  }

  /** One signal at a time, so no other signal is in flight when one is judged. */
  class ExecutionEngine {
    const settings: Settings
    const slots: EngineSlots.SlotTable
    var open: seq<Holding>

    constructor (settings: Settings)
      ensures this.settings == settings && open == []
      ensures fresh(slots) && slots.State() == EngineSlots.FREE
    {
      this.settings := settings;
      slots := new EngineSlots.SlotTable();
      open := [];
    }

    method HasSignal(id: string) returns (found: bool)
      ensures found <==> exists h :: h in open && h.trade.signalId == id
    {
      for i := 0 to |open|
        invariant forall j :: 0 <= j < i ==> open[j].trade.signalId != id
      {
        if open[i].trade.signalId == id {
          assert open[i] in open;
          return true;
        }
      }
      return false;
    }

    method FirstBlocking(e: Incoming) returns (k: Option<nat>)
      ensures k.None? <==> forall h :: h in open ==> !Blocks(e, h)
      ensures k.Some? ==> k.value < |open| && Blocks(e, open[k.value]) && forall j :: 0 <= j < k.value ==> !Blocks(e, open[j])
    {
      for i := 0 to |open|
        invariant forall j :: 0 <= j < i ==> !Blocks(e, open[j])
      {
        if Blocks(e, open[i]) {
          assert open[i] in open;
          return Some(i);
        }
      }
      return None;
    }

    method Execute(e: Incoming, loss: LossTracker.State) returns (placed: bool)
      requires slots.State() == EngineSlots.FREE
      modifies this`open, slots
      ensures open == HandleSignal(settings, Book(old(open), loss), e).open
      ensures placed <==> Admitted(settings, Book(old(open), loss), e) && Fills(e)
      ensures slots.State() == EngineSlots.FREE
    {
      var duplicate := HasSignal(e.signal.id);
      var blocking := FirstBlocking(e);
      if duplicate || blocking.Some? {
        return false;
      }
      var decision := RiskEngine.Evaluate(RiskEngine.ALL_RULES, ContextOf(settings, Book(open, loss), e));
      if !decision.Approved? {
        return false;
      }
      slots.ReserveSlot(e.signal.symbol, e.signal.id);
      placed := Fills(e);
      if placed {
        open := open + [HoldingOf(settings, e)];
      }
      slots.ReleaseSlot(e.signal.symbol, e.signal.id);
      ReservingAndReleasingIsNeutral(e.signal.symbol, e.signal.id);
    }
  }

  // ---------- What the decisions mean ----------

  /** A same-side trade on the symbol blocks exactly when closing it at the quote would not be a profit. */
  lemma BlocksIff(e: Incoming, h: Holding)
    ensures Blocks(e, h) <==>
      && h.trade.symbol == e.signal.symbol && h.trade.side == e.signal.side && h.trade.entryPrice.Some?
      && Gain(h.trade.side, h.trade.entryPrice.value, if h.trade.side.Buy? then e.quote.bid else e.quote.ask) <= 0.0
  {
  }

  /** The count per symbol is the number of open trades on it. */
  lemma {:induction false} OnSymbolCounts(open: seq<Holding>, symbol: string)
    ensures OnSymbol(open, symbol) == |set i | 0 <= i < |open| && open[i].trade.symbol == symbol|
  {
    var here := set i | 0 <= i < |open| && open[i].trade.symbol == symbol;
    if open != [] {
      var front, last := open[..|open| - 1], |open| - 1;
      var before := set i | 0 <= i < |front| && front[i].trade.symbol == symbol;
      OnSymbolCounts(front, symbol);
      if open[last].trade.symbol == symbol {
        assert here == before + {last};
      } else {
        assert here == before;
      }
    }
  }

  /** The recorded stop keeps the signal's distance from a slipped fill when levels follow it, and is the
      signal's otherwise; the broker's is the recorded one when it took that change, else the submitted one. */
  lemma RecordedStopIs(s: Settings, e: Incoming)
    requires Fills(e)
    ensures var h := HoldingOf(s, e);
            && h.fill == e.answer.value.outcome.price && h.lots == e.answer.value.outcome.volume
            && (if s.adjustLevels && (h.fill - e.signal.entryPrice > 0.00000001 || e.signal.entryPrice - h.fill > 0.00000001)
                then Gain(e.signal.side, h.recorded, h.fill) == Gain(e.signal.side, e.signal.stopLoss, e.signal.entryPrice)
                else h.recorded == e.signal.stopLoss)
            && h.stop == if e.answer.value.levelsSynced && h.recorded != e.signal.stopLoss then h.recorded
                         else e.answer.value.log[|e.answer.value.log| - 1].sl
  {
  }

  /** The stop events of a run are those of the cascade and of the breakeven move. */
  lemma StopEventsIff(h: Holding, stop: real, cfg: CloseRules.BreakevenConfig, rules: CloseRules.StopRules, bid: real, ask: real)
    ensures var cascaded := Cascaded(h, stop);
            && (cascaded != h ==> Gain(h.trade.side, h.recorded, stop) > 0.0 && cascaded == h.(stop := stop, recorded := stop))
            && (Gain(h.trade.side, h.recorded, stop) > 0.0 ==> cascaded.recorded == cascaded.stop == stop)
    ensures var moved := AtBreakeven(h, cfg, rules, bid, ask);
            if CloseRules.BreakevenHasRoom(cfg, h.trade.side, h.signalEntry, h.planStop, rules, bid, ask) then
              && moved == h.(stop := moved.stop, recorded := moved.stop)
              && Gain(h.trade.side, h.signalEntry, moved.stop) == CloseRules.Buffer(cfg, h.signalEntry, h.planStop, bid, ask)
            else moved == h
  {
    CloseRules.BreakevenStopIff(cfg, h.trade.side, h.signalEntry, h.planStop, rules, bid, ask);
  }

  // ---------- Store invariants: nothing is assumed of the events ----------

  predicate SameTrades(a: seq<Holding>, b: seq<Holding>) {
    |a| == |b| && forall i :: 0 <= i < |a| ==> a[i].trade == b[i].trade
  }

  ghost predicate StoreInv(s: Settings, open: seq<Holding>) {
    && |open| <= RiskEngine.Slots(s.risk)
    && (forall symbol: string :: OnSymbol(open, symbol) == 0 || OnSymbol(open, symbol) <= s.risk.maxExposurePerSymbol)
    && (forall i, j :: 0 <= i < j < |open| ==> open[i].trade.signalId != open[j].trade.signalId)
    && (s.risk.noHedging ==>
        forall i, j :: 0 <= i < j < |open| && open[i].trade.symbol == open[j].trade.symbol ==>
          open[i].trade.side == open[j].trade.side)
  }

  lemma {:induction false} CountsFollowTrades(a: seq<Holding>, b: seq<Holding>, symbol: string)
    requires SameTrades(a, b)
    ensures OnSymbol(a, symbol) == OnSymbol(b, symbol)
  {
    if a != [] {
      CountsFollowTrades(a[..|a| - 1], b[..|b| - 1], symbol);
    }
  }

  lemma StoreInvFollowsTrades(s: Settings, a: seq<Holding>, b: seq<Holding>)
    requires StoreInv(s, a) && SameTrades(a, b)
    ensures StoreInv(s, b)
  {
    forall symbol: string
      ensures OnSymbol(b, symbol) == 0 || OnSymbol(b, symbol) <= s.risk.maxExposurePerSymbol
    {
      CountsFollowTrades(a, b, symbol);
    }
  }

  lemma {:induction false} ClosingLowersCounts(open: seq<Holding>, k: nat, symbol: string)
    requires k < |open|
    ensures OnSymbol(open[..k] + open[k + 1..], symbol) <= OnSymbol(open, symbol)
  {
    var rest, front := open[..k] + open[k + 1..], open[..|open| - 1];
    if k == |open| - 1 {
      assert rest == front;
    } else {
      assert rest[..|rest| - 1] == front[..k] + front[k + 1..];
      assert rest[|rest| - 1] == open[|open| - 1];
      ClosingLowersCounts(front, k, symbol);
    }
  }

  lemma StoreInvSurvivesClose(s: Settings, open: seq<Holding>, k: nat)
    requires StoreInv(s, open) && k < |open|
    ensures StoreInv(s, open[..k] + open[k + 1..])
  {
    var rest := open[..k] + open[k + 1..];
    forall symbol: string
      ensures OnSymbol(rest, symbol) == 0 || OnSymbol(rest, symbol) <= s.risk.maxExposurePerSymbol
    {
      ClosingLowersCounts(open, k, symbol);
    }
  }

  lemma StoreInvSurvivesAdmission(s: Settings, book: Book, e: Incoming)
    requires StoreInv(s, book.open) && Admitted(s, book, e) && Fills(e)
    ensures StoreInv(s, book.open + [HoldingOf(s, e)])
  {
    var added := HoldingOf(s, e);
    var open := book.open + [added];
    var ctx := ContextOf(s, book, e);
    RiskEngine.ApprovalMeans(ctx);
    forall symbol: string
      ensures OnSymbol(open, symbol) == 0 || OnSymbol(open, symbol) <= s.risk.maxExposurePerSymbol
    {
      assert open[..|open| - 1] == book.open;
      assert open[|open| - 1].trade.symbol == e.signal.symbol;
    }
    if s.risk.noHedging {
      forall i | 0 <= i < |book.open| && book.open[i].trade.symbol == e.signal.symbol
        ensures book.open[i].trade.side == e.signal.side
      {
        assert Trades(book.open)[i] == book.open[i].trade;
        assert !RiskEngine.IsConflict(ctx, book.open[i].trade);
      }
    }
  }

  lemma StoreInvSurvivesStep(s: Settings, book: Book, e: Event)
    requires StoreInv(s, book.open)
    ensures StoreInv(s, Apply(s, book, e).open)
  {
    match e
    case Execute(incoming) =>
      if Admitted(s, book, incoming) && Fills(incoming) {
        StoreInvSurvivesAdmission(s, book, incoming);
      }
    case LossUpdate(_) =>
    case CloseTrade(k) =>
      if k < |book.open| {
        StoreInvSurvivesClose(s, book.open, k);
      }
    case _ => StoreInvFollowsTrades(s, book.open, Apply(s, book, e).open);
  }

  lemma EmptyStoreIsFine(s: Settings)
    ensures StoreInv(s, [])
  {
  }

  /** In every market-only run: at most `max(1, streak)` trades, at most the limit per symbol, no two
      with one signal id, and with hedging off never two sides of one symbol. */
  lemma {:induction false} StoreStaysWithinLimits(s: Settings, loss: LossTracker.State, events: seq<Event>)
    ensures StoreInv(s, Run(s, Book([], loss), events).open)
  {
    if events == [] {
      EmptyStoreIsFine(s);
    } else {
      StoreStaysWithinLimits(s, loss, events[..|events| - 1]);
      StoreInvSurvivesStep(s, Run(s, Book([], loss), events[..|events| - 1]), events[|events| - 1]);
    }
  }

  /** Each trade was opened while every earlier one on its symbol and side that is still open was in
      profit. */
  ghost predicate StackedInProfit(open: seq<Holding>) {
    && (forall i :: 0 <= i < |open| ==> open[i].trade.entryPrice == Some(open[i].fill))
    && (forall i, j :: 0 <= i < j < |open| && open[i].trade.symbol == open[j].trade.symbol && open[i].trade.side == open[j].trade.side ==>
          Gain(open[i].trade.side, open[i].fill, open[j].exitQuote) > 0.0)
  }

  lemma AdmissionStacksInProfit(s: Settings, book: Book, e: Incoming)
    requires StackedInProfit(book.open)
    ensures StackedInProfit(HandleSignal(s, book, e).open)
  {
    if Admitted(s, book, e) && Fills(e) {
      forall i | 0 <= i < |book.open| && book.open[i].trade.symbol == e.signal.symbol && book.open[i].trade.side == e.signal.side
        ensures Gain(e.signal.side, book.open[i].fill, HoldingOf(s, e).exitQuote) > 0.0
      {
        assert book.open[i] in book.open && !Blocks(e, book.open[i]);
      }
    }
  }

  /** Compounding needs profit: in every market-only run, of any two open trades on one symbol and side
      the earlier was in profit when the later was admitted. */
  lemma {:induction false} StackedTradesWereInProfit(s: Settings, loss: LossTracker.State, events: seq<Event>)
    ensures StackedInProfit(Run(s, Book([], loss), events).open)
  {
    if events != [] {
      var book, e := Run(s, Book([], loss), events[..|events| - 1]), events[|events| - 1];
      StackedTradesWereInProfit(s, loss, events[..|events| - 1]);
      match e
      case Execute(incoming) => AdmissionStacksInProfit(s, book, incoming);
      case LossUpdate(_) =>
      case CloseTrade(_) =>
      case _ =>
    }
  }

  // ---------- Pauses ----------

  predicate UpdatesWithin(events: seq<Event>, day: int) {
    forall e :: e in events && e.LossUpdate? ==> LossTracker.DayOf(e.update.now) == day
  }

  lemma {:induction false} PauseOutlastsTheRun(s: Settings, book: Book, events: seq<Event>, day: int)
    requires day >= 0 && LossTracker.InDay(book.loss, day) && book.loss.pausedUntil == LossTracker.DayEnd(day)
    requires UpdatesWithin(events, day)
    ensures LossTracker.InDay(Run(s, book, events).loss, day) && Run(s, book, events).loss.pausedUntil == LossTracker.DayEnd(day)
  {
    if events != [] {
      var front, e := events[..|events| - 1], events[|events| - 1];
      assert e in events && forall d :: d in front ==> d in events;
      PauseOutlastsTheRun(s, book, front, day);
      if e.LossUpdate? {
        LossTracker.StepStaysInDay(s.loss, Run(s, book, front).loss, e.update, day);
      }
    }
  }

  /** Once any guard has fired, no signal is admitted for the rest of the day, whatever else happens. */
  lemma GuardStopsTheDay(s: Settings, book: Book, firing: LossTracker.Event, events: seq<Event>, e: Incoming, day: int)
    requires day >= 0 && LossTracker.InDay(book.loss, day) && LossTracker.DayOf(firing.now) == day
    requires LossTracker.GuardFires(s.loss, book.loss, firing)
    requires UpdatesWithin(events, day) && LossTracker.DayOf(e.now) == day
    ensures var now := Run(s, Apply(s, book, LossUpdate(firing)), events);
            !Admitted(s, now, e) && HandleSignal(s, now, e) == now
  {
    var paused := Apply(s, book, LossUpdate(firing));
    LossTracker.StepStaysInDay(s.loss, book.loss, firing, day);
    PauseOutlastsTheRun(s, paused, events, day);
    var now := Run(s, paused, events);
    LossTracker.InsideDay(e.now);
    if Admitted(s, now, e) {
      RiskEngine.ApprovalMeans(ContextOf(s, now, e));
    }
  }

  // ---------- Worst-case loss ----------

  predicate ValidSettings(s: Settings) {
    && s.loss.limitPct >= 0.0 && s.exec.closeOnSlippageExceed && s.exec.maxSlippagePctOfStop >= 0.0
  }

  /** The conditions of the budget claim on a signal that becomes a trade: levels a validated signal
      has, configuration in range, sizing that needs no clamp up to the minimum lot, no stop widening,
      and a broker that fills at most what was asked. */
  ghost predicate Sized(s: Settings, book: Book, e: Incoming)
    requires Admitted(s, book, e) && Fills(e)
  {
    && LotSizing.ValidSymbol(e.quote) && Planner.ValidPlanConfig(e.planConfig)
    && e.planConfig.maxSlippagePctOfStop == s.exec.maxSlippagePctOfStop
    && e.planConfig.symbolMultiplier <= 1.0 && e.quote.lotMin <= e.planConfig.minLot
    && Planner.StopDistance(e.signal.side, e.signal.entryPrice, e.signal.stopLoss) > 0.0
    && Planner.PricedLinearly(e.signal, e.quote, e.planConfig, e.fromBroker, e.valuePerPrice)
    && Times(Planner.SizingDistance(e.signal, e.quote, e.planConfig), e.valuePerPrice) != 0.0
    && Planner.RawLots(e.signal, e.quote, e.planConfig, Base(s, book), Ceiling(s, book), Multiplier(s, book, e), e.valuePerPrice)
       >= e.planConfig.minLot
    && var a, plan := e.answer.value, PlanOf(s, book, e);
    && OrderManager.MarketRecord(plan, e.quote, s.exec, Some(plan.tp2), a.outcome, a.log)
    && (forall sub :: sub in a.log ==> !OrderManager.RejectedWith(sub, OrderManager.INVALID_STOPS))
    && 0.0 <= a.outcome.volume <= a.log[|a.log| - 1].volume
  }

  /** Updates fall into the day and partial closes only reduce. */
  ghost predicate Allowed(s: Settings, book: Book, e: Event, day: int) {
    match e
    case Execute(incoming) => Admitted(s, book, incoming) && Fills(incoming) ==> Sized(s, book, incoming)
    case LossUpdate(update) => LossTracker.DayOf(update.now) == day
    case Reduce(k, lots) => k < |book.open| ==> 0.0 <= lots <= book.open[k].lots
    case _ => true
  }

  ghost predicate AllowedRun(s: Settings, book: Book, events: seq<Event>, day: int) {
    events != [] ==>
      AllowedRun(s, book, events[..|events| - 1], day)
      && Allowed(s, Run(s, book, events[..|events| - 1]), events[|events| - 1], day)
  }

  /** What a stop-out at `stop` costs per unit, spread surcharge included. */
  function DistanceTo(h: Holding, stop: real): real {
    Planner.StopDistance(h.trade.side, h.fill, stop) + h.surcharge
  }

  /** What the trade costs if it is stopped out. */
  function WorstCase(h: Holding): real {
    Planner.WorstLoss(h.lots, DistanceTo(h, h.stop), h.valuePerPrice)
  }

  function Exposure(open: seq<Holding>): real {
    if open == [] then 0.0 else Exposure(open[..|open| - 1]) + WorstCase(open[|open| - 1])
  }

  /** The trade stays inside what it was sized for, and that inside `base`. */
  predicate Fits(h: Holding, base: real) {
    && h.lots >= 0.0 && h.valuePerPrice > 0.0 && h.covered > 0.0
    && DistanceTo(h, h.stop) <= h.covered && DistanceTo(h, h.recorded) <= h.covered && DistanceTo(h, h.signalEntry) <= h.covered
    && Planner.WorstLoss(h.lots, h.covered, h.valuePerPrice) <= base
  }

  /** The two stop moves the engine makes stay inside what the trade was sized for. */
  lemma CascadedTradeFits(h: Holding, stop: real, base: real)
    requires Fits(h, base)
    ensures Fits(Cascaded(h, stop), base)
  {
  }

  lemma BreakevenTradeFits(
    h: Holding, cfg: CloseRules.BreakevenConfig, rules: CloseRules.StopRules, bid: real, ask: real, base: real)
    requires Fits(h, base)
    ensures Fits(AtBreakeven(h, cfg, rules, bid, ask), base)
  {
    if CloseRules.ValidBreakevenStop(cfg, h.trade.side, h.signalEntry, h.planStop, rules, bid, ask).Some? {
      CloseRules.BreakevenKeepsTheEntry(cfg, h.trade.side, h.signalEntry, h.planStop, rules, bid, ask);
    }
  }

  predicate AllFit(open: seq<Holding>, base: real) {
    forall h :: h in open ==> Fits(h, base)
  }

  lemma FittingTradeCostsAtMostBase(h: Holding, base: real)
    requires Fits(h, base)
    ensures WorstCase(h) <= base
  {
    TimesMonotone(DistanceTo(h, h.stop), h.covered, h.valuePerPrice);
    TimesMonotone(Times(DistanceTo(h, h.stop), h.valuePerPrice), Times(h.covered, h.valuePerPrice), h.lots);
  }

  lemma SmallerTradeFits(h: Holding, lots: real, base: real)
    requires Fits(h, base) && 0.0 <= lots <= h.lots
    ensures Fits(h.(lots := lots), base)
  {
    TimesPositive(h.covered, h.valuePerPrice);
    TimesMonotone(lots, h.lots, Times(h.covered, h.valuePerPrice));
  }

  lemma FilledStopIsCovered(s: Settings, book: Book, e: Incoming)
    requires ValidSettings(s) && Admitted(s, book, e) && Fills(e) && Sized(s, book, e)
    requires PlanOf(s, book, e).lotSize >= e.quote.lotMin
    ensures var h := HoldingOf(s, e);
            DistanceTo(h, h.stop) <= h.covered && DistanceTo(h, h.recorded) <= h.covered && DistanceTo(h, h.signalEntry) <= h.covered
    ensures HoldingOf(s, e).lots <= PlanOf(s, book, e).lotSize
  {
    var a, plan := e.answer.value, PlanOf(s, book, e);
    OrderManager.ReturnedFillIsCovered(plan, e.quote, s.exec, Some(plan.tp2), a.outcome, a.log);
    OrderManager.StopsStayUnlessRejected(plan.side, e.quote, a.log, |a.log| - 1);
    Planner.AcceptedFillsAreCovered(e.signal, e.quote, e.planConfig, a.outcome.price);
    Planner.ShiftedLevelsAreCovered(e.signal, e.quote, e.planConfig, a.outcome.price);
  }

  lemma PlannedLotsReachMinimum(s: Settings, book: Book, e: Incoming)
    requires Admitted(s, book, e) && Fills(e) && Sized(s, book, e)
    ensures PlanOf(s, book, e).lotSize >= e.quote.lotMin
  {
    var risk := Planner.RiskAmount(Base(s, book), Multiplier(s, book, e), e.planConfig, Ceiling(s, book));
    var loss := Times(Planner.SizingDistance(e.signal, e.quote, e.planConfig), e.valuePerPrice);
    LotSizing.NormalisedLotsFitIff(risk / loss, e.quote.lotStep, e.planConfig.minLot, Min(e.planConfig.maxLot, e.quote.lotMax));
  }

  lemma AdmittedTradeFits(s: Settings, book: Book, e: Incoming)
    requires ValidSettings(s) && Admitted(s, book, e) && Fills(e) && Sized(s, book, e) && Base(s, book) >= 0.0
    ensures Fits(HoldingOf(s, e), Base(s, book))
  {
    PlannedLotsReachMinimum(s, book, e);
    FilledStopIsCovered(s, book, e);
    var covered := Planner.SizingDistance(e.signal, e.quote, e.planConfig);
    Planner.PlanStaysWithinRisk(e.signal, e.quote, e.planConfig, Base(s, book), Ceiling(s, book), Multiplier(s, book, e),
                                e.fromBroker, e.valuePerPrice, covered, e.answer.value.outcome.volume);
    Planner.RiskAmountWithinBase(Base(s, book), Multiplier(s, book, e), e.planConfig, Ceiling(s, book));
  }

  /** The decided multiplier and the tiered ceiling reach the trade: being stopped out of it costs at most
      that share of the base amount, and at most the ceiling for the day's start equity. */
  lemma AdmittedTradeCostsItsShare(s: Settings, book: Book, e: Incoming)
    requires ValidSettings(s) && Admitted(s, book, e) && Fills(e) && Sized(s, book, e) && Base(s, book) >= 0.0
    requires 0.0 <= Multiplier(s, book, e) <= 1.0
    ensures WorstCase(HoldingOf(s, e)) <= Times(Base(s, book), Multiplier(s, book, e))
    ensures WorstCase(HoldingOf(s, e)) <= TierCap.TierCapAmount(book.loss.startEquity, s.tierThreshold, s.tierBasePct, s.tierFloorPct)
  {
    PlannedLotsReachMinimum(s, book, e);
    FilledStopIsCovered(s, book, e);
    var h, share := HoldingOf(s, e), Times(Base(s, book), Multiplier(s, book, e));
    Planner.PlanStaysWithinRisk(e.signal, e.quote, e.planConfig, Base(s, book), Ceiling(s, book), Multiplier(s, book, e),
                                e.fromBroker, e.valuePerPrice, DistanceTo(h, h.stop), h.lots);
    Planner.PlannedRiskIff(e.signal, e.quote, e.planConfig, Base(s, book), Ceiling(s, book), Multiplier(s, book, e), e.fromBroker);
    TimesMonotone(0.0, Multiplier(s, book, e), Base(s, book));
    TimesUnit(Base(s, book));
    TimesMonotone(e.planConfig.symbolMultiplier, 1.0, share);
    TimesUnit(share);
  }

  lemma BaseIsNonNegative(s: Settings, book: Book)
    requires s.loss.limitPct >= 0.0
    ensures Base(s, book) >= 0.0
  {
    if book.loss.startEquity > 0.0 {
      TimesMonotone(0.0, s.loss.limitPct / 100.0, book.loss.startEquity);
      TimesUnit(book.loss.startEquity);
      var n := RiskEngine.Slots(s.risk) as real;
      TimesUnit(n);
      QuotientOrder(Times(book.loss.startEquity, s.loss.limitPct / 100.0), n, 0.0);
    }
  }

  /** Within the day the base amount is either what it was or grows from zero. */
  lemma BaseNeverShrinks(s: Settings, book: Book, update: LossTracker.Event, day: int)
    requires ValidSettings(s) && LossTracker.InDay(book.loss, day) && LossTracker.DayOf(update.now) == day
    ensures Base(s, book) <= Base(s, Apply(s, book, LossUpdate(update)))
  {
    BaseIsNonNegative(s, Apply(s, book, LossUpdate(update)));
  }

  lemma FitsAfterChange(open: seq<Holding>, k: nat, changed: Holding, base: real)
    requires AllFit(open, base) && k < |open| && Fits(changed, base)
    ensures AllFit(open[k := changed], base)
  {
  }

  lemma FitsAfterClose(open: seq<Holding>, k: nat, base: real)
    requires AllFit(open, base) && k < |open|
    ensures AllFit(open[..k] + open[k + 1..], base)
  {
  }

  lemma ChangedTradeFits(h: Holding, e: Event, base: real)
    requires Fits(h, base) && (e.Reduce? ==> 0.0 <= e.lots <= h.lots)
    ensures Fits(Changed(h, e), base)
  {
    match e
    case Reduce(_, lots) => SmallerTradeFits(h, lots, base);
    case Cascade(_, stop) => CascadedTradeFits(h, stop, base);
    case Breakeven(_, cfg, rules, bid, ask) => BreakevenTradeFits(h, cfg, rules, bid, ask, base);
    case _ =>
  }

  lemma FitsAfterStep(s: Settings, book: Book, e: Event, day: int)
    requires ValidSettings(s) && day >= 0 && LossTracker.InDay(book.loss, day) && Allowed(s, book, e, day)
    requires AllFit(book.open, Base(s, book))
    ensures AllFit(Apply(s, book, e).open, Base(s, Apply(s, book, e)))
    ensures LossTracker.InDay(Apply(s, book, e).loss, day)
  {
    match e
    case Execute(incoming) =>
      if Admitted(s, book, incoming) && Fills(incoming) {
        BaseIsNonNegative(s, book);
        AdmittedTradeFits(s, book, incoming);
      }
    case LossUpdate(update) =>
      LossTracker.StepStaysInDay(s.loss, book.loss, update, day);
      BaseNeverShrinks(s, book, update, day);
    case CloseTrade(k) =>
      if k < |book.open| {
        FitsAfterClose(book.open, k, Base(s, book));
      }
    case _ =>
      if e.k < |book.open| {
        assert book.open[e.k] in book.open;
        ChangedTradeFits(book.open[e.k], e, Base(s, book));
        FitsAfterChange(book.open, e.k, Changed(book.open[e.k], e), Base(s, book));
      }
  }

  lemma {:induction false} ExposureIsBounded(open: seq<Holding>, base: real)
    requires AllFit(open, base)
    ensures Exposure(open) <= Times(base, |open| as real)
  {
    TimesUnit(base);
    if open != [] {
      var front := open[..|open| - 1];
      assert open[|open| - 1] in open;
      ExposureIsBounded(front, base);
      FittingTradeCostsAtMostBase(open[|open| - 1], base);
      TimesDistributes(|front| as real, 1.0, base);
      assert |open| as real == |front| as real + 1.0;
    }
  }

  lemma {:induction false} RunKeepsFit(s: Settings, loss: LossTracker.State, events: seq<Event>, day: int)
    requires ValidSettings(s) && day >= 0 && LossTracker.InDay(loss, day) && AllowedRun(s, Book([], loss), events, day)
    ensures var book := Run(s, Book([], loss), events);
            AllFit(book.open, Base(s, book)) && LossTracker.InDay(book.loss, day)
  {
    if events != [] {
      RunKeepsFit(s, loss, events[..|events| - 1], day);
      FitsAfterStep(s, Run(s, Book([], loss), events[..|events| - 1]), events[|events| - 1], day);
    }
  }

  /** At every moment of every market-only run within one latched day, being stopped out of all open
      trades together costs at most the daily budget: start equity times the daily limit. */
  lemma WorstCaseLossFitsTheDailyBudget(s: Settings, loss: LossTracker.State, events: seq<Event>, day: int)
    requires ValidSettings(s) && day >= 0 && LossTracker.InDay(loss, day) && AllowedRun(s, Book([], loss), events, day)
    ensures var book := Run(s, Book([], loss), events);
            Exposure(book.open) <= Times(Max(0.0, book.loss.startEquity), s.loss.limitPct / 100.0)
  {
    var book := Run(s, Book([], loss), events);
    RunKeepsFit(s, loss, events, day);
    StoreStaysWithinLimits(s, loss, events);
    ExposureIsBounded(book.open, Base(s, book));
    BaseIsNonNegative(s, book);
    TimesMonotone(|book.open| as real, RiskEngine.Slots(s.risk) as real, Base(s, book));
    if book.loss.startEquity > 0.0 {
      LossTracker.SlotsShareTheBudget(s.loss, book.loss, s.risk.maxLosingStreak);
    } else {
      TimesUnit(RiskEngine.Slots(s.risk) as real);
      TimesUnit(s.loss.limitPct / 100.0);
    }
  }
}
