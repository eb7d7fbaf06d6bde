/** The poll that follows every open trade to its close, and the store it works on
    (src/positions/manager.py, src/positions/store.py). */
module PositionManager {
  import opened Basics
  import opened CloseRules
  import TradeContribution

  datatype Status = Open | PartiallyClosed | Closed

  datatype Trade = Trade(
    id: string, stub: bool, ticket: int, side: Side,
    signalEntry: real, entryPrice: real, planStop: real, stop: real, tp1: real, tp2: real,
    entryLots: real, currentLots: real, tp1Lots: real, tp1Hit: bool, tp2Hit: bool, status: Status)

  datatype Position = Position(ticket: int, side: Side, openPrice: real, stop: real, target: real, lots: real, price: real)

  /** What the trade loop does to the outside: broker calls that succeeded and events emitted. */
  datatype Kind = Entered | LotsClosed | StopMoved | Tp1Emitted | Tp2Emitted | SlEmitted | ClosedEmitted

  datatype Entry = Entry(kind: Kind, id: string, lots: real, closing: Option<Closing>)

  datatype State = State(store: map<string, Trade>, misses: map<string, nat>, lastPrice: map<int, real>, log: seq<Entry>)

  const EMPTY := State(map[], map[], map[], [])

  datatype Config = Config(moveStopToBreakeven: bool, breakeven: BreakevenConfig)

  datatype Tick = Tick(bid: real, ask: real)

  /** The broker's answers while one trade is handled; `None` and `false` stand for a failed call.
      Symbol rules and tick are asked again when the first attempt did not get them. */
  datatype Answers = Answers(
    rules: Option<StopRules>, tick: Option<Tick>, closeOk: bool,
    rulesAgain: Option<StopRules>, tickAgain: Option<Tick>, modifyOk: bool, deal: Option<Deal>)

  const STUB_MISS_LIMIT := 3

  // ---------- Specification ----------

  function Emit(m: State, kind: Kind, id: string, lots: real): State {
    m.(log := m.log + [Entry(kind, id, lots, None)])
  }

  predicate PartialCloses(t: Trade, a: Answers) {
    t.tp1Lots > 0.0 && a.rules.Some? && a.tick.Some? && a.closeOk
  }

  datatype Breakeven = Moved(stop: real) | Deferred | NotMoved

  function RulesInHand(t: Trade, a: Answers): Option<StopRules> {
    if t.tp1Lots > 0.0 && a.rules.Some? then a.rules else a.rulesAgain
  }

  function TickInHand(t: Trade, a: Answers): Option<Tick> {
    if t.tp1Lots > 0.0 && a.rules.Some? && a.tick.Some? then a.tick else a.tickAgain
  }

  function TryBreakeven(cfg: Config, t: Trade, a: Answers): Breakeven {
    var rules, tick := RulesInHand(t, a), TickInHand(t, a);
    if !cfg.moveStopToBreakeven || rules.None? || tick.None? then NotMoved
    else match ValidBreakevenStop(cfg.breakeven, t.side, t.signalEntry, t.planStop, rules.value, tick.value.bid, tick.value.ask)
      case None => Deferred
      case Some(stop) => if a.modifyOk then Moved(stop) else NotMoved
  }

  function AfterTp1(cfg: Config, t: Trade, a: Answers): Trade {
    var be := TryBreakeven(cfg, t, a);
    t.(tp1Hit := true,
       currentLots := if PartialCloses(t, a) then t.currentLots - t.tp1Lots else t.currentLots,
       status := if PartialCloses(t, a) then PartiallyClosed else t.status,
       stop := match be case Moved(stop) => stop case _ => t.stop)
  }

  predicate Tp1Waits(cfg: Config, t: Trade, a: Answers) {
    !PartialCloses(t, a) && TryBreakeven(cfg, t, a).Deferred?
  }

  /** Books a handled TP1: the lots taken, the stop moved, the trade updated, the event emitted. */
  function BookTp1(m: State, t: Trade, after: Trade, partial: bool, moved: bool): State {
    var m1 := if partial then Emit(m, LotsClosed, t.id, t.tp1Lots) else m;
    var m2 := if moved then Emit(m1, StopMoved, t.id, 0.0) else m1;
    if t.id in m2.store then Emit(m2.(store := m2.store[t.id := after]), Tp1Emitted, t.id, 0.0) else m2
  }

  function HandleTp1(cfg: Config, m: State, t: Trade, a: Answers): State {
    if Tp1Waits(cfg, t, a) then m
    else BookTp1(m, t, AfterTp1(cfg, t, a), PartialCloses(t, a), TryBreakeven(cfg, t, a).Moved?)
  }

  function ClosingOf(m: State, t: Trade, a: Answers): Closing {
    if t.stub then Closing(ClosedWhileDown, None, None)
    else
      CloseOf(t.side, t.entryPrice, t.planStop, t.stop, t.tp2,
              if t.ticket in m.lastPrice then Some(m.lastPrice[t.ticket]) else None, a.deal)
  }

  /** Books a close: target or stop event first, then the trade leaves the store and is closed. */
  function BookClose(m: State, t: Trade, c: Closing): State {
    if t.id !in m.store then m
    else
      var m1 := match c.reason
        case Tp2Reached => Emit(m, Tp2Emitted, t.id, 0.0)
        case StopHit => Emit(m, SlEmitted, t.id, 0.0)
        case _ => m;
      m1.(store := m1.store - {t.id}, log := m1.log + [Entry(ClosedEmitted, t.id, t.currentLots, Some(c))])
  }

  function HandleGone(m: State, t: Trade, a: Answers): State {
    if t.tp2Hit then m
    else BookClose(if t.stub then m else m.(lastPrice := m.lastPrice - {t.ticket}), t, ClosingOf(m, t, a))
  }

  predicate Tp1Reached(t: Trade, price: real) {
    !t.tp1Hit && !t.stub && t.tp1 != 0.0 && (match t.side case Buy => price >= t.tp1 case Sell => price <= t.tp1)
  }

  function Misses(m: State, id: string): nat {
    if id in m.misses then m.misses[id] else 0
  }

  /** One trade's turn in a poll. */
  function Visit(cfg: Config, m: State, t: Trade, prices: map<int, real>, a: Answers): State {
    if t.ticket in prices then
      var seen := m.(misses := m.misses - {t.id}, lastPrice := m.lastPrice[t.ticket := prices[t.ticket]]);
      if Tp1Reached(t, prices[t.ticket]) then HandleTp1(cfg, seen, t, a) else seen
    else if t.stub && Misses(m, t.id) + 1 < STUB_MISS_LIMIT then
      m.(misses := m.misses[t.id := Misses(m, t.id) + 1])
    else HandleGone(if t.stub then m.(misses := m.misses - {t.id}) else m, t, a)
  }

  predicate IsOpen(t: Trade) {
    t.status.Open? || t.status.PartiallyClosed?
  }

  function VisitAll(cfg: Config, m: State, order: seq<string>, prices: map<int, real>, answers: string -> Answers): State {
    if order == [] then m
    else
      var before := VisitAll(cfg, m, order[..|order| - 1], prices, answers);
      var id := order[|order| - 1];
      if id in before.store && IsOpen(before.store[id]) then Visit(cfg, before, before.store[id], prices, answers(id)) else before
  }

  function Stub(id: string, p: Position): Trade {
    Trade(id, true, p.ticket, p.side, p.openPrice, p.openPrice, p.stop, p.stop, p.target, p.target,
          p.lots, p.lots, 0.0, false, false, Open)
  }

  predicate HasTicket(store: map<string, Trade>, ticket: int) {
    exists id :: id in store && store[id].ticket == ticket
  }

  predicate TracksTicket(store: map<string, Trade>, ticket: int) {
    exists id :: id in store && IsOpen(store[id]) && store[id].ticket == ticket
  }

  function Enter(m: State, t: Trade): State {
    Emit(m.(store := m.store[t.id := t]), Entered, t.id, t.currentLots)
  }

  /** What the repository saved for a ticket, or the id its stub gets. */
  datatype Saved = OnRecord(trade: Trade) | Missing(stubId: string)

  function Adopted(p: Position, saved: Saved): Trade {
    match saved case OnRecord(t) => t case Missing(id) => Stub(id, p)
  }

  /** Positions whose ticket was not tracked when the poll began are taken in, unless a trade with the
      ticket has appeared since. */
  function AdoptAll(m: State, tracked: map<string, Trade>, positions: seq<Position>, saved: int -> Saved): State {
    if positions == [] then m
    else
      var before := AdoptAll(m, tracked, positions[..|positions| - 1], saved);
      var p := positions[|positions| - 1];
      if TracksTicket(tracked, p.ticket) || HasTicket(before.store, p.ticket) then before
      else Enter(before, Adopted(p, saved(p.ticket)))
  }

  function Prices(positions: seq<Position>): map<int, real> {
    if positions == [] then map[]
    else Prices(positions[..|positions| - 1])[positions[|positions| - 1].ticket := positions[|positions| - 1].price]
  }

  function PollOnce(
    cfg: Config, m: State, positions: seq<Position>, saved: int -> Saved, order: seq<string>, answers: string -> Answers): State
  {
    VisitAll(cfg, AdoptAll(m, m.store, positions, saved), order, Prices(positions), answers)
  }

  /** `order` lists the open trades, each once. */
  ghost predicate Lists(order: seq<string>, store: map<string, Trade>) {
    && (forall i, j :: 0 <= i < j < |order| ==> order[i] != order[j])
    && (forall id :: id in order <==> id in store && IsOpen(store[id]))
  }

  // ---------- The manager ----------

  class Manager {
    const config: Config
    var store: map<string, Trade>
    var stubMissCount: map<string, nat>
    var lastPrice: map<int, real>
    var log: seq<Entry>

    ghost function Now(): State
      reads this
    {
      State(store, stubMissCount, lastPrice, log)
    }

    constructor (config: Config)
      ensures this.config == config && Now() == EMPTY
    {
      this.config := config;
      store, stubMissCount, lastPrice, log := map[], map[], map[], [];
    }

    method Add(t: Trade)
      modifies this
      ensures Now() == Enter(old(Now()), t)
    {
      store := store[t.id := t];
      Record(Entered, t.id, t.currentLots);
    }

    method Record(kind: Kind, id: string, lots: real)
      modifies this`log
      ensures log == old(log) + [Entry(kind, id, lots, None)]
    {
      log := log + [Entry(kind, id, lots, None)];
    }

    method TryMoveToBreakeven(t: Trade, a: Answers) returns (be: Breakeven)
      ensures be == TryBreakeven(config, t, a)
    {
      if !config.moveStopToBreakeven {
        return NotMoved;
      }
      var rules, tick := RulesInHand(t, a), TickInHand(t, a);
      if rules.None? || tick.None? {
        return NotMoved;
      }
      var stop := ValidBreakevenStop(
        config.breakeven, t.side, t.signalEntry, t.planStop, rules.value, tick.value.bid, tick.value.ask);
      if stop.None? {
        return Deferred;
      }
      return if a.modifyOk then Moved(stop.value) else NotMoved;
    }

    method HandleTp1PriceReached(t: Trade, a: Answers)
      modifies this
      ensures Now() == HandleTp1(config, old(Now()), t, a)
    {
      var partialClosed := t.tp1Lots > 0.0 && a.rules.Some? && a.tick.Some? && a.closeOk;
      var be := TryMoveToBreakeven(t, a);
      if be.Deferred? && !partialClosed {
        return;
      }
      if partialClosed {
        Record(LotsClosed, t.id, t.tp1Lots);
      }
      if be.Moved? {
        Record(StopMoved, t.id, 0.0);
      }
      if t.id in store {
        store := store[t.id := t.(
          tp1Hit := true,
          currentLots := if partialClosed then t.currentLots - t.tp1Lots else t.currentLots,
          status := if partialClosed then PartiallyClosed else t.status,
          stop := if be.Moved? then be.stop else t.stop)];
        Record(Tp1Emitted, t.id, 0.0);
      }
    }

    method HandlePositionGone(t: Trade, a: Answers)
      modifies this
      ensures Now() == HandleGone(old(Now()), t, a)
    {
      if t.tp2Hit {
        return;
      }
      var closing := Closing(ClosedWhileDown, None, None);
      if !t.stub {
        var last: Option<real> := None;
        if t.ticket in lastPrice {
          last := Some(lastPrice[t.ticket]);
        }
        lastPrice := lastPrice - {t.ticket};
        closing := CloseOf(t.side, t.entryPrice, t.planStop, t.stop, t.tp2, last, a.deal);
      }
      if t.id in store {
        store := store - {t.id};
        if closing.reason.Tp2Reached? {
          Record(Tp2Emitted, t.id, 0.0);
        } else if closing.reason.StopHit? {
          Record(SlEmitted, t.id, 0.0);
        }
        log := log + [Entry(ClosedEmitted, t.id, t.currentLots, Some(closing))];
      }
    }

    method VisitTrade(t: Trade, prices: map<int, real>, a: Answers)
      modifies this
      ensures Now() == Visit(config, old(Now()), t, prices, a)
    {
      if t.ticket !in prices {
        if t.stub {
          var misses := (if t.id in stubMissCount then stubMissCount[t.id] else 0) + 1;
          if misses < STUB_MISS_LIMIT {
            stubMissCount := stubMissCount[t.id := misses];
            return;
          }
          stubMissCount := stubMissCount - {t.id};
        }
        HandlePositionGone(t, a);
        return;
      }
      stubMissCount := stubMissCount - {t.id};
      lastPrice := lastPrice[t.ticket := prices[t.ticket]];
      if Tp1Reached(t, prices[t.ticket]) {
        HandleTp1PriceReached(t, a);
      }
    }

    method Adopt(positions: seq<Position>, saved: int -> Saved)
      modifies this
      ensures Now() == AdoptAll(old(Now()), old(store), positions, saved)
    {
      ghost var start := Now();
      var tracked := store;
      for i := 0 to |positions|
        invariant Now() == AdoptAll(start, tracked, positions[..i], saved)
      {
        assert positions[..i + 1][..i] == positions[..i];
        var p := positions[i];
        if !TracksTicket(tracked, p.ticket) && !HasTicket(store, p.ticket) {
          Add(Adopted(p, saved(p.ticket)));
        }
      }
      assert positions[..|positions|] == positions;
    }

    method Poll(positions: seq<Position>, saved: int -> Saved, order: seq<string>, answers: string -> Answers)
      requires Lists(order, AdoptAll(Now(), store, positions, saved).store)
      modifies this
      ensures Now() == PollOnce(config, old(Now()), positions, saved, order, answers)
    {
      var prices: map<int, real> := map[];
      for i := 0 to |positions|
        invariant Now() == old(Now())
        invariant prices == Prices(positions[..i])
      {
        assert positions[..i + 1][..i] == positions[..i];
        prices := prices[positions[i].ticket := positions[i].price];
      }
      assert positions[..|positions|] == positions;
      Adopt(positions, saved);
      ghost var start := Now();
      for i := 0 to |order|
        invariant Now() == VisitAll(config, start, order[..i], prices, answers)
      {
        assert order[..i + 1][..i] == order[..i];
        var id := order[i];
        if id in store && IsOpen(store[id]) {
          VisitTrade(store[id], prices, answers(id));
        }
      }
      assert order[..|order|] == order;
    }
  }
}
