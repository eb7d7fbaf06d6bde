/** Whole lives of trades under the position manager's polls (src/positions/manager.py): every trade is
    closed once, hits TP1 once, and its lots are accounted for. Snapshots, prices and the broker's
    answers are arbitrary. */
module Lifecycle {
  import opened Basics
  import opened CloseRules
  import opened Products
  import opened PositionManager

  datatype Event =
    | Added(trade: Trade)
    | Polled(positions: seq<Position>, saved: int -> Saved, order: seq<string>, answers: string -> Answers)

  function Step(cfg: Config, m: State, e: Event): State {
    match e
    case Added(trade) => Enter(m, trade)
    case Polled(positions, saved, order, answers) => PollOnce(cfg, m, positions, saved, order, answers)
  }

  function Run(cfg: Config, events: seq<Event>): State {
    if events == [] then EMPTY else Step(cfg, Run(cfg, events[..|events| - 1]), events[|events| - 1])
  }

  // ---------- Reading the log ----------

  /** How often each thing happened to one trade, how its closes were classified, and the lots that came
      in, left at TP1 and left at the close. */
  datatype Account = Account(
    entered: nat, partials: nat, tp1s: nat, targets: nat, stops: nat, closes: nat,
    closesAtTarget: nat, closesAtStop: nat, lotsIn: real, lotsAtTp1: real, lotsAtClose: real)

  const NOTHING := Account(0, 0, 0, 0, 0, 0, 0, 0, 0.0, 0.0, 0.0)

  function Post(acc: Account, e: Entry): Account {
    match e.kind
    case Entered => acc.(entered := acc.entered + 1, lotsIn := acc.lotsIn + e.lots)
    case LotsClosed => acc.(partials := acc.partials + 1, lotsAtTp1 := acc.lotsAtTp1 + e.lots)
    case StopMoved => acc
    case Tp1Emitted => acc.(tp1s := acc.tp1s + 1)
    case Tp2Emitted => acc.(targets := acc.targets + 1)
    case SlEmitted => acc.(stops := acc.stops + 1)
    case ClosedEmitted =>
      acc.(closes := acc.closes + 1, lotsAtClose := acc.lotsAtClose + e.lots,
           closesAtTarget := acc.closesAtTarget + (if e.closing.Some? && e.closing.value.reason.Tp2Reached? then 1 else 0),
           closesAtStop := acc.closesAtStop + (if e.closing.Some? && e.closing.value.reason.StopHit? then 1 else 0))
  }

  function AccountOf(log: seq<Entry>, id: string): Account {
    if log == [] then NOTHING
    else
      var earlier, last := AccountOf(log[..|log| - 1], id), log[|log| - 1];
      if last.id == id then Post(earlier, last) else earlier
  }

  lemma Appended(log: seq<Entry>, e: Entry, id: string)
    ensures AccountOf(log + [e], id) == if e.id == id then Post(AccountOf(log, id), e) else AccountOf(log, id)
  {
    assert (log + [e])[..|log|] == log;
  }

  // ---------- The ledger of one trade ----------

  /** Everything that happened to one trade adds up, given what the store holds of it. */
  predicate Balances(acc: Account, held: Option<Trade>) {
    && acc.entered <= 1 && acc.entered == acc.closes + (if held.Some? then 1 else 0)
    && acc.partials <= acc.tp1s <= acc.entered
    && (held.Some? && !held.value.tp1Hit ==> acc.tp1s == 0)
    && acc.targets == acc.closesAtTarget && acc.stops == acc.closesAtStop
    && acc.closesAtTarget + acc.closesAtStop <= acc.closes
    && acc.lotsIn == acc.lotsAtTp1 + acc.lotsAtClose + (if held.Some? then held.value.currentLots else 0.0)
  }

  function HeldOf(m: State, id: string): Option<Trade> {
    if id in m.store then Some(m.store[id]) else None
  }

  /** `ticketOf` names the ticket of every trade. */
  predicate Ledger(m: State, ticketOf: string -> int, id: string) {
    && Balances(AccountOf(m.log, id), HeldOf(m, id))
    && (id in m.store ==> m.store[id].id == id && m.store[id].ticket == ticketOf(id))
  }

  lemma Tp1Account(m: State, t: Trade, after: Trade, partial: bool, moved: bool, id: string)
    requires t.id in m.store
    ensures var acc := AccountOf(m.log, id);
            AccountOf(BookTp1(m, t, after, partial, moved).log, id) ==
            if id != t.id then acc
            else acc.(partials := acc.partials + (if partial then 1 else 0),
                      lotsAtTp1 := acc.lotsAtTp1 + (if partial then t.tp1Lots else 0.0), tp1s := acc.tp1s + 1)
  {
    var m1 := if partial then Emit(m, LotsClosed, t.id, t.tp1Lots) else m;
    var m2 := if moved then Emit(m1, StopMoved, t.id, 0.0) else m1;
    Appended(m.log, Entry(LotsClosed, t.id, t.tp1Lots, None), id);
    Appended(m1.log, Entry(StopMoved, t.id, 0.0, None), id);
    Appended(m2.log, Entry(Tp1Emitted, t.id, 0.0, None), id);
  }

  lemma Tp1KeepsLedger(m: State, t: Trade, after: Trade, partial: bool, moved: bool, ticketOf: string -> int, id: string)
    requires Ledger(m, ticketOf, id) && t.id in m.store && m.store[t.id] == t && !t.tp1Hit
    requires after.tp1Hit && after.id == t.id && after.ticket == t.ticket
    requires after.currentLots == if partial then t.currentLots - t.tp1Lots else t.currentLots
    ensures Ledger(BookTp1(m, t, after, partial, moved), ticketOf, id)
  {
    Tp1Account(m, t, after, partial, moved, id);
  }

  // The event that goes before the close, if any.
  function Announced(m: State, t: Trade, c: Closing): State {
    match c.reason
    case Tp2Reached => Emit(m, Tp2Emitted, t.id, 0.0)
    case StopHit => Emit(m, SlEmitted, t.id, 0.0)
    case _ => m
  }

  lemma AnnouncedAccount(m: State, t: Trade, c: Closing, id: string)
    ensures var acc := AccountOf(m.log, id);
            AccountOf(Announced(m, t, c).log, id) ==
            if id != t.id then acc
            else acc.(targets := acc.targets + (if c.reason.Tp2Reached? then 1 else 0),
                      stops := acc.stops + (if c.reason.StopHit? then 1 else 0))
  {
    match c.reason
    case Tp2Reached => Appended(m.log, Entry(Tp2Emitted, t.id, 0.0, None), id);
    case StopHit => Appended(m.log, Entry(SlEmitted, t.id, 0.0, None), id);
    case _ =>
  }

  lemma CloseAccount(m: State, t: Trade, c: Closing, id: string)
    requires t.id in m.store
    ensures var acc := AccountOf(m.log, id);
            AccountOf(BookClose(m, t, c).log, id) ==
            if id != t.id then acc
            else acc.(targets := acc.targets + (if c.reason.Tp2Reached? then 1 else 0),
                      stops := acc.stops + (if c.reason.StopHit? then 1 else 0),
                      closes := acc.closes + 1, lotsAtClose := acc.lotsAtClose + t.currentLots,
                      closesAtTarget := acc.closesAtTarget + (if c.reason.Tp2Reached? then 1 else 0),
                      closesAtStop := acc.closesAtStop + (if c.reason.StopHit? then 1 else 0))
  {
    AnnouncedAccount(m, t, c, id);
    Appended(Announced(m, t, c).log, Entry(ClosedEmitted, t.id, t.currentLots, Some(c)), id);
  }

  lemma CloseKeepsLedger(m: State, t: Trade, c: Closing, ticketOf: string -> int, id: string)
    requires Ledger(m, ticketOf, id) && t.id in m.store && m.store[t.id] == t
    ensures Ledger(BookClose(m, t, c), ticketOf, id)
  {
    CloseAccount(m, t, c, id);
  }

  lemma VisitKeepsLedger(
    cfg: Config, m: State, t: Trade, prices: map<int, real>, a: Answers, ticketOf: string -> int, id: string)
    requires Ledger(m, ticketOf, id) && t.id in m.store && m.store[t.id] == t
    ensures Ledger(Visit(cfg, m, t, prices, a), ticketOf, id)
  {
    if t.ticket in prices {
      var seen := m.(misses := m.misses - {t.id}, lastPrice := m.lastPrice[t.ticket := prices[t.ticket]]);
      if Tp1Reached(t, prices[t.ticket]) && !Tp1Waits(cfg, t, a) {
        Tp1KeepsLedger(seen, t, AfterTp1(cfg, t, a), PartialCloses(t, a), TryBreakeven(cfg, t, a).Moved?, ticketOf, id);
      }
    } else if !(t.stub && Misses(m, t.id) + 1 < STUB_MISS_LIMIT) && !t.tp2Hit {
      var m1 := if t.stub then m.(misses := m.misses - {t.id}) else m;
      CloseKeepsLedger(if t.stub then m1 else m1.(lastPrice := m1.lastPrice - {t.ticket}), t, ClosingOf(m1, t, a), ticketOf, id);
    }
  }

  ghost predicate Inv(m: State, ticketOf: string -> int) {
    forall id: string :: Ledger(m, ticketOf, id)
  }

  lemma {:induction false} VisitsKeepInv(
    cfg: Config, m: State, order: seq<string>, prices: map<int, real>, answers: string -> Answers, ticketOf: string -> int)
    requires Inv(m, ticketOf)
    ensures Inv(VisitAll(cfg, m, order, prices, answers), ticketOf)
  {
    if order != [] {
      var before, id := VisitAll(cfg, m, order[..|order| - 1], prices, answers), order[|order| - 1];
      VisitsKeepInv(cfg, m, order[..|order| - 1], prices, answers, ticketOf);
      if id in before.store && IsOpen(before.store[id]) {
        assert Ledger(before, ticketOf, id);
        forall other: string ensures Ledger(Visit(cfg, before, before.store[id], prices, answers(id)), ticketOf, other) {
          VisitKeepsLedger(cfg, before, before.store[id], prices, answers(id), ticketOf, other);
        }
      }
    }
  }

  lemma {:induction false} LotsNeedEntries(log: seq<Entry>, id: string)
    ensures var acc := AccountOf(log, id);
            && (acc.entered == 0 ==> acc.lotsIn == 0.0)
            && (acc.partials == 0 ==> acc.lotsAtTp1 == 0.0)
            && (acc.closes == 0 ==> acc.lotsAtClose == 0.0)
  {
    if log != [] {
      LotsNeedEntries(log[..|log| - 1], id);
    }
  }

  lemma EnterKeepsInv(m: State, t: Trade, ticketOf: string -> int)
    requires Inv(m, ticketOf) && AccountOf(m.log, t.id).entered == 0 && t.ticket == ticketOf(t.id)
    ensures Inv(Enter(m, t), ticketOf)
  {
    forall id: string ensures Ledger(Enter(m, t), ticketOf, id) {
      assert Ledger(m, ticketOf, id) && Ledger(m, ticketOf, t.id);
      Appended(m.log, Entry(Entered, t.id, t.currentLots, None), id);
      LotsNeedEntries(m.log, t.id);
    }
  }

  // ---------- Runs ----------

  /** A saved record or a stub belongs to the ticket it was looked up by. */
  predicate TruthfulRecords(saved: int -> Saved, positions: seq<Position>, ticketOf: string -> int) {
    forall p :: p in positions ==>
      var t := Adopted(p, saved(p.ticket));
      t.ticket == p.ticket && ticketOf(t.id) == p.ticket
  }

  /** A ticket whose trade was reported closed is not in the snapshot. */
  ghost predicate NoneReturns(m: State, positions: seq<Position>, ticketOf: string -> int) {
    forall id: string, p :: p in positions && AccountOf(m.log, id).closes > 0 ==> p.ticket != ticketOf(id)
  }

  /** Engine trades have fresh ids; tickets never reappear. */
  ghost predicate Fair(m: State, e: Event, ticketOf: string -> int) {
    match e
    case Added(t) => AccountOf(m.log, t.id).entered == 0 && t.ticket == ticketOf(t.id)
    case Polled(positions, saved, _, _) =>
      TruthfulRecords(saved, positions, ticketOf) && NoneReturns(m, positions, ticketOf)
  }

  ghost predicate FairRun(cfg: Config, events: seq<Event>, ticketOf: string -> int) {
    events != [] ==>
      FairRun(cfg, events[..|events| - 1], ticketOf) && Fair(Run(cfg, events[..|events| - 1]), events[|events| - 1], ticketOf)
  }

  lemma {:induction false} AdoptionKeepsInv(m: State, positions: seq<Position>, saved: int -> Saved, ticketOf: string -> int)
    requires Inv(m, ticketOf) && TruthfulRecords(saved, positions, ticketOf) && NoneReturns(m, positions, ticketOf)
    ensures Inv(AdoptAll(m, m.store, positions, saved), ticketOf)
    ensures forall id: string :: AccountOf(AdoptAll(m, m.store, positions, saved).log, id).closes == AccountOf(m.log, id).closes
  {
    if positions != [] {
      var front, p := positions[..|positions| - 1], positions[|positions| - 1];
      assert p in positions && forall q :: q in front ==> q in positions;
      AdoptionKeepsInv(m, front, saved, ticketOf);
      var before := AdoptAll(m, m.store, front, saved);
      if !TracksTicket(m.store, p.ticket) && !HasTicket(before.store, p.ticket) {
        var t := Adopted(p, saved(p.ticket));
        assert Ledger(before, ticketOf, t.id);
        assert AccountOf(before.log, t.id).closes == AccountOf(m.log, t.id).closes;
        EnterKeepsInv(before, t, ticketOf);
        forall id: string ensures AccountOf(Enter(before, t).log, id).closes == AccountOf(before.log, id).closes {
          Appended(before.log, Entry(Entered, t.id, t.currentLots, None), id);
        }
      }
    }
  }

  lemma {:induction false} EveryRunBalances(cfg: Config, events: seq<Event>, ticketOf: string -> int)
    requires FairRun(cfg, events, ticketOf)
    ensures Inv(Run(cfg, events), ticketOf)
  {
    if events != [] {
      var m, e := Run(cfg, events[..|events| - 1]), events[|events| - 1];
      EveryRunBalances(cfg, events[..|events| - 1], ticketOf);
      match e
      case Added(t) => EnterKeepsInv(m, t, ticketOf);
      case Polled(positions, saved, order, answers) =>
        AdoptionKeepsInv(m, positions, saved, ticketOf);
        VisitsKeepInv(cfg, AdoptAll(m, m.store, positions, saved), order, Prices(positions), answers, ticketOf);
    }
  }

  predicate AtMostOnce(acc: Account) {
    && acc.closes <= 1 && acc.partials <= acc.tp1s <= 1
    && acc.targets == acc.closesAtTarget && acc.stops == acc.closesAtStop && acc.targets + acc.stops <= acc.closes
  }

  /** Exactly once: in every run, a trade closes at most once, reaches TP1 at most once, has its TP1
      volume closed at most once and only together with reaching TP1, and a target or stop event is
      emitted exactly for the close classified so. */
  lemma EverythingHappensOnce(cfg: Config, events: seq<Event>, ticketOf: string -> int, id: string)
    requires FairRun(cfg, events, ticketOf)
    ensures AtMostOnce(AccountOf(Run(cfg, events).log, id))
  {
    EveryRunBalances(cfg, events, ticketOf);
    assert Ledger(Run(cfg, events), ticketOf, id);
  }

  /** Lot conservation: what a trade entered with is what is still held, plus the TP1 volume the broker
      closed, plus what was left when it closed. */
  lemma LotsAreConserved(cfg: Config, events: seq<Event>, ticketOf: string -> int, id: string)
    requires FairRun(cfg, events, ticketOf)
    ensures var m := Run(cfg, events);
            var acc, held := AccountOf(m.log, id), HeldOf(m, id);
            && acc.lotsIn == acc.lotsAtTp1 + acc.lotsAtClose + (if held.Some? then held.value.currentLots else 0.0)
            && (held.Some? <==> acc.entered == 1 && acc.closes == 0)
  {
    EveryRunBalances(cfg, events, ticketOf);
    assert Ledger(Run(cfg, events), ticketOf, id);
  }

  // ---------- Trades only move forward ----------

  function Rank(status: Status): nat {
    match status case Open => 0 case PartiallyClosed => 1 case Closed => 2
  }

  /** `b` is what `a` may become while it stays in the store. */
  predicate Ahead(a: Trade, b: Trade) {
    && Rank(a.status) <= Rank(b.status) && (a.tp1Hit ==> b.tp1Hit)
    && b.currentLots <= a.currentLots && (b.currentLots < a.currentLots ==> b.tp1Hit && !a.tp1Hit)
    && b.id == a.id && b.ticket == a.ticket && b.entryLots == a.entryLots && b.planStop == a.planStop
  }

  lemma VisitMovesForward(cfg: Config, m: State, t: Trade, prices: map<int, real>, a: Answers, id: string)
    requires t.id in m.store && m.store[t.id] == t && IsOpen(t) && id in Visit(cfg, m, t, prices, a).store
    ensures id in m.store && Ahead(m.store[id], Visit(cfg, m, t, prices, a).store[id])
  {
    if id == t.id && t.ticket in prices && Tp1Reached(t, prices[t.ticket]) {
      assert Ahead(t, AfterTp1(cfg, t, a));
    }
  }

  lemma {:induction false} VisitsMoveForward(
    cfg: Config, m: State, order: seq<string>, prices: map<int, real>, answers: string -> Answers, ticketOf: string -> int, id: string)
    requires Inv(m, ticketOf) && id in VisitAll(cfg, m, order, prices, answers).store
    ensures id in m.store && Ahead(m.store[id], VisitAll(cfg, m, order, prices, answers).store[id])
  {
    if order != [] {
      var front, x := order[..|order| - 1], order[|order| - 1];
      var before := VisitAll(cfg, m, front, prices, answers);
      VisitsKeepInv(cfg, m, front, prices, answers, ticketOf);
      if x in before.store && IsOpen(before.store[x]) {
        assert Ledger(before, ticketOf, x);
        VisitMovesForward(cfg, before, before.store[x], prices, answers(x), id);
      }
      VisitsMoveForward(cfg, m, front, prices, answers, ticketOf, id);
    }
  }

  lemma {:induction false} AdoptionLeavesTradesAlone(
    m: State, positions: seq<Position>, saved: int -> Saved, ticketOf: string -> int, id: string)
    requires Inv(m, ticketOf) && TruthfulRecords(saved, positions, ticketOf) && id in m.store
    ensures id in AdoptAll(m, m.store, positions, saved).store
    ensures AdoptAll(m, m.store, positions, saved).store[id] == m.store[id]
  {
    if positions != [] {
      var front, p := positions[..|positions| - 1], positions[|positions| - 1];
      assert p in positions && forall q :: q in front ==> q in positions;
      AdoptionLeavesTradesAlone(m, front, saved, ticketOf, id);
      assert Ledger(m, ticketOf, id);
    }
  }

  /** In every step of every run, a trade that stays keeps its identity, its status only advances from
      open to partially closed, and it loses lots only in the step in which it reaches TP1. */
  lemma TradesOnlyMoveForward(cfg: Config, events: seq<Event>, ticketOf: string -> int, id: string)
    requires FairRun(cfg, events, ticketOf) && events != []
    requires id in Run(cfg, events[..|events| - 1]).store && id in Run(cfg, events).store
    ensures Ahead(Run(cfg, events[..|events| - 1]).store[id], Run(cfg, events).store[id])
  {
    var m, e := Run(cfg, events[..|events| - 1]), events[|events| - 1];
    EveryRunBalances(cfg, events[..|events| - 1], ticketOf);
    match e
    case Added(t) => assert Ledger(m, ticketOf, id);
    case Polled(positions, saved, order, answers) =>
      AdoptionKeepsInv(m, positions, saved, ticketOf);
      AdoptionLeavesTradesAlone(m, positions, saved, ticketOf, id);
      VisitsMoveForward(cfg, AdoptAll(m, m.store, positions, saved), order, Prices(positions), answers, ticketOf, id);
  }

  // ---------- What closes carry ----------

  /** A close carries an R exactly when it carries a price, and names target, stop or a manual close only
      with one. */
  predicate Judged(e: Entry) {
    e.kind.ClosedEmitted? ==>
      && e.closing.Some? && (e.closing.value.rr.Some? <==> e.closing.value.price.Some?)
      && (e.closing.value.price.None? ==> e.closing.value.reason == Unknown || e.closing.value.reason == ClosedWhileDown)
  }

  ghost predicate AllJudged(m: State) {
    forall e :: e in m.log ==> Judged(e)
  }

  lemma VisitIsJudged(cfg: Config, m: State, t: Trade, prices: map<int, real>, a: Answers)
    requires AllJudged(m)
    ensures AllJudged(Visit(cfg, m, t, prices, a))
  {
    var last := if t.ticket in m.lastPrice then Some(m.lastPrice[t.ticket]) else None;
    NothingIsInvented(t.side, t.entryPrice, t.planStop, t.stop, t.tp2, last, a.deal);
  }

  lemma {:induction false} VisitsAreJudged(
    cfg: Config, m: State, order: seq<string>, prices: map<int, real>, answers: string -> Answers)
    requires AllJudged(m)
    ensures AllJudged(VisitAll(cfg, m, order, prices, answers))
  {
    if order != [] {
      var before, id := VisitAll(cfg, m, order[..|order| - 1], prices, answers), order[|order| - 1];
      VisitsAreJudged(cfg, m, order[..|order| - 1], prices, answers);
      if id in before.store && IsOpen(before.store[id]) {
        VisitIsJudged(cfg, before, before.store[id], prices, answers(id));
      }
    }
  }

  lemma {:induction false} AdoptionIsJudged(m: State, tracked: map<string, Trade>, positions: seq<Position>, saved: int -> Saved)
    requires AllJudged(m)
    ensures AllJudged(AdoptAll(m, tracked, positions, saved))
  {
    if positions != [] {
      AdoptionIsJudged(m, tracked, positions[..|positions| - 1], saved);
    }
  }

  /** In every run at all, no close carries an R without a price or a reason without one. */
  lemma {:induction false} EveryCloseIsJudged(cfg: Config, events: seq<Event>)
    ensures AllJudged(Run(cfg, events))
  {
    if events != [] {
      var m, e := Run(cfg, events[..|events| - 1]), events[|events| - 1];
      EveryCloseIsJudged(cfg, events[..|events| - 1]);
      match e
      case Added(_) =>
      case Polled(positions, saved, order, answers) =>
        AdoptionIsJudged(m, m.store, positions, saved);
        VisitsAreJudged(cfg, AdoptAll(m, m.store, positions, saved), order, Prices(positions), answers);
    }
  }

  // ---------- What a poll does to each trade ----------

  predicate Named(m: State) {
    forall id :: id in m.store ==> m.store[id].id == id
  }

  lemma VisitTouchesOnlyItsTrade(cfg: Config, m: State, t: Trade, prices: map<int, real>, a: Answers)
    requires Named(m) && t.id in m.store && m.store[t.id] == t
    ensures var after := Visit(cfg, m, t, prices, a);
            && Named(after) && m.log <= after.log
            && forall id :: id != t.id ==> (id in after.store <==> id in m.store) && (id in m.store ==> after.store[id] == m.store[id])
  {
  }

  lemma {:induction false} VisitsTouchOnlyTheirTrades(
    cfg: Config, m: State, order: seq<string>, prices: map<int, real>, answers: string -> Answers, id: string)
    requires Named(m)
    ensures var after := VisitAll(cfg, m, order, prices, answers);
            && Named(after) && m.log <= after.log
            && (id !in order ==> (id in after.store <==> id in m.store) && (id in m.store ==> after.store[id] == m.store[id]))
  {
    if order != [] {
      var front, x := order[..|order| - 1], order[|order| - 1];
      VisitsTouchOnlyTheirTrades(cfg, m, front, prices, answers, id);
      var before := VisitAll(cfg, m, front, prices, answers);
      assert order == front + [x];
      if x in before.store && IsOpen(before.store[x]) {
        VisitTouchesOnlyItsTrade(cfg, before, before.store[x], prices, answers(x));
      }
    }
  }

  /** A trade that is closed already is left as it is, whoever lists it. */
  lemma {:induction false} ClosedTradesAreLeftAlone(
    cfg: Config, m: State, order: seq<string>, prices: map<int, real>, answers: string -> Answers, id: string)
    requires Named(m) && id in m.store && m.store[id].status.Closed?
    ensures id in VisitAll(cfg, m, order, prices, answers).store && VisitAll(cfg, m, order, prices, answers).store[id] == m.store[id]
  {
    if order != [] {
      var front, x := order[..|order| - 1], order[|order| - 1];
      ClosedTradesAreLeftAlone(cfg, m, front, prices, answers, id);
      VisitsTouchOnlyTheirTrades(cfg, m, front, prices, answers, id);
      var before := VisitAll(cfg, m, front, prices, answers);
      if x in before.store && IsOpen(before.store[x]) {
        VisitTouchesOnlyItsTrade(cfg, before, before.store[x], prices, answers(x));
      }
    }
  }

  /** A close of `id` at this price, with the distance to it in R and this reason. */
  predicate ClosedAt(e: Entry, t: Trade, price: real, reason: CloseReason) {
    && e.kind.ClosedEmitted? && e.id == t.id && e.lots == t.currentLots
    && e.closing.Some? && e.closing.value.price == Some(price) && e.closing.value.reason == reason && e.closing.value.rr.Some?
    && Times(e.closing.value.rr.value, Abs(t.entryPrice - t.planStop)) == Gain(t.side, t.entryPrice, price)
  }

  lemma VisitClosesAsDealt(cfg: Config, m: State, t: Trade, prices: map<int, real>, a: Answers)
    requires t.id in m.store && m.store[t.id] == t && !t.stub && !t.tp2Hit && t.ticket !in prices
    requires HasRisk(t.side, t.entryPrice, t.planStop)
    requires a.deal.Some? && !a.deal.value.reason.Other? && a.deal.value.price != 0.0
    ensures var after, deal := Visit(cfg, m, t, prices, a), a.deal.value;
            && t.id !in after.store && after.log != []
            && ClosedAt(after.log[|after.log| - 1], t, deal.price, if deal.reason.ByStop? then StopHit else Tp2Reached)
  {
    var last := if t.ticket in m.lastPrice then Some(m.lastPrice[t.ticket]) else None;
    BrokerDealDecides(t.side, t.entryPrice, t.planStop, t.stop, t.tp2, last, a.deal.value);
  }

  ghost predicate LogsClose(m: State, t: Trade, price: real, reason: CloseReason) {
    exists e :: e in m.log && ClosedAt(e, t, price, reason)
  }

  lemma {:induction false} VisitsCloseAsDealt(
    cfg: Config, m: State, order: seq<string>, prices: map<int, real>, answers: string -> Answers, id: string)
    requires Named(m) && id in m.store && id in order && !m.store[id].status.Closed?
    requires !m.store[id].stub && !m.store[id].tp2Hit && m.store[id].ticket !in prices
    requires HasRisk(m.store[id].side, m.store[id].entryPrice, m.store[id].planStop)
    requires answers(id).deal.Some? && !answers(id).deal.value.reason.Other? && answers(id).deal.value.price != 0.0
    ensures var deal := answers(id).deal.value;
            LogsClose(VisitAll(cfg, m, order, prices, answers), m.store[id], deal.price,
                      if deal.reason.ByStop? then StopHit else Tp2Reached)
  {
    var front, x, t, deal := order[..|order| - 1], order[|order| - 1], m.store[id], answers(id).deal.value;
    var reason := if deal.reason.ByStop? then StopHit else Tp2Reached;
    var before, after := VisitAll(cfg, m, front, prices, answers), VisitAll(cfg, m, order, prices, answers);
    VisitsTouchOnlyTheirTrades(cfg, m, front, prices, answers, id);
    assert order == front + [x];
    if id in front {
      VisitsCloseAsDealt(cfg, m, front, prices, answers, id);
      var e :| e in before.log && ClosedAt(e, t, deal.price, reason);
      if x in before.store && IsOpen(before.store[x]) {
        VisitTouchesOnlyItsTrade(cfg, before, before.store[x], prices, answers(x));
      }
      assert e in after.log;
    } else {
      VisitClosesAsDealt(cfg, before, t, prices, answers(id));
      assert after.log[|after.log| - 1] in after.log;
    }
  }

  /** In every poll of every run: a trade that is gone and for which the broker has a stop or target deal
      is closed at that deal's price, whatever price was polled last; at the planned stop that is -1R. */
  lemma BrokerDealsAreRecorded(
    cfg: Config, events: seq<Event>, ticketOf: string -> int, id: string,
    positions: seq<Position>, saved: int -> Saved, order: seq<string>, answers: string -> Answers)
    requires FairRun(cfg, events, ticketOf) && TruthfulRecords(saved, positions, ticketOf)
    requires var m := Run(cfg, events);
             && id in m.store && id in order && !m.store[id].status.Closed? && !m.store[id].stub && !m.store[id].tp2Hit
             && m.store[id].ticket !in Prices(positions)
             && HasRisk(m.store[id].side, m.store[id].entryPrice, m.store[id].planStop)
    requires answers(id).deal.Some? && !answers(id).deal.value.reason.Other? && answers(id).deal.value.price != 0.0
    ensures var t, deal := Run(cfg, events).store[id], answers(id).deal.value;
            LogsClose(Run(cfg, events + [Polled(positions, saved, order, answers)]), t, deal.price,
                      if deal.reason.ByStop? then StopHit else Tp2Reached)
  {
    var m, polled := Run(cfg, events), events + [Polled(positions, saved, order, answers)];
    assert polled[..|polled| - 1] == events;
    EveryRunBalances(cfg, events, ticketOf);
    var adopted := AdoptAll(m, m.store, positions, saved);
    AdoptionLeavesTradesAlone(m, positions, saved, ticketOf, id);
    AdoptionKeepsNames(m, m.store, positions, saved, ticketOf);
    VisitsCloseAsDealt(cfg, adopted, order, Prices(positions), answers, id);
  }

  lemma {:induction false} AdoptionKeepsNames(
    m: State, tracked: map<string, Trade>, positions: seq<Position>, saved: int -> Saved, ticketOf: string -> int)
    requires Inv(m, ticketOf)
    ensures Named(AdoptAll(m, tracked, positions, saved))
  {
    if positions == [] {
      forall id | id in m.store ensures m.store[id].id == id {
        assert Ledger(m, ticketOf, id);
      }
    } else {
      AdoptionKeepsNames(m, tracked, positions[..|positions| - 1], saved, ticketOf);
    }
  }

  /** The price of the last snapshot that showed the position is the one a later close without a stop or
      target deal is judged by. */
  lemma SeenPriceIsRemembered(cfg: Config, m: State, t: Trade, prices: map<int, real>, a: Answers)
    requires t.ticket in prices
    ensures var seen := Visit(cfg, m, t, prices, a).lastPrice; t.ticket in seen && seen[t.ticket] == prices[t.ticket]
  {
  }

  lemma VisitClosesAtSeenPrice(cfg: Config, m: State, t: Trade, prices: map<int, real>, a: Answers)
    requires t.id in m.store && m.store[t.id] == t && !t.stub && !t.tp2Hit && t.ticket !in prices
    requires HasRisk(t.side, t.entryPrice, t.planStop) && t.tp2 != 0.0 && Gain(t.side, t.stop, t.tp2) > 0.0
    requires t.ticket in m.lastPrice && m.lastPrice[t.ticket] != 0.0
    requires a.deal.None? || (a.deal.value.reason.Other? && a.deal.value.price != 0.0)
    ensures var after, seen := Visit(cfg, m, t, prices, a), m.lastPrice[t.ticket];
            && t.id !in after.store && t.ticket !in after.lastPrice && after.log != []
            && ClosedAt(after.log[|after.log| - 1], t, seen,
                        if Gain(t.side, t.tp2, seen) >= 0.0 then Tp2Reached
                        else if Gain(t.side, t.stop, seen) <= 0.0 then StopHit else Manual)
  {
    PolledPriceDecides(t.side, t.entryPrice, t.planStop, t.stop, t.tp2, Some(m.lastPrice[t.ticket]), a.deal);
  }

  // ---------- Adoption ----------

  /** After the adoption every position of the snapshot has a trade, and whatever came in belongs to a
      position that no trade tracked. */
  lemma {:induction false} AdoptionCoversTheSnapshot(m: State, positions: seq<Position>, saved: int -> Saved, ticketOf: string -> int)
    requires Inv(m, ticketOf) && TruthfulRecords(saved, positions, ticketOf) && NoneReturns(m, positions, ticketOf)
    ensures var after := AdoptAll(m, m.store, positions, saved);
            && (forall p :: p in positions ==> HasTicket(after.store, p.ticket))
            && (forall id :: id in after.store && id !in m.store ==>
                  !TracksTicket(m.store, after.store[id].ticket) && exists p :: p in positions && p.ticket == after.store[id].ticket)
  {
    if positions != [] {
      var front, last := positions[..|positions| - 1], positions[|positions| - 1];
      assert last in positions && forall q :: q in front ==> q in positions;
      assert forall q :: q in positions ==> q in front || q == last;
      AdoptionCoversTheSnapshot(m, front, saved, ticketOf);
      AdoptionKeepsInv(m, front, saved, ticketOf);
      var before, after := AdoptAll(m, m.store, front, saved), AdoptAll(m, m.store, positions, saved);
      if TracksTicket(m.store, last.ticket) {
        var id :| id in m.store && IsOpen(m.store[id]) && m.store[id].ticket == last.ticket;
        AdoptionLeavesTradesAlone(m, front, saved, ticketOf, id);
      } else if !HasTicket(before.store, last.ticket) {
        var t := Adopted(last, saved(last.ticket));
        assert Ledger(before, ticketOf, t.id);
        forall p | p in front ensures HasTicket(after.store, p.ticket) {
          TicketsStay(before.store, t, p.ticket);
        }
        assert after.store[t.id].ticket == last.ticket;
      }
    }
  }

  lemma TicketsStay(store: map<string, Trade>, t: Trade, ticket: int)
    requires HasTicket(store, ticket) && t.id !in store
    ensures HasTicket(store[t.id := t], ticket)
  {
    var id :| id in store && store[id].ticket == ticket;
    assert store[t.id := t][id] == store[id];
  }

  /** A position is taken in as its saved record, or else as a stub that mirrors it and has no TP1 volume. */
  lemma AdoptedTradeMirrorsItsPosition(p: Position, saved: Saved)
    ensures var t := Adopted(p, saved);
            if saved.OnRecord? then t == saved.trade
            else
              && t.id == saved.stubId && t.stub && t.ticket == p.ticket && t.side == p.side && t.status == Open
              && t.signalEntry == t.entryPrice == p.openPrice && t.planStop == t.stop == p.stop && t.tp1 == t.tp2 == p.target
              && t.entryLots == t.currentLots == p.lots && t.tp1Lots == 0.0 && !t.tp1Hit && !t.tp2Hit
  {
  }

  /** The prices of a poll are those of its snapshot. */
  lemma {:induction false} PricesShowTheSnapshot(positions: seq<Position>, i: nat)
    requires i < |positions| && forall j :: i < j < |positions| ==> positions[j].ticket != positions[i].ticket
    ensures positions[i].ticket in Prices(positions) && Prices(positions)[positions[i].ticket] == positions[i].price
  {
    if i < |positions| - 1 {
      PricesShowTheSnapshot(positions[..|positions| - 1], i);
    }
  }

  lemma {:induction false} OnlyShownPositionsHavePrices(positions: seq<Position>, ticket: int)
    ensures ticket in Prices(positions) <==> exists p :: p in positions && p.ticket == ticket
  {
    if positions != [] {
      var front, last := positions[..|positions| - 1], positions[|positions| - 1];
      OnlyShownPositionsHavePrices(front, ticket);
      assert positions == front + [last];
    }
  }

  // ---------- TP1 ----------

  /** The trade is at TP1 in this poll: price lies on it or beyond, and TP1 is still to be handled. */
  predicate AtTp1(m: State, t: Trade, prices: map<int, real>) {
    && t.id in m.store && m.store[t.id] == t && t.ticket in prices
    && !t.tp1Hit && !t.stub && t.tp1 != 0.0 && Gain(t.side, t.tp1, prices[t.ticket]) >= 0.0
  }

  /** The broker's rules and quote that the breakeven move goes by: those of the partial close when that
      got them, else asked again. */
  function RulesKnown(t: Trade, a: Answers): Option<StopRules> {
    if t.tp1Lots <= 0.0 || a.rules.None? then a.rulesAgain else a.rules
  }

  function QuoteKnown(t: Trade, a: Answers): Option<Tick> {
    if t.tp1Lots <= 0.0 || a.rules.None? || a.tick.None? then a.tickAgain else a.tick
  }

  /** The breakeven move is configured, the broker's rules and quote are at hand, and there is room. */
  predicate CouldMoveToBreakeven(cfg: Config, t: Trade, a: Answers) {
    var rules, tick := RulesKnown(t, a), QuoteKnown(t, a);
    && cfg.moveStopToBreakeven && rules.Some? && tick.Some?
    && BreakevenHasRoom(cfg.breakeven, t.side, t.signalEntry, t.planStop, rules.value, tick.value.bid, tick.value.ask)
  }

  /** The same with no room yet. */
  predicate LacksRoom(cfg: Config, t: Trade, a: Answers) {
    var rules, tick := RulesKnown(t, a), QuoteKnown(t, a);
    && cfg.moveStopToBreakeven && rules.Some? && tick.Some?
    && !BreakevenHasRoom(cfg.breakeven, t.side, t.signalEntry, t.planStop, rules.value, tick.value.bid, tick.value.ask)
  }

  /** TP1 lots are set, the broker answers, and it takes the close. */
  predicate TakesLots(t: Trade, a: Answers) {
    t.tp1Lots > 0.0 && a.rules.Some? && a.tick.Some? && a.closeOk
  }

  /** The stop behind entry and buffer. */
  function BreakevenStop(cfg: Config, t: Trade, tick: Tick): real {
    var buffer := Buffer(cfg.breakeven, t.signalEntry, t.planStop, tick.bid, tick.ask);
    if t.side.Buy? then t.signalEntry + buffer else t.signalEntry - buffer
  }

  lemma TryBreakevenIff(cfg: Config, t: Trade, a: Answers)
    ensures TryBreakeven(cfg, t, a).Moved? <==> CouldMoveToBreakeven(cfg, t, a) && a.modifyOk
    ensures TryBreakeven(cfg, t, a).Deferred? <==> LacksRoom(cfg, t, a)
    ensures TryBreakeven(cfg, t, a).Moved? ==> TryBreakeven(cfg, t, a).stop == BreakevenStop(cfg, t, QuoteKnown(t, a).value)
  {
    var rules, tick := RulesKnown(t, a), QuoteKnown(t, a);
    if rules.Some? && tick.Some? {
      BreakevenStopIff(cfg.breakeven, t.side, t.signalEntry, t.planStop, rules.value, tick.value.bid, tick.value.ask);
    }
  }

  /** What reaching TP1 does: the lots go exactly when the broker takes them, the stop moves exactly when
      it is configured to, has room and is accepted, and unless there is neither lots taken nor room, TP1
      is done and announced, once. A trade not at TP1 is left as it is. */
  lemma Tp1Outcome(cfg: Config, m: State, t: Trade, prices: map<int, real>, a: Answers)
    requires t.id in m.store && m.store[t.id] == t && t.ticket in prices
    ensures var after := Visit(cfg, m, t, prices, a);
            var taken, moved := TakesLots(t, a), CouldMoveToBreakeven(cfg, t, a) && a.modifyOk;
            if !AtTp1(m, t, prices) || (!taken && LacksRoom(cfg, t, a)) then after.store == m.store && after.log == m.log
            else
              && after.store == m.store[t.id := t.(
                   tp1Hit := true,
                   currentLots := if taken then t.currentLots - t.tp1Lots else t.currentLots,
                   status := if taken then PartiallyClosed else t.status,
                   stop := if moved then BreakevenStop(cfg, t, QuoteKnown(t, a).value) else t.stop)]
              && after.log == m.log + (if taken then [Entry(LotsClosed, t.id, t.tp1Lots, None)] else [])
                                    + (if moved then [Entry(StopMoved, t.id, 0.0, None)] else [])
                                    + [Entry(Tp1Emitted, t.id, 0.0, None)]
  {
    TryBreakevenIff(cfg, t, a);
  }

  // ---------- A failed partial close ----------

  predicate LogsStopMove(m: State, after: State, t: Trade) {
    m.log <= after.log && Entry(StopMoved, t.id, 0.0, None) in after.log[|m.log|..]
  }

  /** Although no lots were taken at TP1, the broker's stop moves exactly when a breakeven move is
      configured, has room, and is accepted; it then never gives back the entry. */
  lemma StopMovesWithoutPartialIff(cfg: Config, m: State, t: Trade, prices: map<int, real>, a: Answers)
    requires AtTp1(m, t, prices) && !PartialCloses(t, a)
    ensures var after := Visit(cfg, m, t, prices, a);
            && (LogsStopMove(m, after, t) <==> CouldMoveToBreakeven(cfg, t, a) && a.modifyOk)
            && t.id in after.store && (!LogsStopMove(m, after, t) ==> after.store[t.id].stop == t.stop)
            && (LogsStopMove(m, after, t) ==> Gain(t.side, t.signalEntry, after.store[t.id].stop) >= 0.0)
  {
    var after := Visit(cfg, m, t, prices, a);
    TryBreakevenIff(cfg, t, a);
    var moved, emitted := Entry(StopMoved, t.id, 0.0, None), Entry(Tp1Emitted, t.id, 0.0, None);
    if after.log != m.log {
      assert after.log[|m.log|..] == if TryBreakeven(cfg, t, a).Moved? then [moved, emitted] else [emitted];
    }
  }

  /** A failed partial close is tried again exactly when a breakeven move is configured and still lacks
      room; in every other case TP1 counts as done and its lots are never taken. */
  lemma FailedPartialIsRetriedIff(cfg: Config, m: State, t: Trade, prices: map<int, real>, a: Answers)
    requires AtTp1(m, t, prices) && !PartialCloses(t, a)
    ensures var after := Visit(cfg, m, t, prices, a);
            && t.id in after.store && after.store[t.id].currentLots == t.currentLots
            && (!after.store[t.id].tp1Hit <==> LacksRoom(cfg, t, a))
  {
    TryBreakevenIff(cfg, t, a);
  }

  /** Answers under which the partial close fails and the stop moves all the same. */
  lemma MoveAfterFailedPartial(cfg: Config, m: State, t: Trade, prices: map<int, real>) returns (a: Answers)
    requires AtTp1(m, t, prices) && t.signalEntry > 0.0 && cfg.moveStopToBreakeven
    ensures !PartialCloses(t, a) && LogsStopMove(m, Visit(cfg, m, t, prices, a), t)
  {
    var e := t.signalEntry;
    var quote := if t.side.Buy? then 2.0 * e else e / 2.0;
    var rules, tick := StopRules(e / 4.0, 0, 0), Tick(quote, quote);
    a := Answers(Some(rules), Some(tick), false, Some(rules), Some(tick), true, None);
    NoSpreadNoBuffer(cfg.breakeven, e, t.planStop, quote);
    TimesUnit(e / 4.0);
    assert MinDistance(rules) == e / 4.0;
    StopMovesWithoutPartialIff(cfg, m, t, prices, a);
  }

  lemma NoSpreadNoBuffer(cfg: BreakevenConfig, entry: real, planStop: real, quote: real)
    ensures Buffer(cfg, entry, planStop, quote, quote) == 0.0
  {
    TimesUnit(Max(cfg.spreadMultiplier, 0.0));
    TimesMonotone(0.0, Max(cfg.maxBufferPctOfRisk, 0.0) / 100.0, Abs(entry - planStop));
    TimesUnit(Abs(entry - planStop));
  }

  /** The manager's own description, that the stop moves only after a successful partial close, is true
      exactly of configurations that never move it. */
  lemma BreakevenNeedsPartialIff(cfg: Config, m: State, t: Trade, prices: map<int, real>)
    requires AtTp1(m, t, prices) && t.signalEntry > 0.0
    ensures (forall a: Answers :: LogsStopMove(m, Visit(cfg, m, t, prices, a), t) ==> PartialCloses(t, a))
       <==> !cfg.moveStopToBreakeven
  {
    if cfg.moveStopToBreakeven {
      var a := MoveAfterFailedPartial(cfg, m, t, prices);
    } else {
      forall a: Answers | LogsStopMove(m, Visit(cfg, m, t, prices, a), t) ensures PartialCloses(t, a) {
        if !PartialCloses(t, a) {
          StopMovesWithoutPartialIff(cfg, m, t, prices, a);
        }
      }
    }
  }

  // ---------- Missing positions ----------

  /** A tracked trade is closed by the first snapshot that lacks it, a stub only by the third in a row; a
      target already announced keeps either from being closed again. */
  lemma ClosedByTheFirstMissUnlessStub(cfg: Config, m: State, t: Trade, prices: map<int, real>, a: Answers)
    requires t.id in m.store && m.store[t.id] == t && t.ticket !in prices
    ensures t.id !in Visit(cfg, m, t, prices, a).store <==> !t.tp2Hit && (t.stub ==> Misses(m, t.id) >= 2)
    ensures t.stub && t.id !in Visit(cfg, m, t, prices, a).store ==> t.id !in Visit(cfg, m, t, prices, a).misses
  {
  }

  /** A stub's close carries neither price nor R and announces no target or stop. */
  lemma StubClosesSilently(cfg: Config, m: State, t: Trade, prices: map<int, real>, a: Answers)
    requires t.id in m.store && m.store[t.id] == t && t.stub && !t.tp2Hit && t.ticket !in prices && Misses(m, t.id) >= 2
    ensures Visit(cfg, m, t, prices, a).log ==
            m.log + [Entry(ClosedEmitted, t.id, t.currentLots, Some(Closing(ClosedWhileDown, None, None)))]
  {
  }

  lemma StubsSurviveTwoMisses(
    cfg: Config, m: State, t: Trade, first: map<int, real>, second: map<int, real>, third: map<int, real>, a: Answers)
    requires t.id in m.store && m.store[t.id] == t && t.stub && !t.tp2Hit && t.id !in m.misses
    requires t.ticket !in first && t.ticket !in second
    ensures var twice := Visit(cfg, Visit(cfg, m, t, first, a), t, second, a);
            && t.id in twice.store && twice.log == m.log
            && (t.id in Visit(cfg, twice, t, third, a).store <==> t.ticket in third)
            && (t.ticket in third ==> t.id !in Visit(cfg, twice, t, third, a).misses)
  {
  }
}
