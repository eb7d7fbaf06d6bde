/** The day's realised loss together with what the open trades can still lose (src/risk/rules.py:213-268,
    src/execution/planner.py:103-125). The daily-loss rule projects one more stop-out onto the loss so
    far; the trades already open are not in its sum. */
module DailyLoss {
  import opened Basics
  import opened Products
  import opened MarketRuns
  import Planner
  import RiskEngine
  import LossTracker

  /** An event of the day and what it realised as a loss; profits are negative. */
  datatype Turn = Turn(event: Event, loss: real)

  /** The book, the loss realised today, the most of it that a loss reading hid at an admission, and what
      closes lost beyond what their trades were sized for (all of it for a fill that slipped too far). */
  datatype Day = Day(book: Book, lost: real, hidden: real, overshoot: real)

  /** What a trade was sized to lose at most. */
  function Cap(h: Holding): real {
    Planner.WorstLoss(h.lots, h.covered, h.valuePerPrice)
  }

  function Caps(open: seq<Holding>): real {
    if open == [] then 0.0 else Caps(open[..|open| - 1]) + Cap(open[|open| - 1])
  }

  function Equity(book: Book): real {
    Max(0.0, book.loss.startEquity)
  }

  function Budget(s: Settings, book: Book): real {
    Times(Equity(book), s.loss.limitPct / 100.0)
  }

  /** The loss that the day's reading shows: a percentage of the start equity. */
  function Shown(book: Book, e: Incoming): real {
    Times(Equity(book), e.dailyLossPct / 100.0)
  }

  function Live(s: Settings, d: Day, t: Turn): Day {
    var after := Apply(s, d.book, t.event);
    match t.event
    case Execute(e) =>
      if Admitted(s, d.book, e) && Fills(e) then d.(book := after, hidden := Max(d.hidden, d.lost - Shown(d.book, e)))
      else d.(lost := d.lost + t.loss, overshoot := d.overshoot + Max(0.0, t.loss))
    case LossUpdate(_) => d.(book := after)
    case Cascade(_, _) => d.(book := after)
    case Breakeven(_, _, _, _, _) => d.(book := after)
    case _ =>
      d.(book := after, lost := d.lost + t.loss,
         overshoot := d.overshoot + Max(0.0, t.loss - (Caps(d.book.open) - Caps(after.open))))
  }

  function RunDay(s: Settings, d: Day, turns: seq<Turn>): Day {
    if turns == [] then d else Live(s, RunDay(s, d, turns[..|turns| - 1]), turns[|turns| - 1])
  }

  ghost predicate AllowedDay(s: Settings, d: Day, turns: seq<Turn>, day: int) {
    turns != [] ==>
      && AllowedDay(s, d, turns[..|turns| - 1], day)
      && Allowed(s, RunDay(s, d, turns[..|turns| - 1]).book, turns[|turns| - 1].event, day)
  }

  /** The turn is allowed and leads from one state to the other. */
  ghost predicate LeadsTo(s: Settings, d: Day, t: Turn, next: Day, day: int) {
    Allowed(s, d.book, t.event, day) && Live(s, d, t) == next
  }

  ghost predicate Path(s: Settings, days: seq<Day>, turns: seq<Turn>, day: int) {
    |days| == |turns| + 1 && forall i :: 0 <= i < |turns| ==> LeadsTo(s, days[i], turns[i], days[i + 1], day)
  }

  /** A day follows the states that its turns lead through. */
  lemma {:induction false} DayFollows(s: Settings, days: seq<Day>, turns: seq<Turn>, day: int)
    requires Path(s, days, turns, day)
    ensures AllowedDay(s, days[0], turns, day) && RunDay(s, days[0], turns) == days[|turns|]
  {
    if turns != [] {
      var last := |turns| - 1;
      DayFollows(s, days[..|turns|], turns[..last], day);
      assert LeadsTo(s, days[last], turns[last], days[last + 1], day);
    }
  }

  /** One daily limit serves the rule and the sizing (src/app/container.py:84-85). */
  predicate OneLimit(s: Settings) {
    s.risk.maxDailyLossPct == s.loss.limitPct
  }

  // ---------- The bound ----------

  /** 95% of the budget may be lost, short of one trade's share, and the full budget be open on top. */
  function Reach(s: Settings, book: Book): real {
    Times(Budget(s, book), 1.95) - Base(s, book)
  }

  ghost predicate DayInv(s: Settings, d: Day, day: int) {
    && LossTracker.InDay(d.book.loss, day) && StoreInv(s, d.book.open) && AllFit(d.book.open, Base(s, d.book))
    && d.hidden >= 0.0 && d.overshoot >= 0.0
    && d.lost + Caps(d.book.open) <= Reach(s, d.book) + d.hidden + d.overshoot
  }

  lemma {:induction false} CapsAreBounded(open: seq<Holding>, base: real)
    requires AllFit(open, base)
    ensures Exposure(open) <= Caps(open) <= Times(base, |open| as real)
  {
    TimesUnit(base);
    if open != [] {
      var front, last := open[..|open| - 1], open[|open| - 1];
      assert last in open;
      CapsAreBounded(front, base);
      TimesMonotone(DistanceTo(last, last.stop), last.covered, last.valuePerPrice);
      TimesMonotone(Times(DistanceTo(last, last.stop), last.valuePerPrice), Times(last.covered, last.valuePerPrice), last.lots);
      TimesDistributes(|front| as real, 1.0, base);
      assert |open| as real == |front| as real + 1.0;
    }
  }

  // Stop moves leave sizes and covered distances as they were.
  lemma {:induction false} CapsFollowSizes(a: seq<Holding>, b: seq<Holding>)
    requires |a| == |b| && forall i :: 0 <= i < |a| ==> Cap(a[i]) == Cap(b[i])
    ensures Caps(a) == Caps(b)
  {
    if a != [] {
      CapsFollowSizes(a[..|a| - 1], b[..|b| - 1]);
    }
  }

  /** The slots' shares make up the budget. */
  lemma SharesMakeTheBudget(s: Settings, book: Book)
    requires s.loss.limitPct >= 0.0
    ensures 0.0 <= Base(s, book) <= Budget(s, book)
    ensures Times(Base(s, book), RiskEngine.Slots(s.risk) as real) == Budget(s, book)
    ensures 0.0 <= Reach(s, book)
  {
    var n := RiskEngine.Slots(s.risk) as real;
    BaseIsNonNegative(s, book);
    TimesUnit(s.loss.limitPct / 100.0);
    TimesUnit(n);
    if book.loss.startEquity > 0.0 {
      LossTracker.SlotsShareTheBudget(s.loss, book.loss, s.risk.maxLosingStreak);
    }
    TimesMonotone(1.0, n, Base(s, book));
    TimesUnit(Base(s, book));
    TimesMonotone(0.0, s.loss.limitPct / 100.0, Equity(book));
  }

  /** What the daily-loss rule lets through, in money. */
  lemma AdmissionLeavesRoom(s: Settings, book: Book, e: Incoming)
    requires OneLimit(s) && s.loss.limitPct >= 0.0 && Admitted(s, book, e)
    ensures Shown(book, e) + Base(s, book) <= Times(Budget(s, book), 0.95)
  {
    var n, limit, pct := RiskEngine.Slots(s.risk) as real, s.loss.limitPct, e.dailyLossPct;
    RiskEngine.ApprovalMeans(ContextOf(s, book, e));
    assert pct + limit / n <= Times(limit, 0.95);
    if book.loss.startEquity > 0.0 {
      var equity := book.loss.startEquity;
      TimesMonotone((pct + limit / n) / 100.0, Times(limit, 0.95) / 100.0, equity);
      TimesDistributes(pct / 100.0, limit / n / 100.0, equity);
      assert (pct + limit / n) / 100.0 == pct / 100.0 + limit / n / 100.0;
      ShareOfEquity(equity, limit, n);
      TimesAssociates(equity, limit / 100.0, 0.95);
      assert Times(limit, 0.95) / 100.0 == Times(limit / 100.0, 0.95);
    } else {
      TimesUnit(pct / 100.0);
      TimesUnit(limit / 100.0);
      TimesUnit(0.95);
    }
  }

  lemma ShareOfEquity(equity: real, limit: real, n: real)
    requires n > 0.0
    ensures Times(equity, limit / n / 100.0) == Times(equity, limit / 100.0) / n
  {
    var x, y := Times(equity, limit / n / 100.0), Times(equity, limit / 100.0) / n;
    TimesQuotient(Times(equity, limit / 100.0), n);
    TimesQuotient(limit, n);
    TimesAssociates(equity, limit / n / 100.0, n);
    assert Times(limit / n / 100.0, n) == limit / 100.0 by {
      TimesCommutes(limit / n, n);
      assert Times(limit / n / 100.0, n) == Times(limit / n, n) / 100.0;
    }
    TimesCancels(x, y, n);
  }

  lemma AdmissionKeepsDayInv(s: Settings, d: Day, e: Incoming, loss: real, day: int)
    requires ValidSettings(s) && OneLimit(s) && day >= 0 && DayInv(s, d, day) && Allowed(s, d.book, Execute(e), day)
    ensures DayInv(s, Live(s, d, Turn(Execute(e), loss)), day)
  {
    var d' := Live(s, d, Turn(Execute(e), loss));
    FitsAfterStep(s, d.book, Execute(e), day);
    StoreInvSurvivesStep(s, d.book, Execute(e));
    if Admitted(s, d.book, e) && Fills(e) {
      AdmissionLeavesRoom(s, d.book, e);
      SharesMakeTheBudget(s, d.book);
      CapsAreBounded(d'.book.open, Base(s, d.book));
      TimesMonotone(|d'.book.open| as real, RiskEngine.Slots(s.risk) as real, Base(s, d.book));
    }
  }

  lemma ReachNeverShrinks(s: Settings, book: Book, update: LossTracker.Event, day: int)
    requires ValidSettings(s) && LossTracker.InDay(book.loss, day) && LossTracker.DayOf(update.now) == day
    ensures Reach(s, book) <= Reach(s, Apply(s, book, LossUpdate(update)))
  {
    var after := Apply(s, book, LossUpdate(update));
    SharesMakeTheBudget(s, book);
    SharesMakeTheBudget(s, after);
    if book.loss.startEquity > 0.0 {
      assert after.loss.startEquity == book.loss.startEquity;
    } else {
      TimesUnit(s.loss.limitPct / 100.0);
    }
  }

  lemma StopMoveKeepsDayInv(s: Settings, d: Day, t: Turn, day: int)
    requires ValidSettings(s) && day >= 0 && DayInv(s, d, day) && (t.event.Cascade? || t.event.Breakeven?)
    ensures DayInv(s, Live(s, d, t), day)
  {
    FitsAfterStep(s, d.book, t.event, day);
    StoreInvSurvivesStep(s, d.book, t.event);
    CapsFollowSizes(Apply(s, d.book, t.event).open, d.book.open);
  }

  lemma RealisingKeepsDayInv(s: Settings, d: Day, t: Turn, day: int)
    requires ValidSettings(s) && day >= 0 && DayInv(s, d, day) && Allowed(s, d.book, t.event, day)
    requires t.event.CloseTrade? || t.event.Reduce?
    ensures DayInv(s, Live(s, d, t), day)
  {
    FitsAfterStep(s, d.book, t.event, day);
    StoreInvSurvivesStep(s, d.book, t.event);
  }

  lemma TurnKeepsDayInv(s: Settings, d: Day, t: Turn, day: int)
    requires ValidSettings(s) && OneLimit(s) && day >= 0 && DayInv(s, d, day) && Allowed(s, d.book, t.event, day)
    ensures DayInv(s, Live(s, d, t), day)
  {
    match t.event
    case Execute(e) => AdmissionKeepsDayInv(s, d, e, t.loss, day);
    case LossUpdate(update) =>
      FitsAfterStep(s, d.book, t.event, day);
      ReachNeverShrinks(s, d.book, update, day);
    case CloseTrade(_) => RealisingKeepsDayInv(s, d, t, day);
    case Reduce(_, _) => RealisingKeepsDayInv(s, d, t, day);
    case _ => StopMoveKeepsDayInv(s, d, t, day);
  }

  function Morning(loss: LossTracker.State): Day {
    Day(Book([], loss), 0.0, 0.0, 0.0)
  }

  lemma {:induction false} DayKeepsInv(s: Settings, loss: LossTracker.State, turns: seq<Turn>, day: int)
    requires ValidSettings(s) && OneLimit(s) && day >= 0 && LossTracker.InDay(loss, day) && AllowedDay(s, Morning(loss), turns, day)
    ensures DayInv(s, RunDay(s, Morning(loss), turns), day)
  {
    if turns == [] {
      SharesMakeTheBudget(s, Book([], loss));
      EmptyStoreIsFine(s);
    } else {
      DayKeepsInv(s, loss, turns[..|turns| - 1], day);
      TurnKeepsDayInv(s, RunDay(s, Morning(loss), turns[..|turns| - 1]), turns[|turns| - 1], day);
    }
  }

  /** At every moment of every market-only day, what was lost and what being stopped out of everything
      would cost stay together within 1.95 times the daily budget less one trade's share, plus the loss
      that readings hid and what closes lost beyond their sizing. */
  lemma DayLossAndExposureAreBounded(s: Settings, loss: LossTracker.State, turns: seq<Turn>, day: int)
    requires ValidSettings(s) && OneLimit(s) && day >= 0 && LossTracker.InDay(loss, day) && AllowedDay(s, Morning(loss), turns, day)
    ensures var d := RunDay(s, Morning(loss), turns);
            d.lost + Exposure(d.book.open) <= Reach(s, d.book) + d.hidden + d.overshoot
  {
    var d := RunDay(s, Morning(loss), turns);
    DayKeepsInv(s, loss, turns, day);
    CapsAreBounded(d.book.open, Base(s, d.book));
  }

  /** The daily limit itself is this bound only for a configuration that never trades. */
  lemma ReachExceedsTheBudgetIff(s: Settings, book: Book)
    requires s.loss.limitPct > 0.0 && book.loss.startEquity > 0.0
    ensures Reach(s, book) > Budget(s, book) <==> s.risk.maxLosingStreak >= 2
  {
    var n, b, share := RiskEngine.Slots(s.risk) as real, Budget(s, book), Base(s, book);
    SharesMakeTheBudget(s, book);
    TimesPositive(book.loss.startEquity, s.loss.limitPct / 100.0);
    TimesUnit(share);
    assert Times(b, 1.95) - b == Times(b, 0.95);
    TimesAssociates(share, n, 0.95);
    if s.risk.maxLosingStreak >= 2 {
      assert share > 0.0;
      TimesStrict(1.0, Times(n, 0.95), share);
    }
  }
}
