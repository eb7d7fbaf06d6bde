/** Days of the execution engine on which the bound on loss and exposure is attained, so that the daily
    limit is exceeded (src/risk/rules.py:216-221). */
module DailyLossRuns {
  import opened Basics
  import opened Products
  import opened MarketRuns
  import opened DailyLoss
  import LotSizing
  import Planner
  import OrderManager
  import RiskEngine
  import LossTracker
  import TierCap

  /** A limit of 5% split into `n` shares, no filters that would refuse a clean signal. */
  function SplitInto(n: nat): Settings {
    Settings(RiskEngine.Config(false, n, 1, 5.0, false, 0.0, 1.0, 1.0), LossTracker.Config(5.0, 0.0, 0, 0.0),
             OrderManager.ExecConfig(0, 0.0, true, false, false), false, 2000.0 * n as real, 100.0, 1.0)
  }

  /** A start equity of which one share is 100. */
  function Opening(n: nat, day: int): LossTracker.State {
    LossTracker.State(0.0, 2000.0 * n as real, Some(day), 0, 0.0, 0.0, 0.0, [], 2000.0 * n as real)
  }

  function Name(i: nat): string {
    seq(i, _ => 'x')
  }

  function Quote(i: nat): LotSizing.SymbolInfo {
    LotSizing.SymbolInfo(Name(i), 2, 0.01, 0.01, 0.01, 0.01, 100.0, 0.01, 100.0, 100.0, 0, 0)
  }

  const PLANNING := Planner.PlanConfig(0.0, 0.0, 1.0, 100.0, 0.01, 50.0, 50.0)

  /** A buy at 100 with its stop at 90, filled whole at its price; the reading shows all of `lost`. */
  function Order(n: nat, i: nat, lost: real): Incoming
    requires n > 0
  {
    Incoming(Planner.Signal(Name(i), Name(i), Buy, 100.0, 90.0, 120.0), PLANNING, Quote(i), lost / (20.0 * n as real),
             None, None, Some(10.0), 1.0, 0,
             Some(Answer(OrderManager.Filled(1, 100.0, 10.0),
                         [OrderManager.Submission(OrderManager.AtMarket, false, 10.0, 100.0, 90.0, 120.0,
                                                  OrderManager.Accepted(1, 100.0, 10.0))],
                         false)))
  }

  function Position(i: nat): Holding {
    Holding(RiskEngine.OpenTrade(Name(i), Name(i), Buy, Some(100.0)), 10.0, 100.0, 90.0, 90.0, 100.0, 90.0, 0.0, 10.0, 1.0, 100.0)
  }

  lemma EveryPositionCostsAShare(i: nat)
    ensures WorstCase(Position(i)) == Cap(Position(i)) == 100.0
  {
  }

  lemma OneShareIsAHundred(n: nat, book: Book, day: int)
    requires n > 0 && book.loss == Opening(n, day)
    ensures Base(SplitInto(n), book) == 100.0 && Budget(SplitInto(n), book) == 100.0 * n as real
  {
    var equity, m := 2000.0 * n as real, n as real;
    assert Times(equity, 5.0 / 100.0) == 100.0 * m;
    TimesQuotient(Times(equity, 5.0 / 100.0), m);
    TimesCancels(Times(equity, 5.0 / 100.0) / m, 100.0, m);
  }

  // ---------- One admission ----------

  /** The open trades carry names shorter than `i`. */
  predicate Shorter(open: seq<Holding>, i: nat) {
    forall h :: h in open ==> |h.trade.signalId| < i && h.trade.symbol == h.trade.signalId
  }

  predicate Ready(n: nat, book: Book, i: nat, lost: real, day: int) {
    n > 0 && book.loss == Opening(n, day) && |book.open| < n && Shorter(book.open, i) && lost + 100.0 <= 95.0 * n as real
  }

  lemma {:induction false} SymbolIsNew(open: seq<Holding>, i: nat)
    requires Shorter(open, i)
    ensures OnSymbol(open, Name(i)) == 0
  {
    if open != [] {
      assert open[|open| - 1] in open;
      SymbolIsNew(open[..|open| - 1], i);
    }
  }

  lemma LossLeavesAShare(n: nat, lost: real)
    requires n > 0 && lost + 100.0 <= 95.0 * n as real
    ensures RiskEngine.JudgeDailyLoss(SplitInto(n).risk, lost / (20.0 * n as real)).Pass?
  {
    var m := n as real;
    var p, q := lost / (20.0 * m), 5.0 / m;
    RiskEngine.DailyLossPassesIff(SplitInto(n).risk, p);
    TimesQuotient(lost, 20.0 * m);
    TimesQuotient(5.0, m);
    TimesAssociates(p, 20.0, m);
    assert Times(Times(p, 20.0), m) == lost && Times(Times(q, 20.0), m) == 100.0;
    TimesDistributes(p, q, m);
    assert Times(4.75, m) * 20.0 == 95.0 * m && Times(p + q, m) * 20.0 == lost + 100.0;
    if p + q > 4.75 {
      TimesStrict(4.75, p + q, m);
    }
  }

  lemma EveryRulePasses(n: nat, book: Book, i: nat, lost: real, day: int, rule: RiskEngine.Rule)
    requires Ready(n, book, i, lost, day)
    ensures RiskEngine.Judge(rule, ContextOf(SplitInto(n), book, Order(n, i, lost))).Pass?
  {
    var ctx := ContextOf(SplitInto(n), book, Order(n, i, lost));
    match rule
    case MaxSymbolExposure => SymbolIsNew(book.open, i);
    case DuplicateSignal =>
      forall t | t in ctx.openTrades ensures !RiskEngine.IsDuplicate(ctx, t) {
        var k :| 0 <= k < |book.open| && Trades(book.open)[k] == t;
        assert book.open[k] in book.open;
      }
    case DailyLossLimit => LossLeavesAShare(n, lost);
    case MinRr => RiskEngine.MinRrPassesIff(ctx);
    case SpreadQuality => RiskEngine.SpreadPassesIff(ctx);
    case _ =>
  }

  lemma OrderIsAdmitted(n: nat, book: Book, i: nat, lost: real, day: int)
    requires Ready(n, book, i, lost, day)
    ensures Admitted(SplitInto(n), book, Order(n, i, lost)) && Multiplier(SplitInto(n), book, Order(n, i, lost)) == 1.0
  {
    var ctx := ContextOf(SplitInto(n), book, Order(n, i, lost));
    forall rule: RiskEngine.Rule ensures RiskEngine.Judge(rule, ctx).Pass? {
      EveryRulePasses(n, book, i, lost, day, rule);
    }
    RiskEngine.RejectsIffSomeRuleDoes(RiskEngine.ALL_RULES, ctx);
    RiskEngine.MultiplierIsAProduct(RiskEngine.ALL_RULES, ctx);
  }

  lemma TenLots()
    ensures LotSizing.NormaliseLots(100.0 / 10.0, 0.01, 0.01, 100.0) == 10.0
  {
    assert 100.0 / 10.0 == 10.0 && 10.0 / 0.01 == 1000.0;
  }

  lemma OrderIsSized(n: nat, book: Book, i: nat, lost: real, day: int)
    requires Ready(n, book, i, lost, day)
    requires Admitted(SplitInto(n), book, Order(n, i, lost)) && Multiplier(SplitInto(n), book, Order(n, i, lost)) == 1.0
    ensures Sized(SplitInto(n), book, Order(n, i, lost))
    ensures HoldingOf(SplitInto(n), Order(n, i, lost)) == Position(i)
  {
    var s, e := SplitInto(n), Order(n, i, lost);
    OneShareIsAHundred(n, book, day);
    assert Ceiling(s, book) == 2000.0 * n as real;
    assert Planner.SizingDistance(e.signal, e.quote, e.planConfig) == 10.0;
    assert Planner.RiskAmount(Base(s, book), 1.0, e.planConfig, Ceiling(s, book)) == 100.0;
    TenLots();
    assert PlanOf(s, book, e).lotSize == 10.0;
    assert !OrderManager.RejectedWith(e.answer.value.log[0], OrderManager.INVALID_STOPS);
  }

  lemma OneAdmission(n: nat, d: Day, i: nat, day: int)
    requires Ready(n, d.book, i, d.lost, day) && d.hidden == 0.0
    ensures var t := Turn(Execute(Order(n, i, d.lost)), 0.0);
            && Allowed(SplitInto(n), d.book, t.event, day)
            && Live(SplitInto(n), d, t) == d.(book := d.book.(open := d.book.open + [Position(i)]))
  {
    var e, equity := Order(n, i, d.lost), 20.0 * n as real;
    OrderIsAdmitted(n, d.book, i, d.lost, day);
    OrderIsSized(n, d.book, i, d.lost, day);
    TimesQuotient(d.lost, equity);
    assert Shown(d.book, e) == Times(100.0 * equity, d.lost / equity / 100.0) == d.lost;
  }

  // ---------- Losing trades, then a full book ----------

  function Positions(k: nat): seq<Holding> {
    if k == 0 then [] else Positions(k - 1) + [Position(k - 1)]
  }

  lemma {:induction false} PositionsAreShorter(k: nat)
    ensures |Positions(k)| == k && Shorter(Positions(k), k)
  {
    if k > 0 {
      PositionsAreShorter(k - 1);
    }
  }

  function Lived(n: nat, day: int, k: nat, lost: real): Day {
    Day(Book(Positions(k), Opening(n, day)), lost, 0.0, 0.0)
  }

  /** One more position, when the loss so far leaves a share. */
  lemma OneMoreOpen(n: nat, day: int, k: nat, lost: real)
    requires k < n && lost + 100.0 <= 95.0 * n as real
    ensures LeadsTo(SplitInto(n), Lived(n, day, k, lost), Turn(Execute(Order(n, k, lost)), 0.0), Lived(n, day, k + 1, lost), day)
  {
    PositionsAreShorter(k);
    OneAdmission(n, Lived(n, day, k, lost), k, day);
  }

  /** Closing the only position at a loss it was sized for leaves nothing open. */
  lemma ClosingTheOnlyPosition(s: Settings, loss: LossTracker.State, h: Holding, lost: real, x: real)
    requires x <= Cap(h)
    ensures Live(s, Day(Book([h], loss), lost, 0.0, 0.0), Turn(CloseTrade(0), x)) == Day(Book([], loss), lost + x, 0.0, 0.0)
  {
    assert [h][..0] + [h][1..] == [] && [h][..0] == [];
    assert Caps([h]) == Cap(h);
  }

  lemma ClosingPosition(s: Settings, loss: LossTracker.State, i: nat, lost: real, x: real)
    requires x <= 100.0
    ensures Live(s, Day(Book([Position(i)], loss), lost, 0.0, 0.0), Turn(CloseTrade(0), x)) == Day(Book([], loss), lost + x, 0.0, 0.0)
  {
    EveryPositionCostsAShare(i);
    ClosingTheOnlyPosition(s, loss, Position(i), lost, x);
  }

  lemma OnePosition()
    ensures Positions(1) == [Position(0)] && Positions(0) == []
  {
  }

  lemma OneMoreLost(n: nat, day: int, lost: real, x: real)
    requires x <= 100.0
    ensures LeadsTo(SplitInto(n), Lived(n, day, 1, lost), Turn(CloseTrade(0), x), Lived(n, day, 0, lost + x), day)
  {
    OnePosition();
    ClosingPosition(SplitInto(n), Opening(n, day), 0, lost, x);
  }

  /** `k` trades opened and lost one by one at `x` each, then positions opened without a close. */
  function TurnAt(n: nat, k: nat, x: real, j: nat): Turn
    requires n > 0
  {
    if j >= 2 * k then Turn(Execute(Order(n, j - 2 * k, Times(k as real, x))), 0.0)
    else if j % 2 == 0 then Turn(Execute(Order(n, 0, Times((j / 2) as real, x))), 0.0)
    else Turn(CloseTrade(0), x)
  }

  function DayAt(n: nat, day: int, k: nat, x: real, j: nat): Day {
    if j >= 2 * k then Lived(n, day, j - 2 * k, Times(k as real, x)) else Lived(n, day, j % 2, Times((j / 2) as real, x))
  }

  predicate Lossy(n: nat, k: nat, x: real) {
    n > 0 && 0.0 <= x <= 100.0 && Times(k as real, x) + 100.0 <= 95.0 * n as real
  }

  lemma EarlierLossesAreSmaller(n: nat, k: nat, x: real, i: nat)
    requires Lossy(n, k, x) && i < k
    ensures Times(i as real, x) + 100.0 <= 95.0 * n as real && Times((i + 1) as real, x) == Times(i as real, x) + x
  {
    TimesMonotone(i as real, k as real, x);
    TimesDistributes(i as real, 1.0, x);
    TimesUnit(x);
  }

  lemma LosingTurnLeadsOn(n: nat, day: int, k: nat, x: real, j: nat)
    requires Lossy(n, k, x) && j < 2 * k
    ensures LeadsTo(SplitInto(n), DayAt(n, day, k, x, j), TurnAt(n, k, x, j), DayAt(n, day, k, x, j + 1), day)
  {
    EarlierLossesAreSmaller(n, k, x, j / 2);
    if j % 2 == 0 {
      OneMoreOpen(n, day, 0, Times((j / 2) as real, x));
    } else {
      OneMoreLost(n, day, Times((j / 2) as real, x), x);
    }
  }

  lemma OpeningTurnLeadsOn(n: nat, day: int, k: nat, x: real, j: nat)
    requires Lossy(n, k, x) && 2 * k <= j < 2 * k + n
    ensures LeadsTo(SplitInto(n), DayAt(n, day, k, x, j), TurnAt(n, k, x, j), DayAt(n, day, k, x, j + 1), day)
  {
    OneMoreOpen(n, day, j - 2 * k, Times(k as real, x));
  }

  function Turns(n: nat, k: nat, x: real): seq<Turn>
    requires n > 0
  {
    seq(2 * k + n, j requires 0 <= j < 2 * k + n => TurnAt(n, k, x, j))
  }

  function Days(n: nat, day: int, k: nat, x: real): seq<Day> {
    seq(2 * k + n + 1, j requires 0 <= j < 2 * k + n + 1 => DayAt(n, day, k, x, j))
  }

  lemma DaysLeadOn(n: nat, day: int, k: nat, x: real, j: nat)
    requires Lossy(n, k, x) && j < 2 * k + n
    ensures LeadsTo(SplitInto(n), Days(n, day, k, x)[j], Turns(n, k, x)[j], Days(n, day, k, x)[j + 1], day)
  {
    if j < 2 * k {
      LosingTurnLeadsOn(n, day, k, x, j);
    } else {
      OpeningTurnLeadsOn(n, day, k, x, j);
    }
  }

  lemma TheDayIsAPath(n: nat, day: int, k: nat, x: real)
    requires Lossy(n, k, x)
    ensures Path(SplitInto(n), Days(n, day, k, x), Turns(n, k, x), day)
  {
    forall j | 0 <= j < 2 * k + n
      ensures LeadsTo(SplitInto(n), Days(n, day, k, x)[j], Turns(n, k, x)[j], Days(n, day, k, x)[j + 1], day)
    {
      DaysLeadOn(n, day, k, x, j);
    }
  }

  lemma DayBegins(n: nat, day: int, k: nat, x: real)
    ensures Days(n, day, k, x)[0] == Morning(Opening(n, day))
    ensures Days(n, day, k, x)[2 * k + n] == Lived(n, day, n, Times(k as real, x))
  {
    TimesUnit(x);
  }

  lemma WholeDay(n: nat, day: int, k: nat, x: real) returns (turns: seq<Turn>)
    requires Lossy(n, k, x)
    ensures AllowedDay(SplitInto(n), Morning(Opening(n, day)), turns, day)
    ensures RunDay(SplitInto(n), Morning(Opening(n, day)), turns) == Lived(n, day, n, Times(k as real, x))
  {
    turns := Turns(n, k, x);
    TheDayIsAPath(n, day, k, x);
    DayBegins(n, day, k, x);
    DayFollows(SplitInto(n), Days(n, day, k, x), turns, day);
  }

  lemma {:induction false} FullBookCosts(k: nat)
    ensures Exposure(Positions(k)) == 100.0 * k as real
  {
    if k > 0 {
      EveryPositionCostsAShare(k - 1);
      FullBookCosts(k - 1);
      assert Positions(k)[..|Positions(k)| - 1] == Positions(k - 1);
    }
  }

  /** Any loss the rule lets through comes on top of a full book: after `k` trades that lost `x` each, `n`
      trades are open that can lose the whole budget. With five shares of 1% and three stop-outs, 8%. */
  lemma LossesThenAFullBook(n: nat, day: int, k: nat, x: real) returns (turns: seq<Turn>)
    requires Lossy(n, k, x)
    ensures AllowedDay(SplitInto(n), Morning(Opening(n, day)), turns, day)
    ensures var d := RunDay(SplitInto(n), Morning(Opening(n, day)), turns);
            && d.hidden == 0.0 && d.overshoot == 0.0 && d.book.loss == Opening(n, day)
            && d.lost + Exposure(d.book.open) == Times(k as real, x) + Budget(SplitInto(n), d.book)
  {
    turns := WholeDay(n, day, k, x);
    FullBookCosts(n);
    OneShareIsAHundred(n, Book(Positions(n), Opening(n, day)), day);
  }

  /** The bound is attained, for every streak of two or more: no smaller one holds, and the daily limit is
      exceeded. */
  lemma BoundIsAttained(n: nat, day: int) returns (turns: seq<Turn>)
    requires n >= 2
    ensures AllowedDay(SplitInto(n), Morning(Opening(n, day)), turns, day)
    ensures var d := RunDay(SplitInto(n), Morning(Opening(n, day)), turns);
            && d.hidden == 0.0 && d.overshoot == 0.0
            && d.lost + Exposure(d.book.open) == Reach(SplitInto(n), d.book) > Budget(SplitInto(n), d.book)
  {
    var x := LargestLoss(n);
    turns := LossesThenAFullBook(n, day, n - 1, x);
    var d := RunDay(SplitInto(n), Morning(Opening(n, day)), turns);
    OneShareIsAHundred(n, d.book, day);
    assert Times(100.0 * n as real, 1.95) == 195.0 * n as real;
  }

  /** The loss per trade with which `n - 1` trades lose all that the rule lets through. */
  lemma LargestLoss(n: nat) returns (x: real)
    requires n >= 2
    ensures Lossy(n, n - 1, x) && Times((n - 1) as real, x) + 100.0 == 95.0 * n as real
  {
    var m := n as real;
    x := (95.0 * m - 100.0) / (m - 1.0);
    TimesQuotient(95.0 * m - 100.0, m - 1.0);
    QuotientOrder(95.0 * m - 100.0, m - 1.0, 0.0);
    QuotientOrder(95.0 * m - 100.0, m - 1.0, 100.0);
    TimesUnit(m - 1.0);
    assert Times(100.0, m - 1.0) == 100.0 * m - 100.0;
    assert (n - 1) as real == m - 1.0;
  }
}
