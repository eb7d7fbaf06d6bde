/** The three intraday guards and the latched start-of-day equity (src/risk/loss_tracker.py). Days are
    24-hour blocks of the millisecond clock; one instant is read per call. */
module LossTracker {
  import opened Basics
  import opened Products
  import opened TierCap

  datatype Config = Config(
    limitPct: real, maxProfitDrawdownPct: real, rollingWindowSize: nat, rollingDrawdownPct: real)

  datatype State = State(
    currentPct: real, startEquity: real, trackedDay: Option<int>, pausedUntil: int,
    closedPnl: real, closedPeak: real, drawbackPct: real, equityWindow: seq<real>, equityPeak: real)

  const INITIAL := State(0.0, 0.0, None, 0, 0.0, 0.0, 0.0, [], 0.0)

  function DayOf(now: int): int {
    now / DAY_MS
  }

  function DayEnd(day: int): int {
    (day + 1) * DAY_MS
  }

  function IsPaused(st: State, now: int): bool {
    st.pausedUntil != 0 && now < st.pausedUntil
  }

  // ---------- Specification ----------

  function EnterDay(st: State, startEquity: real, today: int): State {
    if st.trackedDay != Some(today) then
      var latched := if startEquity > 0.0 then startEquity else 0.0;
      State(st.currentPct, latched, Some(today), 0, 0.0, 0.0, 0.0, [], latched)
    else if st.startEquity <= 0.0 && startEquity > 0.0 then st.(startEquity := startEquity, equityPeak := startEquity)
    else st
  }

  function UpdateDailyLoss(cfg: Config, st: State, pct: real, startEquity: real, now: int): State {
    var entered := EnterDay(st.(currentPct := pct), startEquity, DayOf(now));
    var expired := if entered.pausedUntil != 0 && now >= entered.pausedUntil then entered.(pausedUntil := 0) else entered;
    if pct >= cfg.limitPct then expired.(pausedUntil := DayEnd(DayOf(now))) else expired
  }

  /** A guard that is not the daily limit never replaces a pause still running. */
  function PauseUnlessPaused(st: State, now: int): State {
    if IsPaused(st, now) then st else st.(pausedUntil := DayEnd(DayOf(now)))
  }

  /** A drop as a percentage of what it is measured against. */
  function DropPct(drop: real, base: real): real
    requires base > 0.0
  {
    drop / base * 100.0
  }

  function BookClose(st: State, pnl: real): State {
    var total := st.closedPnl + pnl;
    var peak := if total > st.closedPeak then total else st.closedPeak;
    st.(closedPnl := total, closedPeak := peak,
        drawbackPct := if peak > 0.0 && st.startEquity > 0.0 then DropPct(peak - total, st.startEquity) else 0.0)
  }

  predicate ProfitGuardFires(cfg: Config, booked: State) {
    cfg.maxProfitDrawdownPct > 0.0 && booked.drawbackPct >= cfg.maxProfitDrawdownPct
  }

  function RecordTradeClosed(cfg: Config, st: State, pnl: real, now: int): State {
    var booked := BookClose(st, pnl);
    if ProfitGuardFires(cfg, booked) then PauseUnlessPaused(booked, now) else booked
  }

  // A deque with a maximal length drops its oldest entry.
  function Push(window: seq<real>, x: real, size: nat): seq<real> {
    var longer := window + [x];
    if |longer| > size then longer[|longer| - size..] else longer
  }

  function Highest(s: seq<real>): real
    requires s != []
  {
    if |s| == 1 then s[0] else Max(Highest(s[..|s| - 1]), s[|s| - 1])
  }

  function Lowest(s: seq<real>): real
    requires s != []
  {
    if |s| == 1 then s[0] else Min(Lowest(s[..|s| - 1]), s[|s| - 1])
  }

  predicate RollingGuardFires(cfg: Config, window: seq<real>) {
    |window| >= 3 && Highest(window) > 0.0
    && DropPct(Highest(window) - Lowest(window), Highest(window)) >= cfg.rollingDrawdownPct
  }

  predicate RollingOn(cfg: Config) {
    cfg.rollingWindowSize > 0 && cfg.rollingDrawdownPct > 0.0
  }

  function UpdateEquity(cfg: Config, st: State, equity: real, now: int): State {
    if equity <= 0.0 then st
    else
      var peaked := st.(equityPeak := Max(st.equityPeak, equity));
      if !RollingOn(cfg) then peaked
      else
        var pushed := peaked.(equityWindow := Push(st.equityWindow, equity, cfg.rollingWindowSize));
        if RollingGuardFires(cfg, pushed.equityWindow) then PauseUnlessPaused(pushed, now) else pushed
  }

  function DailyRiskAmount(cfg: Config, st: State, maxLosingStreak: int): real {
    if st.startEquity <= 0.0 then 0.0
    else Times(st.startEquity, cfg.limitPct / 100.0) / (if maxLosingStreak < 1 then 1 else maxLosingStreak) as real
  }

  // ---------- The tracker ----------

  method PeakAndTrough(s: seq<real>) returns (peak: real, trough: real)
    requires s != []
    ensures peak == Highest(s) && trough == Lowest(s)
    ensures forall x :: x in s ==> trough <= x <= peak
    ensures peak in s && trough in s
  {
    peak, trough := s[0], s[0];
    for i := 1 to |s|
      invariant peak == Highest(s[..i]) && trough == Lowest(s[..i])
      invariant forall x :: x in s[..i] ==> trough <= x <= peak
      invariant peak in s[..i] && trough in s[..i]
    {
      assert s[..i + 1] == s[..i] + [s[i]];
      assert s[..i + 1][..i] == s[..i];
      peak, trough := Max(peak, s[i]), Min(trough, s[i]);
    }
    assert s[..|s|] == s;
  }

  method WindowFires(cfg: Config, window: seq<real>) returns (fires: bool)
    ensures fires == RollingGuardFires(cfg, window)
  {
    if |window| < 3 {
      return false;
    }
    var peak, trough := PeakAndTrough(window);
    return peak > 0.0 && DropPct(peak - trough, peak) >= cfg.rollingDrawdownPct;
  }

  class Tracker {
    const config: Config
    var currentPct: real
    var startOfDayEquity: real
    var trackedDay: Option<int>
    var pausedUntil: int
    var sessionClosedPnl: real
    var sessionClosedPeak: real
    var profitDrawbackPct: real
    var equityWindow: seq<real>
    var equityPeak: real

    ghost function Now(): State
      reads this
    {
      State(currentPct, startOfDayEquity, trackedDay, pausedUntil, sessionClosedPnl, sessionClosedPeak,
            profitDrawbackPct, equityWindow, equityPeak)
    }

    constructor (config: Config)
      ensures this.config == config && Now() == INITIAL
    {
      this.config := config;
      currentPct, startOfDayEquity, trackedDay, pausedUntil := 0.0, 0.0, None, 0;
      sessionClosedPnl, sessionClosedPeak, profitDrawbackPct := 0.0, 0.0, 0.0;
      equityWindow, equityPeak := [], 0.0;
    }

    method UpdateDailyLossPct(pct: real, startEquity: real, now: int)
      modifies this
      ensures Now() == UpdateDailyLoss(config, old(Now()), pct, startEquity, now)
    {
      currentPct := pct;
      var today := DayOf(now);
      if trackedDay != Some(today) {
        trackedDay := Some(today);
        profitDrawbackPct, sessionClosedPnl, sessionClosedPeak := 0.0, 0.0, 0.0;
        equityWindow, pausedUntil := [], 0;
        if startEquity > 0.0 {
          startOfDayEquity, equityPeak := startEquity, startEquity;
        } else {
          startOfDayEquity, equityPeak := 0.0, 0.0;
        }
      } else if startOfDayEquity <= 0.0 && startEquity > 0.0 {
        startOfDayEquity, equityPeak := startEquity, startEquity;
      }
      if pausedUntil != 0 && now >= pausedUntil {
        pausedUntil := 0;
      }
      if pct >= config.limitPct {
        pausedUntil := DayEnd(today);
      }
    }

    method RecordClose(realizedPnl: real, now: int)
      modifies this
      ensures Now() == RecordTradeClosed(config, old(Now()), realizedPnl, now)
    {
      sessionClosedPnl := sessionClosedPnl + realizedPnl;
      if sessionClosedPnl > sessionClosedPeak {
        sessionClosedPeak := sessionClosedPnl;
      }
      if sessionClosedPeak > 0.0 && startOfDayEquity > 0.0 {
        profitDrawbackPct := DropPct(sessionClosedPeak - sessionClosedPnl, startOfDayEquity);
      } else {
        profitDrawbackPct := 0.0;
      }
      if config.maxProfitDrawdownPct > 0.0 && profitDrawbackPct >= config.maxProfitDrawdownPct {
        if pausedUntil == 0 || now >= pausedUntil {
          pausedUntil := DayEnd(DayOf(now));
        }
      }
    }

    method ObserveEquity(equity: real, now: int)
      modifies this
      ensures Now() == UpdateEquity(config, old(Now()), equity, now)
    {
      if equity <= 0.0 {
        return;
      }
      if equity > equityPeak {
        equityPeak := equity;
      }
      if config.rollingWindowSize > 0 && config.rollingDrawdownPct > 0.0 {
        equityWindow := Push(equityWindow, equity, config.rollingWindowSize);
        var fires := WindowFires(config, equityWindow);
        if fires && (pausedUntil == 0 || now >= pausedUntil) {
          pausedUntil := DayEnd(DayOf(now));
        }
      }
    }
  }

  // ---------- Runs ----------

  datatype Event =
    | DailyLoss(pct: real, startEquity: real, now: int)
    | TradeClosed(pnl: real, now: int)
    | Equity(equity: real, now: int)

  function Step(cfg: Config, st: State, e: Event): State {
    match e
    case DailyLoss(pct, startEquity, now) => UpdateDailyLoss(cfg, st, pct, startEquity, now)
    case TradeClosed(pnl, now) => RecordTradeClosed(cfg, st, pnl, now)
    case Equity(equity, now) => UpdateEquity(cfg, st, equity, now)
  }

  function Run(cfg: Config, st: State, events: seq<Event>): State {
    if events == [] then st else Step(cfg, Run(cfg, st, events[..|events| - 1]), events[|events| - 1])
  }

  // ---------- The guards in readings and closes ----------

  /** At least three readings, the largest of them positive and above another by the limit or more. */
  predicate Drops(readings: seq<real>, limitPct: real) {
    |readings| >= 3
    && exists a, b :: a in readings && b in readings && (forall x :: x in readings ==> x <= a)
                      && a > 0.0 && Times(a - b, 100.0) >= Times(limitPct, a)
  }

  lemma {:induction false} ExtremesAreAttained(s: seq<real>)
    requires s != []
    ensures Highest(s) in s && Lowest(s) in s && forall x :: x in s ==> Lowest(s) <= x <= Highest(s)
  {
    if |s| > 1 {
      var front, last := s[..|s| - 1], s[|s| - 1];
      ExtremesAreAttained(front);
      assert forall x :: x in front ==> x in s;
      assert forall x :: x in s ==> x in front || x == last;
    }
  }

  lemma PercentAtLeast(drop: real, base: real, pct: real)
    requires base > 0.0
    ensures DropPct(drop, base) >= pct <==> Times(drop, 100.0) >= Times(pct, base)
  {
    QuotientOrder(drop, base, pct / 100.0);
    assert Times(pct / 100.0, base) * 100.0 == Times(pct, base);
  }

  lemma RollingGuardIff(cfg: Config, window: seq<real>)
    ensures RollingGuardFires(cfg, window) <==> Drops(window, cfg.rollingDrawdownPct)
  {
    if |window| >= 3 {
      ExtremesAreAttained(window);
      var high, low := Highest(window), Lowest(window);
      if high > 0.0 {
        PercentAtLeast(high - low, high, cfg.rollingDrawdownPct);
      }
      if Drops(window, cfg.rollingDrawdownPct) {
        var a, b :| a in window && b in window && (forall x :: x in window ==> x <= a)
                    && a > 0.0 && Times(a - b, 100.0) >= Times(cfg.rollingDrawdownPct, a);
        assert a == high && low <= b;
        TimesMonotone(a - b, high - low, 100.0);
      }
    }
  }

  /** The session's closes, with this one, lie the limit or more of the start equity below their peak. */
  predicate GivesBack(cfg: Config, st: State, pnl: real) {
    var total := st.closedPnl + pnl;
    var peak := Max(st.closedPeak, total);
    && cfg.maxProfitDrawdownPct > 0.0 && st.startEquity > 0.0 && peak > 0.0
    && Times(peak - total, 100.0) >= Times(cfg.maxProfitDrawdownPct, st.startEquity)
  }

  lemma ProfitGuardIff(cfg: Config, st: State, pnl: real)
    ensures ProfitGuardFires(cfg, BookClose(st, pnl)) <==> GivesBack(cfg, st, pnl)
  {
    var total := st.closedPnl + pnl;
    if st.startEquity > 0.0 {
      PercentAtLeast(Max(st.closedPeak, total) - total, st.startEquity, cfg.maxProfitDrawdownPct);
    }
  }

  /** The window with the new reading, of which only the last `size` count. */
  function LastOf(readings: seq<real>, size: nat): seq<real> {
    if |readings| <= size then readings else readings[|readings| - size..]
  }

  /** One of the three guards trips on this event. */
  predicate GuardFires(cfg: Config, st: State, e: Event) {
    match e
    case DailyLoss(pct, _, _) => pct >= cfg.limitPct
    case TradeClosed(pnl, _) => GivesBack(cfg, st, pnl)
    case Equity(equity, _) =>
      && equity > 0.0 && cfg.rollingWindowSize > 0 && cfg.rollingDrawdownPct > 0.0
      && Drops(LastOf(st.equityWindow + [equity], cfg.rollingWindowSize), cfg.rollingDrawdownPct)
  }

  predicate AllInDay(events: seq<Event>, day: int) {
    forall e :: e in events ==> DayOf(e.now) == day
  }

  /** The day's first update has run. */
  predicate InDay(st: State, day: int) {
    st.trackedDay == Some(day) && (st.pausedUntil == 0 || st.pausedUntil == DayEnd(day))
  }

  lemma InsideDay(now: int)
    ensures DayOf(now) * DAY_MS <= now < DayEnd(DayOf(now))
  {
  }

  lemma StepStaysInDay(cfg: Config, st: State, e: Event, day: int)
    requires day >= 0 && InDay(st, day) && DayOf(e.now) == day
    ensures InDay(Step(cfg, st, e), day)
    ensures st.pausedUntil == DayEnd(day) || GuardFires(cfg, st, e) ==> Step(cfg, st, e).pausedUntil == DayEnd(day)
    ensures st.pausedUntil == 0 && !GuardFires(cfg, st, e) ==> Step(cfg, st, e).pausedUntil == 0
  {
    InsideDay(e.now);
    match e
    case DailyLoss(_, _, _) =>
    case TradeClosed(pnl, _) => ProfitGuardIff(cfg, st, pnl);
    case Equity(equity, _) => RollingGuardIff(cfg, Push(st.equityWindow, equity, cfg.rollingWindowSize));
  }

  lemma {:induction false} RunStaysInDay(cfg: Config, st: State, events: seq<Event>, day: int)
    requires day >= 0 && InDay(st, day) && AllInDay(events, day)
    ensures InDay(Run(cfg, st, events), day)
    ensures st.pausedUntil == DayEnd(day) ==> Run(cfg, st, events).pausedUntil == DayEnd(day)
  {
    if events != [] {
      var front, e := events[..|events| - 1], events[|events| - 1];
      assert e in events && forall d :: d in front ==> d in events;
      RunStaysInDay(cfg, st, front, day);
      StepStaysInDay(cfg, Run(cfg, st, front), e, day);
    }
  }

  lemma FirstUpdateEntersDay(cfg: Config, st: State, first: Event)
    requires first.DailyLoss? && first.now >= 0 && st.trackedDay != Some(DayOf(first.now))
    ensures InDay(Step(cfg, st, first), DayOf(first.now))
  {
    InsideDay(first.now);
  }

  /** Pause latching: after the day's first update, once any guard fires the tracker is paused at
      every later instant of that day, whatever updates arrive in whatever order. */
  lemma PauseLatchesForTheDay(cfg: Config, before: State, first: Event, calm: seq<Event>, firing: Event, rest: seq<Event>, at: int)
    requires first.DailyLoss? && first.now >= 0 && before.trackedDay != Some(DayOf(first.now))
    requires AllInDay(calm, DayOf(first.now)) && AllInDay(rest, DayOf(first.now))
    requires DayOf(firing.now) == DayOf(first.now) == DayOf(at)
    requires GuardFires(cfg, Run(cfg, Step(cfg, before, first), calm), firing)
    ensures IsPaused(Run(cfg, Step(cfg, Run(cfg, Step(cfg, before, first), calm), firing), rest), at)
  {
    var day := DayOf(first.now);
    FirstUpdateEntersDay(cfg, before, first);
    RunStaysInDay(cfg, Step(cfg, before, first), calm, day);
    StepStaysInDay(cfg, Run(cfg, Step(cfg, before, first), calm), firing, day);
    RunStaysInDay(cfg, Step(cfg, Run(cfg, Step(cfg, before, first), calm), firing), rest, day);
    InsideDay(at);
  }

  /** The profit and rolling guards never move a pause that is running, and a loss reading leaves none on
      record that has run out. */
  lemma RunningPauseStands(cfg: Config, st: State, e: Event)
    ensures IsPaused(st, e.now) && !e.DailyLoss? ==> Step(cfg, st, e).pausedUntil == st.pausedUntil
    ensures e.DailyLoss? ==> var until := Step(cfg, st, e).pausedUntil; until == 0 || e.now < until
  {
    InsideDay(e.now);
  }

  /** A pause never outlives its day. */
  lemma PauseEndsWithTheDay(cfg: Config, before: State, first: Event, events: seq<Event>, at: int)
    requires first.DailyLoss? && first.now >= 0 && before.trackedDay != Some(DayOf(first.now))
    requires AllInDay(events, DayOf(first.now)) && DayOf(at) > DayOf(first.now)
    ensures !IsPaused(Run(cfg, Step(cfg, before, first), events), at)
  {
    FirstUpdateEntersDay(cfg, before, first);
    RunStaysInDay(cfg, Step(cfg, before, first), events, DayOf(first.now));
    InsideDay(at);
  }

  predicate SomeGuardFired(cfg: Config, st: State, events: seq<Event>) {
    events != [] &&
    var front := events[..|events| - 1];
    SomeGuardFired(cfg, st, front) || GuardFires(cfg, Run(cfg, st, front), events[|events| - 1])
  }

  /** Within a day, paused means exactly that some guard has fired since the first update, or had
      fired in it. */
  lemma {:induction false} PausedIffSomeGuardFired(cfg: Config, st: State, events: seq<Event>, day: int, at: int)
    requires day >= 0 && InDay(st, day) && AllInDay(events, day) && DayOf(at) == day
    ensures IsPaused(Run(cfg, st, events), at) <==> IsPaused(st, at) || SomeGuardFired(cfg, st, events)
  {
    InsideDay(at);
    if events != [] {
      var front, e := events[..|events| - 1], events[|events| - 1];
      assert e in events && forall d :: d in front ==> d in events;
      PausedIffSomeGuardFired(cfg, st, front, day, at);
      RunStaysInDay(cfg, st, front, day);
      StepStaysInDay(cfg, Run(cfg, st, front), e, day);
    }
  }

  // ---------- The guards over a day ----------

  /** The positive equity readings, oldest first. */
  function Readings(events: seq<Event>): seq<real> {
    if events == [] then []
    else
      var e := events[|events| - 1];
      Readings(events[..|events| - 1]) + if e.Equity? && e.equity > 0.0 then [e.equity] else []
  }

  /** The profits and losses booked, oldest first. */
  function Booked(events: seq<Event>): seq<real> {
    if events == [] then []
    else
      var e := events[|events| - 1];
      Booked(events[..|events| - 1]) + if e.TradeClosed? then [e.pnl] else []
  }

  /** What the day's first update leaves: no readings and no closes. */
  predicate Opened(st: State) {
    st.equityWindow == [] && st.closedPnl == 0.0 && st.closedPeak == 0.0
  }

  lemma LastOfLast(readings: seq<real>, x: real, size: nat)
    ensures LastOf(LastOf(readings, size) + [x], size) == LastOf(readings + [x], size)
    ensures Push(LastOf(readings, size), x, size) == LastOf(readings + [x], size)
  {
  }

  lemma WindowAfter(cfg: Config, st: State, e: Event, day: int)
    requires day >= 0 && InDay(st, day) && DayOf(e.now) == day && RollingOn(cfg)
    ensures Step(cfg, st, e).equityWindow
         == if e.Equity? && e.equity > 0.0 then Push(st.equityWindow, e.equity, cfg.rollingWindowSize) else st.equityWindow
  {
  }

  lemma {:induction false} WindowIsRecentReadings(cfg: Config, st: State, events: seq<Event>, day: int)
    requires day >= 0 && InDay(st, day) && Opened(st) && AllInDay(events, day) && RollingOn(cfg)
    ensures Run(cfg, st, events).equityWindow == LastOf(Readings(events), cfg.rollingWindowSize)
  {
    if events != [] {
      var front, e := events[..|events| - 1], events[|events| - 1];
      assert e in events && forall d :: d in front ==> d in events;
      WindowIsRecentReadings(cfg, st, front, day);
      RunStaysInDay(cfg, st, front, day);
      WindowAfter(cfg, Run(cfg, st, front), e, day);
      if e.Equity? && e.equity > 0.0 {
        LastOfLast(Readings(front), e.equity, cfg.rollingWindowSize);
      } else {
        assert Readings(events) == Readings(front);
      }
    }
  }

  /** The total of the first `k` entries. */
  function TotalUpTo(pnls: seq<real>, k: nat): real
    requires k <= |pnls|
  {
    Total(pnls[..k])
  }

  /** `peak` is the highest total of any beginning of the series, the empty one included. */
  predicate IsPeak(pnls: seq<real>, peak: real) {
    && (forall k :: 0 <= k <= |pnls| ==> TotalUpTo(pnls, k) <= peak)
    && (exists k :: 0 <= k <= |pnls| && TotalUpTo(pnls, k) == peak)
  }

  lemma BeginningsOfLonger(pnls: seq<real>, pnl: real, k: nat)
    requires k <= |pnls| + 1
    ensures TotalUpTo(pnls + [pnl], k) == if k <= |pnls| then TotalUpTo(pnls, k) else Total(pnls) + pnl
  {
    var longer := pnls + [pnl];
    if k <= |pnls| {
      assert longer[..k] == pnls[..k];
    } else {
      assert longer[..k] == longer && longer[..|longer| - 1] == pnls;
    }
  }

  lemma PeakGrows(pnls: seq<real>, peak: real, pnl: real)
    requires IsPeak(pnls, peak)
    ensures IsPeak(pnls + [pnl], Max(peak, Total(pnls) + pnl))
  {
    forall k: nat | k <= |pnls| + 1
      ensures TotalUpTo(pnls + [pnl], k) == if k <= |pnls| then TotalUpTo(pnls, k) else Total(pnls) + pnl
    {
      BeginningsOfLonger(pnls, pnl, k);
    }
    var k :| 0 <= k <= |pnls| && TotalUpTo(pnls, k) == peak;
    assert TotalUpTo(pnls + [pnl], k) == peak && TotalUpTo(pnls + [pnl], |pnls| + 1) == Total(pnls) + pnl;
  }

  lemma {:induction false} SessionIsBooked(cfg: Config, st: State, events: seq<Event>, day: int)
    requires day >= 0 && InDay(st, day) && Opened(st) && AllInDay(events, day)
    ensures var s := Run(cfg, st, events); s.closedPnl == Total(Booked(events)) && IsPeak(Booked(events), s.closedPeak)
  {
    if events == [] {
      assert TotalUpTo([], 0) == 0.0;
    } else {
      var front, e := events[..|events| - 1], events[|events| - 1];
      assert e in events && forall d :: d in front ==> d in events;
      SessionIsBooked(cfg, st, front, day);
      RunStaysInDay(cfg, st, front, day);
      SessionStep(cfg, Run(cfg, st, front), e, Booked(front), day);
      assert Booked(events) == Booked(front) + if e.TradeClosed? then [e.pnl] else [];
    }
  }

  lemma SessionStep(cfg: Config, st: State, e: Event, booked: seq<real>, day: int)
    requires day >= 0 && InDay(st, day) && DayOf(e.now) == day && st.closedPnl == Total(booked) && IsPeak(booked, st.closedPeak)
    ensures var s, now := Step(cfg, st, e), booked + if e.TradeClosed? then [e.pnl] else [];
            s.closedPnl == Total(now) && IsPeak(now, s.closedPeak)
  {
    if e.TradeClosed? {
      PeakGrows(booked, st.closedPeak, e.pnl);
      assert (booked + [e.pnl])[..|booked|] == booked;
    } else {
      assert booked + [] == booked;
    }
  }

  /** The last loss reading among the events, if any. */
  function LastReading(events: seq<Event>): Option<real> {
    if events == [] then None
    else if events[|events| - 1].DailyLoss? then Some(events[|events| - 1].pct)
    else LastReading(events[..|events| - 1])
  }

  lemma {:induction false} CurrentLossIsTheLastReading(cfg: Config, st: State, events: seq<Event>)
    ensures Run(cfg, st, events).currentPct == LastReading(events).GetOr(st.currentPct)
  {
    if events != [] {
      CurrentLossIsTheLastReading(cfg, st, events[..|events| - 1]);
    }
  }

  predicate IsHighest(x: real, readings: seq<real>) {
    x in readings && forall y :: y in readings ==> y <= x
  }

  lemma HighestGrows(x: real, readings: seq<real>, y: real)
    requires IsHighest(x, readings)
    ensures IsHighest(Max(x, y), readings + [y])
  {
    assert (readings + [y])[|readings|] == y;
  }

  lemma PeakStep(cfg: Config, st: State, e: Event, day: int)
    requires st.trackedDay == Some(day) && DayOf(e.now) == day && st.startEquity > 0.0
    ensures Step(cfg, st, e).equityPeak == if e.Equity? && e.equity > 0.0 then Max(st.equityPeak, e.equity) else st.equityPeak
    ensures Step(cfg, st, e).startEquity == st.startEquity
  {
  }

  /** Once equity is latched the day's equity peak is the highest of it and all readings. */
  lemma {:induction false} EquityPeakIsHighest(cfg: Config, st: State, events: seq<Event>, day: int)
    requires day >= 0 && InDay(st, day) && AllInDay(events, day) && st.startEquity > 0.0 && st.equityPeak == st.startEquity
    ensures Run(cfg, st, events).startEquity == st.startEquity
    ensures IsHighest(Run(cfg, st, events).equityPeak, [st.startEquity] + Readings(events))
  {
    if events != [] {
      var front, e := events[..|events| - 1], events[|events| - 1];
      assert e in events && forall d :: d in front ==> d in events;
      EquityPeakIsHighest(cfg, st, front, day);
      RunStaysInDay(cfg, st, front, day);
      PeakStep(cfg, Run(cfg, st, front), e, day);
      var seen := [st.startEquity] + Readings(front);
      if e.Equity? && e.equity > 0.0 {
        HighestGrows(Run(cfg, st, front).equityPeak, seen, e.equity);
        assert [st.startEquity] + Readings(events) == seen + [e.equity];
      } else {
        assert Readings(events) == Readings(front);
      }
    }
  }

  /** The rolling guard: an unpaused tracker is paused by an equity reading exactly when the guard is on
      and the day's last readings, this one included, number at least three and fall by the limit. */
  lemma RollingGuardPausesIff(cfg: Config, before: State, first: Event, events: seq<Event>, equity: real, now: int)
    requires first.DailyLoss? && first.now >= 0 && before.trackedDay != Some(DayOf(first.now))
    requires AllInDay(events, DayOf(first.now)) && DayOf(now) == DayOf(first.now)
    requires !IsPaused(Run(cfg, Step(cfg, before, first), events), now)
    ensures IsPaused(Step(cfg, Run(cfg, Step(cfg, before, first), events), Equity(equity, now)), now)
       <==> equity > 0.0 && cfg.rollingWindowSize > 0 && cfg.rollingDrawdownPct > 0.0
            && Drops(LastOf(Readings(events) + [equity], cfg.rollingWindowSize), cfg.rollingDrawdownPct)
  {
    var day, morning := DayOf(first.now), Step(cfg, before, first);
    var st := Run(cfg, morning, events);
    FirstUpdateEntersDay(cfg, before, first);
    RunStaysInDay(cfg, morning, events, day);
    InsideDay(now);
    StepStaysInDay(cfg, st, Equity(equity, now), day);
    if RollingOn(cfg) {
      WindowIsRecentReadings(cfg, morning, events, day);
      LastOfLast(Readings(events), equity, cfg.rollingWindowSize);
    }
  }

  /** The profit guard: an unpaused tracker is paused by a close exactly when the guard is on and the
      day's closes, this one included, have come down from their highest total by the limit, measured on
      the start equity. */
  lemma ProfitGuardPausesIff(cfg: Config, before: State, first: Event, events: seq<Event>, pnl: real, now: int, peak: real)
    requires first.DailyLoss? && first.now >= 0 && before.trackedDay != Some(DayOf(first.now))
    requires AllInDay(events, DayOf(first.now)) && DayOf(now) == DayOf(first.now)
    requires !IsPaused(Run(cfg, Step(cfg, before, first), events), now) && IsPeak(Booked(events) + [pnl], peak)
    ensures var st := Run(cfg, Step(cfg, before, first), events);
            IsPaused(Step(cfg, st, TradeClosed(pnl, now)), now) <==>
            cfg.maxProfitDrawdownPct > 0.0 && st.startEquity > 0.0 && peak > 0.0
            && Times(peak - Total(Booked(events) + [pnl]), 100.0) >= Times(cfg.maxProfitDrawdownPct, st.startEquity)
  {
    var day, morning := DayOf(first.now), Step(cfg, before, first);
    var st, booked := Run(cfg, morning, events), Booked(events);
    FirstUpdateEntersDay(cfg, before, first);
    RunStaysInDay(cfg, morning, events, day);
    InsideDay(now);
    StepStaysInDay(cfg, st, TradeClosed(pnl, now), day);
    SessionIsBooked(cfg, morning, events, day);
    PeakGrows(booked, st.closedPeak, pnl);
    assert (booked + [pnl])[..|booked|] == booked;
    PeakIsUnique(booked + [pnl], peak, Max(st.closedPeak, Total(booked) + pnl));
  }

  lemma PeakIsUnique(pnls: seq<real>, p: real, q: real)
    requires IsPeak(pnls, p) && IsPeak(pnls, q)
    ensures p == q
  {
  }

  /** The first update matters: it wipes a pause set earlier the same day by another guard, unless
      the daily limit is reached in that very update. */
  lemma FirstUpdateForgetsEarlierPause(cfg: Config, st: State, first: Event, at: int)
    requires first.DailyLoss? && first.now >= 0 && st.trackedDay != Some(DayOf(first.now)) && DayOf(at) == DayOf(first.now)
    ensures IsPaused(Step(cfg, st, first), at) <==> first.pct >= cfg.limitPct
  {
    InsideDay(first.now);
    InsideDay(at);
  }

  /** Such a pause is reachable: profit is booked and given back after midnight, before the day's first
      update, which then lifts the pause. */
  lemma EarlyPauseIsReachable(cfg: Config, day: int) returns (events: seq<Event>, first: Event, at: int)
    requires day >= 1 && cfg.maxProfitDrawdownPct > 0.0 && cfg.limitPct > 0.0
    ensures first.DailyLoss? && DayOf(first.now) == DayOf(at) == day
    ensures var st := Run(cfg, INITIAL, events);
            st.trackedDay != Some(day) && IsPaused(st, at) && !IsPaused(Step(cfg, st, first), at)
  {
    var pct := cfg.maxProfitDrawdownPct;
    var latch, gain, loss := DailyLoss(0.0, 100.0, (day - 1) * DAY_MS), TradeClosed(pct, day * DAY_MS), TradeClosed(-pct, day * DAY_MS);
    events, first, at := [latch, gain, loss], DailyLoss(0.0, 100.0, day * DAY_MS), day * DAY_MS;
    assert [latch][..0] == [] && [latch, gain][..1] == [latch] && events[..2] == [latch, gain];
    var latched := Step(cfg, INITIAL, latch);
    assert Run(cfg, INITIAL, [latch]) == Step(cfg, Run(cfg, INITIAL, []), latch);
    var won := Step(cfg, latched, gain);
    assert Run(cfg, INITIAL, [latch, gain]) == Step(cfg, Run(cfg, INITIAL, [latch]), gain);
    assert Run(cfg, INITIAL, events) == Step(cfg, Run(cfg, INITIAL, [latch, gain]), loss);
    GivingBackPauses(cfg, latched, won, gain.now, pct);
  }

  // Booking `pct` and giving it back draws the session down by `pct` percent of an equity of 100.
  lemma GivingBackPauses(cfg: Config, latched: State, won: State, now: int, pct: real)
    requires pct > 0.0 && cfg.maxProfitDrawdownPct == pct && now >= 0
    requires latched.startEquity == 100.0 && latched.closedPnl == 0.0 && latched.closedPeak == 0.0 && latched.pausedUntil == 0
    requires won == RecordTradeClosed(cfg, latched, pct, now)
    ensures var lost := RecordTradeClosed(cfg, won, -pct, now);
            lost.trackedDay == latched.trackedDay && lost.pausedUntil == DayEnd(DayOf(now))
  {
    assert BookClose(latched, pct).drawbackPct == DropPct(0.0, 100.0) == 0.0;
    assert BookClose(won, -pct).drawbackPct == DropPct(pct, 100.0) == pct;
  }

  /** The day's first positive start equity. */
  function FirstPositiveEquity(events: seq<Event>): real {
    if events == [] then 0.0
    else
      var earlier, e := FirstPositiveEquity(events[..|events| - 1]), events[|events| - 1];
      if earlier > 0.0 then earlier else if e.DailyLoss? && e.startEquity > 0.0 then e.startEquity else 0.0
  }

  /** The latched equity is the first positive one of the day and never moves again that day. */
  lemma {:induction false} EquityIsLatched(cfg: Config, before: State, events: seq<Event>, day: int)
    requires AllInDay(events, day) && events != [] && events[0].DailyLoss? && before.trackedDay != Some(day)
    ensures Run(cfg, before, events).startEquity == FirstPositiveEquity(events)
    ensures Run(cfg, before, events).trackedDay == Some(day)
  {
    var front, e := events[..|events| - 1], events[|events| - 1];
    assert e in events && forall d :: d in front ==> d in events;
    if front != [] {
      EquityIsLatched(cfg, before, front, day);
    }
  }

  /** A rolling window shorter than three readings never fires the rolling guard. */
  lemma {:induction false} ShortWindowsNeverFire(cfg: Config, events: seq<Event>, equity: real, now: int)
    requires cfg.rollingWindowSize < 3
    ensures |Run(cfg, INITIAL, events).equityWindow| < 3
    ensures !GuardFires(cfg, Run(cfg, INITIAL, events), Equity(equity, now))
  {
    if events != [] {
      ShortWindowsNeverFire(cfg, events[..|events| - 1], equity, now);
    }
  }

  /** The risk of one trade times the number of slots is the daily budget. */
  lemma SlotsShareTheBudget(cfg: Config, st: State, maxLosingStreak: int)
    requires st.startEquity > 0.0
    ensures var slots := (if maxLosingStreak < 1 then 1 else maxLosingStreak) as real;
            Times(DailyRiskAmount(cfg, st, maxLosingStreak), slots) == Times(st.startEquity, cfg.limitPct / 100.0)
  {
    TimesQuotient(Times(st.startEquity, cfg.limitPct / 100.0), (if maxLosingStreak < 1 then 1 else maxLosingStreak) as real);
  }
}
