/** The equity-curve throttle of src/risk/equity_throttle.py: a pruned rolling window, its drawdown
    and the hysteresis that engages and releases a smaller position size. */
module EquityThrottle {
  import opened Basics
  import opened DrawdownFold
  import opened TradeContribution

  datatype Config = Config(
    enabled: bool, engageR: real, releaseR: real, riskMultiplier: real, windowDays: int)

  /** The ranges that configuration loading accepts. */
  predicate ValidConfig(cfg: Config) {
    && 0.0 < cfg.releaseR <= cfg.engageR
    && 0.0 < cfg.riskMultiplier <= 1.0
    && 1 <= cfg.windowDays
  }

  datatype Throttle = Throttle(window: seq<Contribution>, engaged: bool, ddR: real)

  datatype ThrottlePreview = ThrottlePreview(multiplier: real, drawdownR: real, engaged: bool)

  const IDLE := Throttle([], false, 0.0)

  // ---------- Specification of the tracker's operations ----------

  function Rs(window: seq<Contribution>): seq<real> {
    seq(|window|, i requires 0 <= i < |window| => window[i].r)
  }

  function WindowDrawdown(window: seq<Contribution>): real {
    Drawdown(Rs(window))
  }

  function Cutoff(cfg: Config, now: int): int {
    now - cfg.windowDays * DAY_MS
  }

  function DropExpired(window: seq<Contribution>, cutoff: int): seq<Contribution> {
    if window != [] && window[0].closedAt < cutoff then DropExpired(window[1..], cutoff) else window
  }

  function Hysteresis(cfg: Config, engaged: bool, dd: real): bool {
    if dd > cfg.engageR then true else if dd < cfg.releaseR then false else engaged
  }

  function Refresh(cfg: Config, t: Throttle, now: int): Throttle {
    var window := DropExpired(t.window, Cutoff(cfg, now));
    var dd := WindowDrawdown(window);
    Throttle(window, Hysteresis(cfg, t.engaged, dd), dd)
  }

  function Record(cfg: Config, t: Throttle, trade: ClosedTrade, now: int): Throttle {
    match FromTrade(trade, now)
    case None => t
    case Some(c) => Refresh(cfg, t.(window := t.window + [c]), now)
  }

  function Insert(sorted: seq<Contribution>, c: Contribution): seq<Contribution> {
    if sorted == [] || sorted[|sorted| - 1].closedAt <= c.closedAt then sorted + [c]
    else Insert(sorted[..|sorted| - 1], c) + [sorted[|sorted| - 1]]
  }

  /** Python's sort by close time: stable. */
  function StableSort(entries: seq<Contribution>): seq<Contribution> {
    if entries == [] then [] else Insert(StableSort(entries[..|entries| - 1]), entries[|entries| - 1])
  }

  function RowEntries(rows: seq<TradeRow>): seq<Contribution> {
    if rows == [] then []
    else RowEntries(rows[..|rows| - 1]) +
         match FromRow(rows[|rows| - 1]) case Some(c) => [c] case None => []
  }

  function Hydrate(cfg: Config, t: Throttle, rows: seq<TradeRow>, now: int): Throttle {
    Refresh(cfg, t.(window := StableSort(RowEntries(rows))), now)
  }

  // ---------- The tracker ----------

  class EquityThrottleTracker {
    const config: Config
    var window: seq<Contribution>
    var engaged: bool
    var ddR: real

    ghost function State(): Throttle
      reads this
    {
      Throttle(window, engaged, ddR)
    }

    constructor (config: Config)
      ensures this.config == config && State() == IDLE
    {
      this.config := config;
      window, engaged, ddR := [], false, 0.0;
    }

    method RefreshLocked(now: int)
      modifies this
      ensures State() == Refresh(config, old(State()), now)
    {
      var cutoff := now - config.windowDays * DAY_MS;
      while window != [] && window[0].closedAt < cutoff
        invariant DropExpired(window, cutoff) == DropExpired(old(window), cutoff)
        invariant engaged == old(engaged)
        decreases |window|
      {
        window := window[1..];
      }
      ddR := ComputeDrawdownR(Rs(window));
      if ddR > config.engageR {
        engaged := true;
      } else if ddR < config.releaseR {
        engaged := false;
      }
    }

    method RecordTradeClosed(trade: ClosedTrade, now: int)
      modifies this
      ensures State() == Record(config, old(State()), trade, now)
    {
      var entry := FromTrade(trade, now);
      if entry.Some? {
        window := window + [entry.value];
        RefreshLocked(now);
      }
    }

    method HydrateRows(rows: seq<TradeRow>, now: int)
      modifies this
      ensures State() == Hydrate(config, old(State()), rows, now)
    {
      var entries := [];
      for i := 0 to |rows|
        invariant entries == RowEntries(rows[..i])
      {
        assert rows[..i + 1][..i] == rows[..i];
        var entry := FromRow(rows[i]);
        if entry.Some? {
          entries := entries + [entry.value];
        }
      }
      assert rows[..|rows|] == rows;
      window := StableSort(entries);
      RefreshLocked(now);
    }

    method Preview(now: int) returns (preview: ThrottlePreview)
      modifies this
      ensures State() == Refresh(config, old(State()), now)
      ensures preview.engaged == (engaged && config.enabled)
      ensures preview.multiplier == (if preview.engaged then config.riskMultiplier else 1.0)
      ensures preview.drawdownR == ddR
    {
      RefreshLocked(now);
      var on := engaged && config.enabled;
      preview := ThrottlePreview(if on then config.riskMultiplier else 1.0, ddR, on);
    }
  }

  // ---------- Runs ----------

  datatype Event =
    | Closed(trade: ClosedTrade, now: int)
    | Previewed(now: int)
    | Hydrated(rows: seq<TradeRow>, now: int)

  function Step(cfg: Config, t: Throttle, e: Event): Throttle {
    match e
    case Closed(trade, now) => Record(cfg, t, trade, now)
    case Previewed(now) => Refresh(cfg, t, now)
    case Hydrated(rows, now) => Hydrate(cfg, t, rows, now)
  }

  function Run(cfg: Config, t: Throttle, events: seq<Event>): Throttle {
    if events == [] then t else Step(cfg, Run(cfg, t, events[..|events| - 1]), events[|events| - 1])
  }

  /** What every refresh leaves behind. */
  predicate Settled(cfg: Config, t: Throttle) {
    && t.ddR == WindowDrawdown(t.window)
    && (!t.engaged ==> t.ddR <= cfg.engageR)
    && (t.engaged ==> t.ddR >= cfg.releaseR)
  }

  lemma {:induction false} EveryRunIsSettled(cfg: Config, events: seq<Event>)
    requires ValidConfig(cfg)
    ensures Settled(cfg, Run(cfg, IDLE, events))
  {
    if events != [] {
      EveryRunIsSettled(cfg, events[..|events| - 1]);
    }
  }

  /** The drawdown after the first `n` events. */
  function DrawdownAfter(cfg: Config, events: seq<Event>, n: nat): real
    requires n <= |events|
  {
    Run(cfg, IDLE, events[..n]).ddR
  }

  /** After event `k` the drawdown exceeded the engage threshold, and since then it never fell below the
      release threshold. */
  predicate HeldSince(cfg: Config, events: seq<Event>, k: nat) {
    && 0 < k <= |events| && DrawdownAfter(cfg, events, k) > cfg.engageR
    && forall j :: k <= j <= |events| ==> DrawdownAfter(cfg, events, j) >= cfg.releaseR
  }

  lemma HeldSinceExtends(cfg: Config, events: seq<Event>, k: nat)
    requires events != [] && k < |events|
    ensures HeldSince(cfg, events, k) <==>
            HeldSince(cfg, events[..|events| - 1], k) && Run(cfg, IDLE, events).ddR >= cfg.releaseR
  {
    var front := events[..|events| - 1];
    assert events[..|events|] == events;
    forall j | 0 <= j <= |front| ensures DrawdownAfter(cfg, events, j) == DrawdownAfter(cfg, front, j) {
      assert events[..j] == front[..j];
    }
    assert DrawdownAfter(cfg, events, |events|) == Run(cfg, IDLE, events).ddR;
  }

  lemma StepEngagesIff(cfg: Config, t: Throttle, e: Event)
    requires ValidConfig(cfg) && Settled(cfg, t)
    ensures Step(cfg, t, e).engaged <==> Step(cfg, t, e).ddR > cfg.engageR || (t.engaged && Step(cfg, t, e).ddR >= cfg.releaseR)
  {
  }

  /** The throttle is engaged exactly when its drawdown once exceeded the engage threshold and has not
      fallen below the release threshold since. */
  lemma {:induction false} EngagedIff(cfg: Config, events: seq<Event>)
    requires ValidConfig(cfg)
    ensures Run(cfg, IDLE, events).engaged <==> exists k :: HeldSince(cfg, events, k)
  {
    if events != [] {
      var front, e := events[..|events| - 1], events[|events| - 1];
      EngagedIff(cfg, front);
      EveryRunIsSettled(cfg, front);
      StepEngagesIff(cfg, Run(cfg, IDLE, front), e);
      forall k: nat | k < |events|
        ensures HeldSince(cfg, events, k) <==> HeldSince(cfg, front, k) && Run(cfg, IDLE, events).ddR >= cfg.releaseR
      {
        HeldSinceExtends(cfg, events, k);
      }
      assert events[..|events|] == events;
      assert HeldSince(cfg, events, |events|) <==> Run(cfg, IDLE, events).ddR > cfg.engageR;
      if Run(cfg, IDLE, front).engaged {
        var k :| HeldSince(cfg, front, k);
        assert HeldSince(cfg, events, k) <==> Run(cfg, IDLE, events).ddR >= cfg.releaseR;
      }
    }
  }

  lemma RsOfSuffix(window: seq<Contribution>, k: nat)
    requires k <= |window|
    ensures Rs(window[k..]) == Rs(window)[k..]
  {
  }

  lemma {:induction false} ExpiryDropsAHead(window: seq<Contribution>, cutoff: int) returns (k: nat)
    ensures k <= |window| && DropExpired(window, cutoff) == window[k..]
    ensures forall i :: 0 <= i < k ==> window[i].closedAt < cutoff
    ensures k < |window| ==> window[k].closedAt >= cutoff
  {
    if window != [] && window[0].closedAt < cutoff {
      var j := ExpiryDropsAHead(window[1..], cutoff);
      k := j + 1;
      assert window[1..][j..] == window[k..];
    } else {
      k := 0;
    }
  }

  lemma ExpiryNeverDeepens(window: seq<Contribution>, cutoff: int)
    ensures WindowDrawdown(DropExpired(window, cutoff)) <= WindowDrawdown(window)
  {
    var k := ExpiryDropsAHead(window, cutoff);
    RsOfSuffix(window, k);
    PruningNeverDeepens(Rs(window), k);
  }

  /** Looking never engages the throttle: after any run, reading it any number of times, under any
      clock, can only release it and never deepens the drawdown. */
  lemma {:induction false} ReadingNeverEngages(cfg: Config, history: seq<Event>, looks: seq<int>)
    requires ValidConfig(cfg)
    ensures var before := Run(cfg, IDLE, history);
            var after := Run(cfg, before, seq(|looks|, i requires 0 <= i < |looks| => Previewed(looks[i])));
            && (after.engaged ==> before.engaged)
            && after.ddR <= before.ddR && Settled(cfg, after)
  {
    var before := Run(cfg, IDLE, history);
    EveryRunIsSettled(cfg, history);
    if looks != [] {
      var fewer := looks[..|looks| - 1];
      ReadingNeverEngages(cfg, history, fewer);
      var previews := seq(|looks|, i requires 0 <= i < |looks| => Previewed(looks[i]));
      assert previews[..|previews| - 1] == seq(|fewer|, i requires 0 <= i < |fewer| => Previewed(fewer[i]));
      ExpiryNeverDeepens(Run(cfg, before, previews[..|previews| - 1]).window, Cutoff(cfg, looks[|looks| - 1]));
    }
  }

  function Loss(cfg: Config, e: Event): real {
    match e
    case Closed(trade, now) =>
      (match FromTrade(trade, now) case Some(c) => Max(0.0, -c.r) case None => 0.0)
    case _ => 0.0
  }

  function RecordedLoss(cfg: Config, events: seq<Event>): real {
    if events == [] then 0.0 else RecordedLoss(cfg, events[..|events| - 1]) + Loss(cfg, events[|events| - 1])
  }

  predicate NoHydrate(events: seq<Event>) {
    forall e :: e in events ==> !e.Hydrated?
  }

  /** The drawdown grows by no more than the losses recorded, however pruning interleaves. */
  lemma {:induction false} DrawdownGrowthIsPaidFor(cfg: Config, t: Throttle, events: seq<Event>)
    requires ValidConfig(cfg) && Settled(cfg, t) && NoHydrate(events)
    ensures Settled(cfg, Run(cfg, t, events))
    ensures Run(cfg, t, events).ddR <= t.ddR + RecordedLoss(cfg, events)
  {
    if events != [] {
      var front, e := events[..|events| - 1], events[|events| - 1];
      assert e in events;
      DrawdownGrowthIsPaidFor(cfg, t, front);
      var mid := Run(cfg, t, front);
      match e {
        case Closed(trade, now) =>
          var entry := FromTrade(trade, now);
          if entry.Some? {
            var grown := mid.window + [entry.value];
            assert Rs(grown) == Rs(mid.window) + [entry.value.r];
            DrawdownAppend(Rs(mid.window), entry.value.r);
            ExpiryNeverDeepens(grown, Cutoff(cfg, now));
          }
        case Previewed(now) =>
          ExpiryNeverDeepens(mid.window, Cutoff(cfg, now));
        case Hydrated(_, _) =>
          assert false;
      }
    }
  }

  /** No flapping: from a release to the next engagement, the trades recorded in between must have
      lost more than the whole hysteresis band. */
  lemma NoFlapping(cfg: Config, history: seq<Event>, releasing: Event, between: seq<Event>)
    requires ValidConfig(cfg) && NoHydrate(between)
    requires Run(cfg, IDLE, history).engaged
    requires !Run(cfg, IDLE, history + [releasing]).engaged
    requires Run(cfg, Run(cfg, IDLE, history + [releasing]), between).engaged
    ensures RecordedLoss(cfg, between) > cfg.engageR - cfg.releaseR
  {
    var released := Run(cfg, IDLE, history + [releasing]);
    assert (history + [releasing])[..|history|] == history;
    EveryRunIsSettled(cfg, history + [releasing]);
    assert released.ddR < cfg.releaseR;
    FirstEngagement(cfg, released, between);
  }

  lemma {:induction false} FirstEngagement(cfg: Config, t: Throttle, between: seq<Event>)
    requires ValidConfig(cfg) && NoHydrate(between)
    requires Settled(cfg, t) && !t.engaged && Run(cfg, t, between).engaged
    ensures RecordedLoss(cfg, between) > cfg.engageR - t.ddR
  {
    var front, e := between[..|between| - 1], between[|between| - 1];
    if Run(cfg, t, front).engaged {
      FirstEngagement(cfg, t, front);
      assert Loss(cfg, e) >= 0.0;
    } else {
      DrawdownGrowthIsPaidFor(cfg, t, between);
    }
  }

  // ---------- Restart ----------

  /** The contributions recorded along a run, in recording order. */
  function History(events: seq<Event>): seq<Contribution> {
    if events == [] then [] else History(events[..|events| - 1]) + Recorded(events[|events| - 1])
  }

  function Recorded(e: Event): seq<Contribution> {
    if e.Closed? then match FromTrade(e.trade, e.now) case Some(c) => [c] case None => [] else []
  }

  predicate ClockNeverRunsBack(events: seq<Event>) {
    forall i, j :: 0 <= i < j < |events| ==> events[i].now <= events[j].now
  }

  predicate InTimeOrder(cs: seq<Contribution>) {
    forall i, j :: 0 <= i < j < |cs| ==> cs[i].closedAt <= cs[j].closedAt
  }

  /** The definition head-pruning has to agree with: the entries inside the window. */
  function Recent(cs: seq<Contribution>, cutoff: int): seq<Contribution> {
    if cs == [] then []
    else if cs[|cs| - 1].closedAt >= cutoff then Recent(cs[..|cs| - 1], cutoff) + [cs[|cs| - 1]]
    else Recent(cs[..|cs| - 1], cutoff)
  }

  lemma {:induction false} ExpiryComposes(cs: seq<Contribution>, tail: seq<Contribution>, earlier: int, later: int)
    requires earlier <= later
    ensures DropExpired(DropExpired(cs, earlier) + tail, later) == DropExpired(cs + tail, later)
  {
    if cs != [] && cs[0].closedAt < earlier {
      ExpiryComposes(cs[1..], tail, earlier, later);
      assert (cs + tail)[1..] == cs[1..] + tail;
    }
  }

  lemma {:induction false} ExpiryIsRecent(cs: seq<Contribution>, cutoff: int)
    requires InTimeOrder(cs)
    ensures DropExpired(cs, cutoff) == Recent(cs, cutoff)
  {
    if cs != [] {
      var front := cs[..|cs| - 1];
      ExpiryIsRecent(front, cutoff);
      var k := ExpiryDropsAHead(cs, cutoff);
      var j := ExpiryDropsAHead(front, cutoff);
      if cs[|cs| - 1].closedAt < cutoff {
        assert k == |cs| && j == |front|;
      } else {
        assert j == k;
        assert cs[k..] == front[k..] + [cs[|cs| - 1]];
      }
    }
  }

  predicate LastRefreshAt(events: seq<Event>, now: int) {
    forall e :: e in events ==> e.now <= now
  }

  lemma {:induction false} WindowIsPrunedHistory(cfg: Config, events: seq<Event>, now: int)
    requires NoHydrate(events) && ClockNeverRunsBack(events) && LastRefreshAt(events, now)
    ensures DropExpired(Run(cfg, IDLE, events).window, Cutoff(cfg, now)) == DropExpired(History(events), Cutoff(cfg, now))
  {
    if events != [] {
      var front, e := events[..|events| - 1], events[|events| - 1];
      assert e in events && forall d :: d in front ==> d in events;
      WindowIsPrunedHistory(cfg, front, e.now);
      WindowIsPrunedHistory(cfg, front, now);
      var w, h := Run(cfg, IDLE, front).window, History(front);
      var tail := Recorded(e);
      var at, final := Cutoff(cfg, e.now), Cutoff(cfg, now);
      if e.Previewed? || tail != [] {
        ExpiryComposes(w + tail, [], at, final);
        assert w + tail + [] == w + tail && DropExpired(w + tail, at) + [] == DropExpired(w + tail, at);
      }
      assert History(events) == h + tail;
      ExpiryComposes(w, tail, final, final);
      ExpiryComposes(h, tail, final, final);
      if tail == [] {
        assert w + tail == w && h + tail == h;
      }
    }
  }

  /** Head-pruning keeps exactly the history inside the window. */
  lemma WindowIsRecentHistory(cfg: Config, events: seq<Event>, now: int)
    requires NoHydrate(events) && ClockNeverRunsBack(events) && LastRefreshAt(events, now)
    requires InTimeOrder(History(events))
    ensures Refresh(cfg, Run(cfg, IDLE, events), now).window == Recent(History(events), Cutoff(cfg, now))
  {
    WindowIsPrunedHistory(cfg, events, now);
    ExpiryIsRecent(History(events), Cutoff(cfg, now));
  }

  lemma {:induction false} RecentHolds(cs: seq<Contribution>, cutoff: int, c: Contribution)
    ensures c in Recent(cs, cutoff) <==> c in cs && c.closedAt >= cutoff
  {
    if cs != [] {
      RecentHolds(cs[..|cs| - 1], cutoff, c);
      assert cs == cs[..|cs| - 1] + [cs[|cs| - 1]];
    }
  }

  /** The window holds exactly the recorded contributions of the last `windowDays` days. */
  lemma WindowHoldsTheLastDays(cfg: Config, events: seq<Event>, now: int, c: Contribution)
    requires NoHydrate(events) && ClockNeverRunsBack(events) && LastRefreshAt(events, now)
    requires InTimeOrder(History(events))
    ensures c in Refresh(cfg, Run(cfg, IDLE, events), now).window <==>
            c in History(events) && now - c.closedAt <= cfg.windowDays * 86_400_000
  {
    WindowIsRecentHistory(cfg, events, now);
    RecentHolds(History(events), Cutoff(cfg, now), c);
  }

  /** The rows the repository returns: closed trades with an outcome, closed at or after `since`. */
  function RowsSince(events: seq<Event>, since: int): seq<TradeRow> {
    if events == [] then [] else RowsSince(events[..|events| - 1], since) + Selected(events[|events| - 1], since)
  }

  function Selected(e: Event, since: int): seq<TradeRow> {
    if e.Closed? && e.trade.realizedRr.Some? && e.trade.closedAt.Some? && e.trade.closedAt.value >= since
    then [RowOf(e.trade)]
    else []
  }

  predicate RowsAgree(events: seq<Event>) {
    forall e :: e in events && e.Closed? ==> FromRow(RowOf(e.trade)) == FromTrade(e.trade, e.now)
  }

  lemma RowEntriesAppend(rows: seq<TradeRow>, row: TradeRow)
    ensures RowEntries(rows + [row]) == RowEntries(rows) + match FromRow(row) case Some(c) => [c] case None => []
  {
    assert (rows + [row])[..|rows|] == rows;
  }

  lemma RecentAppend(cs: seq<Contribution>, c: Contribution, cutoff: int)
    ensures Recent(cs + [c], cutoff) == if c.closedAt >= cutoff then Recent(cs, cutoff) + [c] else Recent(cs, cutoff)
  {
    assert (cs + [c])[..|cs|] == cs;
  }

  lemma SelectedRow(e: Event, since: int)
    requires e.Closed? ==> FromRow(RowOf(e.trade)) == FromTrade(e.trade, e.now)
    ensures |Recorded(e)| <= 1 && |Selected(e, since)| <= 1
    ensures Selected(e, since) == [] ==> Recorded(e) == [] || Recorded(e)[0].closedAt < since
    ensures Selected(e, since) != [] ==>
              && Recorded(e) != [] && Recorded(e)[0].closedAt >= since
              && FromRow(Selected(e, since)[0]) == Some(Recorded(e)[0])
  {
  }

  lemma {:induction false} RowEntriesAreHistory(events: seq<Event>, since: int)
    requires RowsAgree(events)
    ensures RowEntries(RowsSince(events, since)) == Recent(History(events), since)
  {
    if events != [] {
      var front, e := events[..|events| - 1], events[|events| - 1];
      assert e in events && forall d :: d in front ==> d in events;
      RowEntriesAreHistory(front, since);
      SelectedRow(e, since);
      if Selected(e, since) != [] {
        RowEntriesAppend(RowsSince(front, since), Selected(e, since)[0]);
      }
      if Recorded(e) != [] {
        RecentAppend(History(front), Recorded(e)[0], since);
        assert Recorded(e) == [Recorded(e)[0]];
      } else {
        assert History(events) == History(front);
      }
      assert RowsSince(front, since) + [] == RowsSince(front, since);
    }
  }

  /** The entries with one close time, in order. */
  function ClosedAtTime(cs: seq<Contribution>, time: int): seq<Contribution> {
    if cs == [] then []
    else ClosedAtTime(cs[..|cs| - 1], time) + if cs[|cs| - 1].closedAt == time then [cs[|cs| - 1]] else []
  }

  lemma ClosedAtTimeAppend(cs: seq<Contribution>, c: Contribution, time: int)
    ensures ClosedAtTime(cs + [c], time) == ClosedAtTime(cs, time) + if c.closedAt == time then [c] else []
  {
    assert (cs + [c])[..|cs|] == cs;
  }

  lemma {:induction false} InsertAdds(sorted: seq<Contribution>, c: Contribution)
    ensures multiset(Insert(sorted, c)) == multiset(sorted) + multiset{c}
  {
    if sorted != [] {
      var front, last := sorted[..|sorted| - 1], sorted[|sorted| - 1];
      assert sorted == front + [last];
      InsertAdds(front, c);
    }
  }

  lemma {:induction false} InsertKeepsOrder(sorted: seq<Contribution>, c: Contribution)
    requires InTimeOrder(sorted)
    ensures InTimeOrder(Insert(sorted, c))
  {
    if sorted != [] && sorted[|sorted| - 1].closedAt > c.closedAt {
      var front, last := sorted[..|sorted| - 1], sorted[|sorted| - 1];
      InsertKeepsOrder(front, c);
      InsertAdds(front, c);
      forall d | d in Insert(front, c) ensures d.closedAt <= last.closedAt {
        assert d in multiset(Insert(front, c));
      }
    }
  }

  lemma {:induction false} InsertIsStable(sorted: seq<Contribution>, c: Contribution, time: int)
    ensures ClosedAtTime(Insert(sorted, c), time) == ClosedAtTime(sorted, time) + if c.closedAt == time then [c] else []
  {
    if sorted == [] || sorted[|sorted| - 1].closedAt <= c.closedAt {
      ClosedAtTimeAppend(sorted, c, time);
    } else {
      var front, last := sorted[..|sorted| - 1], sorted[|sorted| - 1];
      InsertIsStable(front, c, time);
      ClosedAtTimeAppend(Insert(front, c), last, time);
    }
  }

  /** Hydration sorts by close time, keeps every entry, and leaves entries of one time in their order. */
  lemma {:induction false} SortIsStable(entries: seq<Contribution>, time: int)
    ensures InTimeOrder(StableSort(entries)) && multiset(StableSort(entries)) == multiset(entries)
    ensures ClosedAtTime(StableSort(entries), time) == ClosedAtTime(entries, time)
  {
    if entries != [] {
      var front, last := entries[..|entries| - 1], entries[|entries| - 1];
      SortIsStable(front, time);
      InsertAdds(StableSort(front), last);
      InsertKeepsOrder(StableSort(front), last);
      InsertIsStable(StableSort(front), last, time);
      assert entries == front + [last];
    }
  }

  lemma {:induction false} EntriesComeFromRows(rows: seq<TradeRow>, c: Contribution)
    ensures c in RowEntries(rows) <==> exists row :: row in rows && FromRow(row) == Some(c)
  {
    if rows != [] {
      var front, last := rows[..|rows| - 1], rows[|rows| - 1];
      EntriesComeFromRows(front, c);
      assert rows == front + [last];
    }
  }

  /** In whatever order the rows come, a restart's window holds exactly the contributions of the last
      `windowDays` days, sorted by close time. */
  lemma HydratedWindowHoldsTheLastDays(cfg: Config, t: Throttle, rows: seq<TradeRow>, now: int, c: Contribution)
    ensures InTimeOrder(Hydrate(cfg, t, rows, now).window)
    ensures c in Hydrate(cfg, t, rows, now).window <==>
            now - c.closedAt <= cfg.windowDays * 86_400_000 && exists row :: row in rows && FromRow(row) == Some(c)
  {
    var sorted, cutoff := StableSort(RowEntries(rows)), Cutoff(cfg, now);
    SortIsStable(RowEntries(rows), now);
    assert c in sorted <==> c in multiset(sorted);
    EntriesComeFromRows(rows, c);
    ExpiryIsRecent(sorted, cutoff);
    RecentKeepsOrder(sorted, cutoff);
    RecentHolds(sorted, cutoff, c);
  }

  lemma {:induction false} SortKeepsOrder(cs: seq<Contribution>)
    requires InTimeOrder(cs)
    ensures StableSort(cs) == cs
  {
    if cs != [] {
      SortKeepsOrder(cs[..|cs| - 1]);
    }
  }

  lemma {:induction false} RecentKeepsOrder(cs: seq<Contribution>, cutoff: int)
    requires InTimeOrder(cs)
    ensures InTimeOrder(Recent(cs, cutoff))
    ensures forall c :: c in Recent(cs, cutoff) ==> c in cs
  {
    if cs != [] {
      var front, c := cs[..|cs| - 1], cs[|cs| - 1];
      RecentKeepsOrder(front, cutoff);
      assert forall d :: d in Recent(front, cutoff) ==> d.closedAt <= c.closedAt;
    }
  }

  lemma {:induction false} RecentOfRecent(cs: seq<Contribution>, since: int, cutoff: int)
    requires since <= cutoff
    ensures Recent(Recent(cs, since), cutoff) == Recent(cs, cutoff)
  {
    if cs != [] {
      var front, c := cs[..|cs| - 1], cs[|cs| - 1];
      RecentOfRecent(front, since, cutoff);
      if c.closedAt >= since {
        RecentAppend(Recent(front, since), c, cutoff);
      }
    }
  }

  /** Restart equivalence: hydrating from the persisted rows, whatever the tracker held before,
      rebuilds the live window and drawdown; repeating it changes nothing; and the throttle state
      agrees with the live one wherever the drawdown lies outside the hysteresis band. */
  lemma RestartRebuildsTheThrottle(cfg: Config, events: seq<Event>, before: Throttle, since: int, now: int)
    requires ValidConfig(cfg)
    requires NoHydrate(events) && ClockNeverRunsBack(events) && LastRefreshAt(events, now)
    requires InTimeOrder(History(events)) && RowsAgree(events)
    requires since <= Cutoff(cfg, now)
    ensures var live := Refresh(cfg, Run(cfg, IDLE, events), now);
            var rows := RowsSince(events, since);
            var rebuilt := Hydrate(cfg, before, rows, now);
            && rebuilt.window == live.window && rebuilt.ddR == live.ddR
            && Hydrate(cfg, rebuilt, rows, now) == rebuilt
            && (live.ddR > cfg.engageR || live.ddR < cfg.releaseR ==> rebuilt.engaged == live.engaged)
  {
    var h, cutoff := History(events), Cutoff(cfg, now);
    WindowIsRecentHistory(cfg, events, now);
    RowEntriesAreHistory(events, since);
    RecentKeepsOrder(h, since);
    SortKeepsOrder(Recent(h, since));
    ExpiryIsRecent(Recent(h, since), cutoff);
    RecentOfRecent(h, since, cutoff);
  }

  /** The rows agree exactly when the two readings of every closed trade do. */
  lemma RowsAgreeIff(events: seq<Event>)
    requires forall e :: e in events && e.Closed? ==> CleanlyClosed(e.trade)
    ensures RowsAgree(events) <==> forall e :: e in events && e.Closed? ==> ReadingsAgree(e.trade)
  {
    forall e | e in events && e.Closed?
      ensures FromRow(RowOf(e.trade)) == FromTrade(e.trade, e.now) <==> ReadingsAgree(e.trade)
    {
      RowMatchesLiveIff(e.trade, e.now);
    }
  }
}
