/** The budget over whole days of interleaved previews, reservations, releases, opens and closes
    of one cluster (src/risk/cluster_tracker.py, serialised by src/execution/engine.py). */
module ClusterBudget {
  import opened Basics
  import opened MapSums
  import opened ClusterTracker

  /** What can happen to a cluster. A preview and its reservation sit under the engine lock, so at
      most one preview awaits its reservation; everything else may fall in between. */
  datatype Event =
    | Previewed
    | Abandoned                                   // a later rule refused the previewed signal
    | Reserved(signalId: string)
    | Released(signalId: string)
    | Opened(signalId: string, tradeId: string)
    | Closed(tradeId: string, signalId: string, realizedRr: Option<real>)

  /** What the budget is exceeded by: losses beyond the R reserved for a counted trade, and whole losses
      of trades that closed without being counted as open, with their number. */
  datatype Slack = Slack(overshootR: real, uncountedR: real, uncountedLosses: nat)

  const NO_SLACK := Slack(0.0, 0.0, 0)

  /** The cluster, the preview awaiting its reservation, and the slack its closes have used. */
  datatype Ledger = Ledger(st: ClusterState, awaiting: Option<real>, slack: Slack)

  function Excess(rr: real, riskR: real): real {
    Max(0.0, Abs(rr) - 1.0) * riskR
  }

  function Slacken(slack: Slack, st: ClusterState, tradeId: string, realizedRr: Option<real>): Slack {
    var rr := Outcome(realizedRr);
    if rr >= 0.0 then slack
    else if tradeId in st.open then slack.(overshootR := slack.overshootR + Excess(rr, st.open[tradeId]))
    else slack.(uncountedR := slack.uncountedR + Damage(rr, 1.0), uncountedLosses := slack.uncountedLosses + 1)
  }

  ghost function Step(g: Group, l: Ledger, e: Event): Ledger {
    match e
    case Previewed =>
      var p := PreviewOf(g, l.st);
      if l.awaiting.None? && p.Approved? then l.(awaiting := Some(p.plannedRiskR)) else l
    case Abandoned => l.(awaiting := None)
    case Reserved(signalId) =>
      if l.awaiting.Some? then l.(st := Reserve(l.st, signalId, l.awaiting.value), awaiting := None) else l
    case Released(signalId) => l.(st := Release(l.st, signalId))
    case Opened(signalId, tradeId) => l.(st := MarkOpened(l.st, signalId, tradeId))
    case Closed(tradeId, signalId, realizedRr) =>
      l.(st := MarkClosed(l.st, tradeId, signalId, realizedRr), slack := Slacken(l.slack, l.st, tradeId, realizedRr))
  }

  ghost function Run(g: Group, l: Ledger, events: seq<Event>): Ledger {
    if events == [] then l else Step(g, Run(g, l, events[..|events| - 1]), events[|events| - 1])
  }

  /** Every open refers to a reserved signal. */
  predicate RefersToEntry(l: Ledger, e: Event) {
    e.Opened? ==> e.signalId in l.st.pending
  }

  ghost predicate TrackedRun(g: Group, l: Ledger, events: seq<Event>) {
    events != [] ==>
      var front := events[..|events| - 1];
      TrackedRun(g, l, front) && RefersToEntry(Run(g, l, front), events[|events| - 1])
  }

  /** Every close refers to an open trade as well. */
  ghost predicate ClosesTracked(g: Group, l: Ledger, events: seq<Event>) {
    events != [] ==>
      var front, e := events[..|events| - 1], events[|events| - 1];
      ClosesTracked(g, l, front) && (e.Closed? ==> e.tradeId in Run(g, l, front).st.open)
  }

  predicate NonNegative(m: map<string, real>) {
    forall k :: k in m ==> m[k] >= 0.0
  }

  /** What every step keeps: the budget, both counts, and room for the preview still awaiting. */
  ghost predicate Inv(g: Group, l: Ledger) {
    && NonNegative(l.st.pending) && NonNegative(l.st.open)
    && l.slack.overshootR >= 0.0 && l.slack.uncountedR >= 0.0 && l.awaiting.GetOr(0.0) >= 0.0
    && UsedR(l.st) + l.awaiting.GetOr(0.0) <= g.maxLossR + l.slack.overshootR + l.slack.uncountedR
    && Concurrent(l.st) + Awaiting(l) <= g.maxConcurrent
    && l.st.lossCount + Concurrent(l.st) + Awaiting(l) <= g.maxLosses + g.maxConcurrent - 1 + l.slack.uncountedLosses
  }

  function Awaiting(l: Ledger): nat {
    if l.awaiting.Some? then 1 else 0
  }

  lemma RemovalShrinks(m: map<string, real>, k: string)
    requires NonNegative(m)
    ensures NonNegative(m - {k})
    ensures Sum(m - {k}) == Sum(m) - (if k in m then m[k] else 0.0)
    ensures |m - {k}| == |m| - (if k in m then 1 else 0)
  {
    if k in m {
      SumWithout(m, k);
      var rest := m - {k};
      assert rest.Keys == m.Keys - {k};
      assert |rest| == |rest.Keys| && |m| == |m.Keys|;
    } else {
      assert m - {k} == m;
    }
  }

  lemma InsertionGrows(m: map<string, real>, k: string, v: real)
    requires NonNegative(m) && v >= 0.0
    ensures NonNegative(m[k := v])
    ensures Sum(m[k := v]) <= Sum(m) + v
    ensures |m[k := v]| <= |m| + 1
  {
    SumUpdate(m, k, v);
    assert m[k := v].Keys == m.Keys + {k};
    if k in m {
      assert m.Keys + {k} == m.Keys;
    }
  }

  lemma DamageSplits(rr: real, riskR: real)
    requires rr < 0.0 && riskR >= 0.0
    ensures 0.0 <= Damage(rr, riskR) <= riskR + Excess(rr, riskR)
    ensures Excess(rr, riskR) >= 0.0
  {
    Distribute(Abs(rr), 1.0, riskR);
  }

  lemma ReserveKeepsInv(g: Group, l: Ledger, signalId: string)
    requires ValidGroup(g) && Inv(g, l)
    ensures Inv(g, Step(g, l, Reserved(signalId)))
  {
    if l.awaiting.Some? {
      InsertionGrows(l.st.pending, signalId, l.awaiting.value);
    }
  }

  lemma ReleaseKeepsInv(g: Group, l: Ledger, signalId: string)
    requires ValidGroup(g) && Inv(g, l)
    ensures Inv(g, Step(g, l, Released(signalId)))
  {
    RemovalShrinks(l.st.pending, signalId);
  }

  lemma OpenKeepsInv(g: Group, l: Ledger, signalId: string, tradeId: string)
    requires ValidGroup(g) && Inv(g, l) && signalId in l.st.pending
    ensures Inv(g, Step(g, l, Opened(signalId, tradeId)))
  {
    RemovalShrinks(l.st.pending, signalId);
    InsertionGrows(l.st.open, tradeId, l.st.pending[signalId]);
  }

  lemma CountedCloseKeepsInv(g: Group, l: Ledger, tradeId: string, signalId: string, realizedRr: Option<real>)
    requires ValidGroup(g) && Inv(g, l) && tradeId in l.st.open
    ensures Inv(g, Step(g, l, Closed(tradeId, signalId, realizedRr)))
  {
    RemovalShrinks(l.st.open, tradeId);
    if Outcome(realizedRr) < 0.0 {
      DamageSplits(Outcome(realizedRr), l.st.open[tradeId]);
    }
  }

  lemma UncountedCloseKeepsInv(g: Group, l: Ledger, tradeId: string, signalId: string, realizedRr: Option<real>)
    requires ValidGroup(g) && Inv(g, l) && tradeId !in l.st.open
    ensures Inv(g, Step(g, l, Closed(tradeId, signalId, realizedRr)))
  {
    assert l.st.open - {tradeId} == l.st.open;
  }

  /** A close trades open R for realised loss, and whatever it loses beyond that for slack. */
  lemma CloseKeepsInv(g: Group, l: Ledger, tradeId: string, signalId: string, realizedRr: Option<real>)
    requires ValidGroup(g) && Inv(g, l)
    ensures Inv(g, Step(g, l, Closed(tradeId, signalId, realizedRr)))
  {
    if tradeId in l.st.open {
      CountedCloseKeepsInv(g, l, tradeId, signalId, realizedRr);
    } else {
      UncountedCloseKeepsInv(g, l, tradeId, signalId, realizedRr);
    }
  }

  lemma StepKeepsInv(g: Group, l: Ledger, e: Event)
    requires ValidGroup(g) && Inv(g, l) && RefersToEntry(l, e)
    ensures Inv(g, Step(g, l, e))
  {
    match e {
      case Previewed =>
      case Abandoned =>
      case Reserved(signalId) => ReserveKeepsInv(g, l, signalId);
      case Released(signalId) => ReleaseKeepsInv(g, l, signalId);
      case Opened(signalId, tradeId) => OpenKeepsInv(g, l, signalId, tradeId);
      case Closed(tradeId, signalId, realizedRr) => CloseKeepsInv(g, l, tradeId, signalId, realizedRr);
    }
  }

  lemma {:induction false} RunKeepsInv(g: Group, l: Ledger, events: seq<Event>)
    requires ValidGroup(g) && Inv(g, l) && TrackedRun(g, l, events)
    ensures Inv(g, Run(g, l, events))
  {
    if events != [] {
      var front := events[..|events| - 1];
      RunKeepsInv(g, l, front);
      StepKeepsInv(g, Run(g, l, front), events[|events| - 1]);
    }
  }

  function NewDay(day: int): Ledger {
    Ledger(FreshDay(day), None, NO_SLACK)
  }

  /** Budget safety: over any day whose opens refer to reservations, realised loss plus everything
      pending and open stays within the budget plus the slack, even when releases, opens and closes
      fall between a preview and its reservation and closes come for trades never counted. */
  lemma BudgetIsNeverExceeded(g: Group, day: int, events: seq<Event>)
    requires ValidGroup(g) && TrackedRun(g, NewDay(day), events)
    ensures var l := Run(g, NewDay(day), events);
            UsedR(l.st) <= g.maxLossR + l.slack.overshootR + l.slack.uncountedR
  {
    RunKeepsInv(g, NewDay(day), events);
  }

  /** Positions are bounded outright, losses and positions together up to the uncounted losses. */
  lemma PositionsAndLossesAreBounded(g: Group, day: int, events: seq<Event>)
    requires ValidGroup(g) && TrackedRun(g, NewDay(day), events)
    ensures var l := Run(g, NewDay(day), events);
            && Concurrent(l.st) <= g.maxConcurrent
            && l.st.lossCount + Concurrent(l.st) <= g.maxLosses + g.maxConcurrent - 1 + l.slack.uncountedLosses
  {
    RunKeepsInv(g, NewDay(day), events);
  }

  lemma {:induction false} TrackedClosesAreCounted(g: Group, l: Ledger, events: seq<Event>)
    requires ClosesTracked(g, l, events)
    ensures Run(g, l, events).slack == l.slack.(overshootR := Run(g, l, events).slack.overshootR)
  {
    if events != [] {
      TrackedClosesAreCounted(g, l, events[..|events| - 1]);
    }
  }

  /** When every close refers to an open trade too, the only slack is what losing trades lost beyond
      their own R, and the joint bound on losses and positions is exact. */
  lemma TrackedDayKeepsTheBudget(g: Group, day: int, events: seq<Event>)
    requires ValidGroup(g) && TrackedRun(g, NewDay(day), events) && ClosesTracked(g, NewDay(day), events)
    ensures var l := Run(g, NewDay(day), events);
            && UsedR(l.st) <= g.maxLossR + l.slack.overshootR
            && l.st.lossCount + Concurrent(l.st) <= g.maxLosses + g.maxConcurrent - 1
  {
    BudgetIsNeverExceeded(g, day, events);
    PositionsAndLossesAreBounded(g, day, events);
    TrackedClosesAreCounted(g, NewDay(day), events);
  }

  predicate StopsHold(events: seq<Event>) {
    forall e :: e in events && e.Closed? ==> Outcome(e.realizedRr) >= -1.0
  }

  /** When no trade loses more than its own 1R nothing overshoots. */
  lemma {:induction false} NoOvershootWhenStopsHold(g: Group, l: Ledger, events: seq<Event>)
    requires StopsHold(events)
    ensures Run(g, l, events).slack.overshootR == l.slack.overshootR
  {
    if events != [] {
      var front, e := events[..|events| - 1], events[|events| - 1];
      assert e in events && forall d :: d in front ==> d in events;
      NoOvershootWhenStopsHold(g, l, front);
      if e.Closed? && Outcome(e.realizedRr) < 0.0 && e.tradeId in Run(g, l, front).st.open {
        assert Excess(Outcome(e.realizedRr), Run(g, l, front).st.open[e.tradeId]) == 0.0;
      }
    }
  }

  lemma BudgetHoldsOutright(g: Group, day: int, events: seq<Event>)
    requires ValidGroup(g) && TrackedRun(g, NewDay(day), events) && ClosesTracked(g, NewDay(day), events) && StopsHold(events)
    ensures UsedR(Run(g, NewDay(day), events).st) <= g.maxLossR
  {
    TrackedDayKeepsTheBudget(g, day, events);
    NoOvershootWhenStopsHold(g, NewDay(day), events);
  }

  /** The tracking condition is needed: opens that refer to no reservation are charged 1R each, and
      two of them exceed every budget below 2R. */
  lemma UntrackedOpensExceedTheBudget(g: Group, day: int)
    requires ValidGroup(g) && g.maxLossR < 2.0
    ensures var events := [Opened("", "a"), Opened("", "b")];
            var l := Run(g, NewDay(day), events);
            UsedR(l.st) > g.maxLossR + l.slack.overshootR + l.slack.uncountedR
  {
    var one := Opened("", "a");
    var events := [one, Opened("", "b")];
    assert events[..1] == [one] && [one][..0] == [];
    assert Run(g, NewDay(day), [one][..0]) == NewDay(day);
    var l1 := Run(g, NewDay(day), [one]);
    assert l1 == Step(g, NewDay(day), one);
    SumUpdate(map[], "a", 1.0);
    SumUpdate(l1.st.open, "b", 1.0);
    var l2 := Run(g, NewDay(day), events);
    assert l2 == Step(g, l1, events[1]);
    assert l2.st.pending == map[];
  }

  // ---------- What a preview answers ----------

  /** Which signals get through, in terms of losses, positions and the budget that is left. */
  lemma PreviewApprovesIff(g: Group, st: ClusterState)
    requires ValidGroup(g)
    ensures var p, left, size := PreviewOf(g, st), g.maxLossR - UsedR(st), if st.lossCount == 0 then 1.0 else g.afterFirstLoss;
            && (p.Approved? <==> st.lossCount < g.maxLosses && |st.pending| + |st.open| < g.maxConcurrent
                                 && left >= g.minTradeR && size >= g.minTradeR)
            && (p.Approved? ==> p.riskMultiplier == p.plannedRiskR && p.plannedRiskR <= size && p.plannedRiskR <= left
                                && (p.plannedRiskR == size || p.plannedRiskR == left))
            && (p.Refused? ==> p.reason == if st.lossCount >= g.maxLosses then TooManyLosses
                                           else if |st.pending| + |st.open| >= g.maxConcurrent then TooManyPositions
                                           else BudgetExhausted)
  {
  }

  /** How many closes were losses. */
  function LossesIn(events: seq<Event>): nat {
    if events == [] then 0
    else
      var e := events[|events| - 1];
      LossesIn(events[..|events| - 1]) + if e.Closed? && e.realizedRr.Some? && e.realizedRr.value < 0.0 then 1 else 0
  }

  lemma {:induction false} LossesAreCounted(g: Group, l: Ledger, events: seq<Event>)
    ensures Run(g, l, events).st.lossCount == l.st.lossCount + LossesIn(events)
  {
    if events != [] {
      LossesAreCounted(g, l, events[..|events| - 1]);
    }
  }

  /** Before the day's first loss an approved trade is sized at 1R exactly when that much is left. */
  lemma FullSizeBeforeALoss(g: Group, day: int, events: seq<Event>)
    requires ValidGroup(g) && LossesIn(events) == 0
    ensures var st := Run(g, NewDay(day), events).st;
            var p, left := PreviewOf(g, st), g.maxLossR - UsedR(st);
            p.Approved? ==> p.plannedRiskR == if left >= 1.0 then 1.0 else left
  {
    LossesAreCounted(g, NewDay(day), events);
    PreviewApprovesIff(g, Run(g, NewDay(day), events).st);
  }

  /** Once a loss has been booked today, an approved trade is sized at the reduced R exactly when that
      much is left, and never above it. */
  lemma ReducedAfterALoss(g: Group, day: int, events: seq<Event>)
    requires ValidGroup(g) && LossesIn(events) > 0
    ensures var st := Run(g, NewDay(day), events).st;
            var p, left := PreviewOf(g, st), g.maxLossR - UsedR(st);
            p.Approved? ==> p.plannedRiskR == if left >= g.afterFirstLoss then g.afterFirstLoss else left
  {
    LossesAreCounted(g, NewDay(day), events);
    PreviewApprovesIff(g, Run(g, NewDay(day), events).st);
  }

  predicate LeavesThePreview(events: seq<Event>) {
    forall e :: e in events ==> !e.Reserved? && !e.Abandoned?
  }

  lemma {:induction false} PreviewWaits(g: Group, l: Ledger, events: seq<Event>)
    requires l.awaiting.Some? && LeavesThePreview(events)
    ensures Run(g, l, events).awaiting == l.awaiting
  {
    if events != [] {
      assert events[|events| - 1] in events && forall e :: e in events[..|events| - 1] ==> e in events;
      PreviewWaits(g, l, events[..|events| - 1]);
    }
  }

  lemma LedgerExtends(g: Group, l: Ledger, events: seq<Event>, e: Event)
    ensures Run(g, l, events + [e]) == Step(g, Run(g, l, events), e)
  {
    assert (events + [e])[..|events + [e]| - 1] == events;
  }

  /** What is reserved is what was previewed, whatever happened in between: after a loss, at most the
      reduced R. */
  lemma ReservationIsReducedAfterALoss(g: Group, day: int, events: seq<Event>, between: seq<Event>, id: string)
    requires ValidGroup(g) && LossesIn(events) > 0 && LeavesThePreview(between)
    requires var l := Run(g, NewDay(day), events); l.awaiting.None? && PreviewOf(g, l.st).Approved?
    ensures var previewed := Run(g, NewDay(day), events + [Previewed]);
            var reserved := Step(g, Run(g, previewed, between), Reserved(id));
            id in reserved.st.pending && reserved.st.pending[id] <= g.afterFirstLoss
            && reserved.st.pending[id] == PreviewOf(g, Run(g, NewDay(day), events).st).plannedRiskR
  {
    ReducedAfterALoss(g, day, events);
    LedgerExtends(g, NewDay(day), events, Previewed);
    PreviewWaits(g, Run(g, NewDay(day), events + [Previewed]), between);
  }

  // ---------- A trade's whole way through the ledger ----------

  /** Reserved, opened and closed at `rr` of its own R, a trade leaves the ledger as it was but for what it
      lost, in units of what it was sized at. */
  lemma TradeCostsWhatItLost(st: ClusterState, id: string, k: string, riskR: real, rr: real)
    requires id !in st.pending && k !in st.open
    ensures var closed := MarkClosed(MarkOpened(Reserve(st, id, riskR), id, k), k, id, Some(rr));
            && closed.pending == st.pending && closed.open == st.open && closed.day == st.day
            && closed.openSignals == st.openSignals - {id}
            && closed.realizedLossR == st.realizedLossR + (if rr < 0.0 then -rr * riskR else 0.0)
            && closed.lossCount == st.lossCount + (if rr < 0.0 then 1 else 0)
  {
    var counted := MarkOpened(Reserve(st, id, riskR), id, k);
    assert st.pending[id := riskR] - {id} == st.pending;
    assert counted.open == st.open[k := riskR];
    assert st.open[k := riskR] - {k} == st.open;
  }

  lemma OneMoreEntry(m: map<string, real>, k: string, v: real)
    requires k !in m
    ensures Sum(m[k := v]) == Sum(m) + v && |m[k := v]| == |m| + 1 && m[k := v] - {k} == m
  {
    SumUpdate(m, k, v);
    OneMoreKey(m, k, v);
  }

  lemma OneMoreKey(m: map<string, real>, k: string, v: real)
    requires k !in m
    ensures |m[k := v]| == |m| + 1 && m[k := v] - {k} == m
  {
    assert m[k := v].Keys == m.Keys + {k};
  }

  /** While it is reserved or open, the trade occupies one position and its R of the budget. */
  lemma TradeOccupiesItsR(st: ClusterState, id: string, k: string, riskR: real)
    requires id !in st.pending && k !in st.open
    ensures var reserved := Reserve(st, id, riskR);
            && UsedR(reserved) == UsedR(MarkOpened(reserved, id, k)) == UsedR(st) + riskR
            && Concurrent(reserved) == Concurrent(MarkOpened(reserved, id, k)) == Concurrent(st) + 1
            && Release(reserved, id) == st
            && (id != "" ==> MarkOpened(reserved, id, k).openSignals == st.openSignals[id := k])
  {
    var counted := MarkOpened(Reserve(st, id, riskR), id, k);
    OneMoreEntry(st.pending, id, riskR);
    OneMoreEntry(st.open, k, riskR);
    assert counted.pending == st.pending && counted.open == st.open[k := riskR];
  }
}
