/** The shared daily risk budget of correlated symbols (src/risk/cluster_tracker.py). */
module ClusterTracker {
  import opened Basics
  import opened MapSums

  datatype Group = Group(
    name: string, symbols: seq<string>, maxLossR: real, maxConcurrent: int,
    maxLosses: int, afterFirstLoss: real, minTradeR: real)

  /** The ranges that configuration loading accepts. */
  predicate ValidGroup(g: Group) {
    && g.maxLossR > 0.0 && g.maxConcurrent >= 1 && g.maxLosses >= 1
    && 0.0 < g.afterFirstLoss <= 1.0 && 0.0 < g.minTradeR <= 1.0
  }

  datatype ClusterState = ClusterState(
    day: int,
    pending: map<string, real>,          // signal id -> R
    open: map<string, real>,             // trade id  -> R
    openSignals: map<string, string>,    // signal id -> trade id
    realizedLossR: real,
    lossCount: nat)

  datatype Refusal = TooManyLosses | TooManyPositions | BudgetExhausted

  datatype ClusterPreview =
    | Approved(cluster: Option<string>, riskMultiplier: real, plannedRiskR: real)
    | Refused(cluster: Option<string>, reason: Refusal)

  // ---------- Specification ----------

  function FreshDay(day: int): ClusterState {
    ClusterState(day, map[], map[], map[], 0.0, 0)
  }

  function Match(groups: seq<Group>, symbol: string): Option<Group> {
    if groups == [] then None
    else if symbol in groups[0].symbols then Some(groups[0])
    else Match(groups[1..], symbol)
  }

  function StateFor(states: map<string, ClusterState>, g: Group, today: int): ClusterState {
    if g.name in states && states[g.name].day == today then states[g.name] else FreshDay(today)
  }

  ghost function UsedR(st: ClusterState): real {
    st.realizedLossR + Sum(st.pending) + Sum(st.open)
  }

  function Concurrent(st: ClusterState): nat {
    |st.pending| + |st.open|
  }

  function BaseMultiplier(g: Group, st: ClusterState): real {
    if st.lossCount >= 1 then g.afterFirstLoss else 1.0
  }

  ghost function PreviewOf(g: Group, st: ClusterState): ClusterPreview {
    var planned := Min(BaseMultiplier(g, st), g.maxLossR - UsedR(st));
    if st.lossCount >= g.maxLosses then Refused(Some(g.name), TooManyLosses)
    else if Concurrent(st) >= g.maxConcurrent then Refused(Some(g.name), TooManyPositions)
    else if planned < g.minTradeR then Refused(Some(g.name), BudgetExhausted)
    else Approved(Some(g.name), planned, planned)
  }

  function Reserve(st: ClusterState, signalId: string, riskR: real): ClusterState {
    st.(pending := st.pending[signalId := riskR])
  }

  function Release(st: ClusterState, signalId: string): ClusterState {
    st.(pending := st.pending - {signalId})
  }

  // An unknown id counts as 1R, in both directions.
  function RiskOf(entries: map<string, real>, id: string): real {
    if id in entries then entries[id] else 1.0
  }

  function MarkOpened(st: ClusterState, signalId: string, tradeId: string): ClusterState {
    st.(pending := st.pending - {signalId},
        open := st.open[tradeId := RiskOf(st.pending, signalId)],
        openSignals := if signalId != "" then st.openSignals[signalId := tradeId] else st.openSignals)
  }

  function Outcome(realizedRr: Option<real>): real {
    realizedRr.GetOr(0.0)
  }

  /** Cluster damage of a trade that lost `rr` of its own R while sized at `riskR`. */
  function Damage(rr: real, riskR: real): real {
    Abs(rr) * riskR
  }

  function MarkClosed(st: ClusterState, tradeId: string, signalId: string, realizedRr: Option<real>): ClusterState {
    var riskR, rr := RiskOf(st.open, tradeId), Outcome(realizedRr);
    st.(open := st.open - {tradeId},
        openSignals := st.openSignals - {signalId},
        realizedLossR := if rr < 0.0 then st.realizedLossR + Damage(rr, riskR) else st.realizedLossR,
        lossCount := if rr < 0.0 then st.lossCount + 1 else st.lossCount)
  }

  /** The group of a symbol is the first that lists it. */
  lemma {:induction false} FirstGroupMatches(groups: seq<Group>, symbol: string)
    ensures Match(groups, symbol).None? <==> forall g :: g in groups ==> symbol !in g.symbols
    ensures Match(groups, symbol).Some? ==>
      exists i :: 0 <= i < |groups| && Match(groups, symbol) == Some(groups[i]) && symbol in groups[i].symbols
                  && forall j :: 0 <= j < i ==> symbol !in groups[j].symbols
  {
    if groups != [] {
      FirstGroupMatches(groups[1..], symbol);
      if symbol !in groups[0].symbols && Match(groups[1..], symbol).Some? {
        var i :| 0 <= i < |groups[1..]| && Match(groups[1..], symbol) == Some(groups[1..][i]) && symbol in groups[1..][i].symbols
                 && forall j :: 0 <= j < i ==> symbol !in groups[1..][j].symbols;
        assert groups[i + 1] == groups[1..][i];
        assert forall j :: 0 < j < i + 1 ==> groups[j] == groups[1..][j - 1];
      }
    }
  }

  /** A day's ledger is found again the same day and forgotten on any other. */
  lemma LedgersLastADay(states: map<string, ClusterState>, g: Group, st: ClusterState, day: int)
    ensures var found := StateFor(states[g.name := st], g, day);
            && (st.day == day ==> found == st)
            && (st.day != day ==> UsedR(found) == 0.0 && Concurrent(found) == 0 && found.lossCount == 0 && found.day == day)
  {
  }

  // ---------- The tracker ----------

  method SumValues(m: map<string, real>) returns (total: real)
    ensures total == Sum(m)
  {
    total := 0.0;
    var rest := m;
    while rest != map[]
      invariant total + Sum(rest) == Sum(m)
      decreases |rest|
    {
      var k :| k in rest;
      SumWithout(rest, k);
      total := total + rest[k];
      rest := rest - {k};
    }
  }

  class ClusterRiskTracker {
    const enabled: bool
    const groups: seq<Group>
    var states: map<string, ClusterState>

    constructor (enabled: bool, groups: seq<Group>)
      ensures this.enabled == enabled && this.groups == groups && states == map[]
    {
      this.enabled, this.groups, states := enabled, groups, map[];
    }

    function Tracked(symbol: string): Option<Group> {
      if enabled then Match(groups, symbol) else None
    }

    method EnterDay(g: Group, today: int) returns (st: ClusterState)
      modifies this
      ensures st == StateFor(old(states), g, today)
      ensures states == old(states)[g.name := st]
    {
      if g.name !in states || states[g.name].day != today {
        states := states[g.name := FreshDay(today)];
      }
      st := states[g.name];
    }

    method Preview(symbol: string, today: int) returns (preview: ClusterPreview)
      modifies this
      ensures match Tracked(symbol) {
                case None => states == old(states) && preview == Approved(None, 1.0, 1.0)
                case Some(g) =>
                  var st := StateFor(old(states), g, today);
                  states == old(states)[g.name := st] && preview == PreviewOf(g, st)
              }
      ensures !enabled || (forall g :: g in groups ==> symbol !in g.symbols) ==>
                states == old(states) && preview == Approved(None, 1.0, 1.0)
    {
      FirstGroupMatches(groups, symbol);
      var group := Tracked(symbol);
      if group.None? {
        return Approved(None, 1.0, 1.0);
      }
      var g := group.value;
      var st := EnterDay(g, today);
      var pendingR := SumValues(st.pending);
      var openR := SumValues(st.open);
      var usedR := st.realizedLossR + pendingR + openR;
      if st.lossCount >= g.maxLosses {
        return Refused(Some(g.name), TooManyLosses);
      }
      if |st.pending| + |st.open| >= g.maxConcurrent {
        return Refused(Some(g.name), TooManyPositions);
      }
      var planned := Min(if st.lossCount >= 1 then g.afterFirstLoss else 1.0, g.maxLossR - usedR);
      if planned < g.minTradeR {
        return Refused(Some(g.name), BudgetExhausted);
      }
      return Approved(Some(g.name), planned, planned);
    }

    method ReserveSignal(symbol: string, signalId: string, riskR: real, today: int)
      modifies this
      ensures match Tracked(symbol) {
                case None => states == old(states)
                case Some(g) => states == old(states)[g.name := Reserve(StateFor(old(states), g, today), signalId, riskR)]
              }
    {
      var group := Tracked(symbol);
      if group.Some? {
        var st := EnterDay(group.value, today);
        states := states[group.value.name := st.(pending := st.pending[signalId := riskR])];
      }
    }

    method ReleaseSignal(symbol: string, signalId: string, today: int)
      modifies this
      ensures match Tracked(symbol) {
                case None => states == old(states)
                case Some(g) => states == old(states)[g.name := Release(StateFor(old(states), g, today), signalId)]
              }
    {
      var group := Tracked(symbol);
      if group.Some? {
        var st := EnterDay(group.value, today);
        states := states[group.value.name := st.(pending := st.pending - {signalId})];
      }
    }

    method MarkTradeOpened(symbol: string, signalId: string, tradeId: string, today: int)
      modifies this
      ensures match Tracked(symbol) {
                case None => states == old(states)
                case Some(g) => states == old(states)[g.name := MarkOpened(StateFor(old(states), g, today), signalId, tradeId)]
              }
    {
      var group := Tracked(symbol);
      if group.Some? {
        var st := EnterDay(group.value, today);
        var riskR := if signalId in st.pending then st.pending[signalId] else 1.0;
        st := st.(pending := st.pending - {signalId}, open := st.open[tradeId := riskR]);
        if signalId != "" {
          st := st.(openSignals := st.openSignals[signalId := tradeId]);
        }
        states := states[group.value.name := st];
      }
    }

    method MarkTradeClosed(symbol: string, tradeId: string, signalId: string, realizedRr: Option<real>, today: int)
      modifies this
      ensures match Tracked(symbol) {
                case None => states == old(states)
                case Some(g) =>
                  states == old(states)[g.name := MarkClosed(StateFor(old(states), g, today), tradeId, signalId, realizedRr)]
              }
    {
      var group := Tracked(symbol);
      if group.Some? {
        var st := EnterDay(group.value, today);
        var riskR := if tradeId in st.open then st.open[tradeId] else 1.0;
        st := st.(open := st.open - {tradeId}, openSignals := st.openSignals - {signalId});
        var rr := realizedRr.GetOr(0.0);
        if rr < 0.0 {
          st := st.(realizedLossR := st.realizedLossR + Abs(rr) * riskR, lossCount := st.lossCount + 1);
        }
        states := states[group.value.name := st];
      }
    }
  }
}
