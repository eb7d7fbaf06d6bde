/** The open-trade limit over concurrent executions (src/execution/engine.py:262-290,
    src/risk/rules.py:171-181): what the slot counters are for. */
module OpenLimit {
  import opened Basics
  import opened OrderProtocol
  import opened OrderSafety
  import opened Conservation
  import EngineSlots
  import CT = ClusterTracker

  /** Stored trades that an execution stored itself: not from a resting limit order, and not taken in
      by a position poll. */
  function MarketTrades(s: Sys): set<string> {
    set k | k in s.store && s.store[k].ticket !in s.tracked && k !in s.adopted
  }

  /** All stored trades of positions that did not come from a resting limit order. */
  function MarketPositions(s: Sys): set<string> {
    set k | k in s.store && s.store[k].ticket !in s.tracked
  }

  /** Executions that may still store a market trade. */
  function InFlight(execs: map<string, Exec>): set<string> {
    set id | id in execs && (execs[id].phase.Admitted? || execs[id].phase.MarketAccepted?)
  }

  function AtGate(gate: Gate): nat {
    if gate.Previewed? then 1 else 0
  }

  predicate WithinLimit(s: Sys) {
    |MarketTrades(s)| + |InFlight(s.execs)| + AtGate(s.gate) <= s.maxOpen
  }

  /** The slots counted per symbol are the ids held. */
  ghost predicate TotalOk(s: Sys) {
    EngineSlots.PendingTotal(s.slots.counts) == |s.slots.ids|
  }

  lemma Cardinality<T>(a: set<T>, b: set<T>)
    requires a <= b
    ensures |a| <= |b|
  {
    assert b == a + (b - a);
  }

  // ---------- Steps that take no slot ----------

  predicate Shrinks(s: Sys, s': Sys) {
    && MarketTrades(s') <= MarketTrades(s) && InFlight(s'.execs) <= InFlight(s.execs)
    && AtGate(s'.gate) <= AtGate(s.gate) && s'.maxOpen == s.maxOpen
  }

  lemma ShrinkingStaysWithinLimit(s: Sys, s': Sys)
    requires WithinLimit(s) && Shrinks(s, s')
    ensures WithinLimit(s')
  {
    Cardinality(MarketTrades(s'), MarketTrades(s));
    Cardinality(InFlight(s'.execs), InFlight(s.execs));
  }

  lemma FailingShrinks(s: Sys, id: string)
    ensures Shrinks(s, DoFailFreesSlot(s, id)) && Shrinks(s, DoFailReleases(s, id)) && Shrinks(s, s.(gate := Unlocked))
  {
  }

  lemma PlacingShrinks(s: Sys, id: string, t: Ticket, expiryAt: int)
    ensures Shrinks(s, DoLimitPlaced(s, id, t)) && Shrinks(s, DoMarketFilled(s, id, t)) && Shrinks(s, DoTrackLimit(s, id, expiryAt))
  {
  }

  lemma FailedTrackingShrinks(s: Sys, id: string, k: string)
    ensures Shrinks(s, DoTrackingFails(s, id, k))
  {
  }

  lemma CountingShrinks(s: Sys, id: string, phase: Phase)
    ensures Shrinks(s, DoCountTrade(s, id)) && Shrinks(s, DoFreeSlot(s, id, phase))
  {
  }

  lemma FillShrinks(s: Sys, tradeId: string, cancelHonoured: bool)
    requires FillInv(s)
    ensures Shrinks(s, DoDecide(s, tradeId, cancelHonoured))
  {
    if s.poller.AtLoop? && s.poller.view.todo != [] {
      assert s.poller.view.todo[0] in s.poller.view.todo;
      assert s.poller.view.todo[0].ticket in s.tracked;
    }
  }

  lemma QuietPollShrinks(s: Sys, step: PollStep)
    requires !step.Decide?
    ensures Shrinks(s, ApplyPoll(s, step))
  {
  }

  lemma BrokerShrinks(s: Sys, b: BrokerStep)
    ensures Shrinks(s, ApplyBroker(s, b))
  {
  }

  lemma ManageShrinks(s: Sys, step: ManagerStep)
    ensures Shrinks(s, ApplyManage(s, step))
  {
    ManageMoves(s, step);
    ManageStoresNone(s, step);
  }

  lemma ManageStoresNone(s: Sys, step: ManagerStep)
    ensures MarketTrades(ApplyManage(s, step)) <= MarketTrades(s)
  {
  }

  // ---------- Steps that take one ----------

  lemma PreviewStaysWithinLimit(g: CT.Group, s: Sys, sig: Signal)
    requires WithinLimit(s) && TotalOk(s) && SlotInv(s)
    ensures WithinLimit(DoPreview(g, s, sig))
  {
    if DoPreview(g, s, sig) != s {
      assert DoPreview(g, s, sig) == s.(gate := DoPreview(g, s, sig).gate);
      Cardinality(MarketTrades(s), s.store.Keys);
      Cardinality(InFlight(s.execs), s.slots.ids);
    }
  }

  lemma OneMoreInFlight(execs: map<string, Exec>, id: string, exec: Exec)
    ensures |InFlight(execs[id := exec])| <= |InFlight(execs)| + 1
  {
    Cardinality(InFlight(execs[id := exec]), InFlight(execs) + {id});
  }

  lemma AdmitStaysWithinLimit(s: Sys)
    requires WithinLimit(s)
    ensures WithinLimit(DoAdmit(s))
  {
    if s.gate.Previewed? {
      var s' := DoAdmit(s);
      assert MarketTrades(s') == MarketTrades(s);
      OneMoreInFlight(s.execs, s.gate.sig.id, Exec(s.gate.sig, Admitted));
    }
  }

  lemma StoreTradeStaysWithinLimit(s: Sys, id: string, tradeId: string)
    requires WithinLimit(s)
    ensures WithinLimit(DoStoreTrade(s, id, tradeId))
  {
    var s' := DoStoreTrade(s, id, tradeId);
    if s' != s {
      assert id in InFlight(s.execs);
      assert InFlight(s'.execs) == InFlight(s.execs) - {id};
      Cardinality(MarketTrades(s'), MarketTrades(s) + {tradeId});
    }
  }

  lemma StepStaysWithinLimit(g: CT.Group, s: Sys, step: Step)
    requires WithinLimit(s) && TotalOk(s) && SlotInv(s) && FillInv(s)
    ensures WithinLimit(Apply(g, s, step))
  {
    match step
    case Admission(PreviewSignal(sig)) => PreviewStaysWithinLimit(g, s, sig);
    case Admission(AdmitSignal) => AdmitStaysWithinLimit(s);
    case Placement(StoreTrade(id, tradeId)) => StoreTradeStaysWithinLimit(s, id, tradeId);
    case _ =>
      OtherStepsShrink(g, s, step);
      ShrinkingStaysWithinLimit(s, Apply(g, s, step));
  }

  predicate TakesASlot(step: Step) {
    (step.Admission? && (step.a.PreviewSignal? || step.a.AdmitSignal?)) || (step.Placement? && step.p.StoreTrade?)
  }

  lemma OtherStepsShrink(g: CT.Group, s: Sys, step: Step)
    requires FillInv(s) && !TakesASlot(step)
    ensures Shrinks(s, Apply(g, s, step))
  {
    match step
    case Broker(b) => BrokerShrinks(s, b);
    case Admission(RefuseSignal) => FailingShrinks(s, "");
    case Admission(FailFreesSlot(id)) => FailingShrinks(s, id);
    case Admission(FailReleases(id)) => FailingShrinks(s, id);
    case Placement(LimitPlaced(id, t)) => PlacingShrinks(s, id, t, 0);
    case Placement(TrackingFails(id, k)) => FailedTrackingShrinks(s, id, k);
    case Placement(MarketFilled(id, t)) => PlacingShrinks(s, id, t, 0);
    case Placement(TrackLimit(id, expiryAt)) => PlacingShrinks(s, id, 0, expiryAt);
    case Placement(CountTrade(id)) => CountingShrinks(s, id, LimitTracked);
    case Placement(LimitFreesSlot(id)) => CountingShrinks(s, id, LimitTracked);
    case Placement(MarketFreesSlot(id)) => CountingShrinks(s, id, TradeCounted);
    case Poll(Decide(tradeId, cancelHonoured)) => FillShrinks(s, tradeId, cancelHonoured);
    case Poll(q) => QuietPollShrinks(s, q);
    case Manage(m) => ManageShrinks(s, m);
  }

  // ---------- The total ----------

  lemma AdmitKeepsTotal(s: Sys)
    requires TotalOk(s) && SlotInv(s) && CustodyInv(s)
    ensures TotalOk(DoAdmit(s))
  {
    if s.gate.Previewed? {
      EngineSlots.ReserveAddsOne(s.slots, s.gate.sig.symbol, s.gate.sig.id);
      assert s.gate.sig.id !in s.slots.ids;
    }
  }

  lemma ReleaseKeepsTotal(s: Sys, id: string)
    requires TotalOk(s) && SlotInv(s) && id in s.execs && HoldsSlot(s.execs[id].phase)
    ensures var slots := EngineSlots.Release(s.slots, s.execs[id].sig.symbol, id);
            EngineSlots.PendingTotal(slots.counts) == |slots.ids|
  {
    var symbol := s.execs[id].sig.symbol;
    assert id in SlotHolders(s.execs, symbol);
    Cardinality({id}, SlotHolders(s.execs, symbol));
    EngineSlots.ReleaseTakesOne(s.slots, symbol, id);
    assert id in s.slots.ids;
  }

  lemma FreeingKeepsTotal(s: Sys, id: string, phase: Phase)
    requires TotalOk(s) && SlotInv(s) && HoldsSlot(phase)
    ensures TotalOk(DoFreeSlot(s, id, phase)) && TotalOk(DoFailFreesSlot(s, id))
  {
    if id in s.execs && HoldsSlot(s.execs[id].phase) {
      ReleaseKeepsTotal(s, id);
    }
  }

  lemma AdmissionKeepsTotal(g: CT.Group, s: Sys, step: AdmissionStep)
    requires TotalOk(s) && SlotInv(s) && CustodyInv(s)
    ensures TotalOk(ApplyAdmission(g, s, step))
  {
    match step
    case PreviewSignal(sig) => GateFramesSlots(g, s, sig);
    case RefuseSignal =>
    case AdmitSignal => AdmitKeepsTotal(s);
    case FailFreesSlot(id) => FreeingKeepsTotal(s, id, Admitted);
    case FailReleases(_) =>
  }

  lemma PlacementKeepsTotal(s: Sys, step: PlacementStep)
    requires TotalOk(s) && SlotInv(s)
    ensures TotalOk(ApplyPlacement(s, step))
  {
    match step
    case LimitFreesSlot(id) => FreeingKeepsTotal(s, id, LimitTracked);
    case MarketFreesSlot(id) => FreeingKeepsTotal(s, id, TradeCounted);
    case LimitPlaced(id, t) => OrdersFrameSlots(s, id, t);
    case MarketFilled(id, t) => OrdersFrameSlots(s, id, t);
    case TrackLimit(id, expiryAt) => TrackingFramesSlots(s, id, expiryAt);
    case StoreTrade(id, tradeId) => TradesFrameSlots(s, id, tradeId);
    case TrackingFails(id, tradeId) => LostTrackingFramesSlots(s, id, tradeId);
    case CountTrade(id) => CountsFrameSlots(s, id);
  }

  lemma StepKeepsTotal(g: CT.Group, s: Sys, step: Step)
    requires TotalOk(s) && SlotInv(s) && CustodyInv(s)
    ensures TotalOk(Apply(g, s, step))
  {
    match step
    case Broker(b) => OthersLeaveSlots(s, b, ReadBroker);
    case Admission(a) => AdmissionKeepsTotal(g, s, a);
    case Placement(p) => PlacementKeepsTotal(s, p);
    case Poll(q) => PollLeavesSlots(s, q);
    case Manage(m) => OthersLeaveSlots(s, OrderFills(0), m);
  }

  lemma {:induction false} RunStaysWithinLimit(g: CT.Group, day: int, maxOpen: nat, steps: seq<Step>)
    ensures WithinLimit(Run(g, Start(day, maxOpen), steps)) && TotalOk(Run(g, Start(day, maxOpen), steps))
  {
    if steps != [] {
      var front, step := steps[..|steps| - 1], steps[|steps| - 1];
      var s := Run(g, Start(day, maxOpen), front);
      RunStaysWithinLimit(g, day, maxOpen, front);
      RunKeepsAll(g, day, maxOpen, front);
      StepStaysWithinLimit(g, s, step);
      StepKeepsTotal(g, s, step);
    }
  }

  /** However many executions run at once: the market trades they stored, the executions that may still
      store one, and the signal being admitted together never exceed the configured number of slots; the
      positions that polls took in come on top. */
  lemma SlotsBoundConcurrentExecutions(g: CT.Group, day: int, maxOpen: nat, steps: seq<Step>)
    ensures var s := Run(g, Start(day, maxOpen), steps);
            && |MarketTrades(s)| + |InFlight(s.execs)| + AtGate(s.gate) <= maxOpen
            && |MarketPositions(s)| + |InFlight(s.execs)| + AtGate(s.gate) <= maxOpen + |s.adopted|
  {
    RunStaysWithinLimit(g, day, maxOpen, steps);
    ConfigurationStays(g, Start(day, maxOpen), steps);
    var s := Run(g, Start(day, maxOpen), steps);
    Cardinality(MarketPositions(s), MarketTrades(s) + s.adopted);
  }

  lemma {:induction false} ConfigurationStays(g: CT.Group, s: Sys, steps: seq<Step>)
    ensures Run(g, s, steps).maxOpen == s.maxOpen
  {
    if steps != [] {
      ConfigurationStays(g, s, steps[..|steps| - 1]);
      if !IsClose(steps[|steps| - 1]) {
        OnlyClosesUseSlack(g, Run(g, s, steps[..|steps| - 1]), steps[|steps| - 1]);
      }
    }
  }
}
