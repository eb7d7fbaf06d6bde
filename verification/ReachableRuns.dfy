/** Runs of the order protocol that reach its weak spots: a close that overtakes the count of its trade
    (src/execution/engine.py:536-584), a fill whose trade the store refuses
    (src/positions/pending_manager.py:226-239), and positions that a poll takes in before or after their
    own trade (src/positions/manager.py:255-267). */
module ReachableRuns {
  import opened Basics
  import opened MapSums
  import opened OrderProtocol
  import opened OrderSafety
  import opened Conservation
  import opened StoreRefusals
  import opened Exposure
  import opened OpenLimit
  import EngineSlots
  import CT = ClusterTracker
  import CB = ClusterBudget

  /** One execution, nothing else in motion. */
  predicate Alone(s: Sys, sig: Signal, phase: Phase, orders: map<Ticket, OrderStatus>, store: map<string, StoredTrade>) {
    && s.execs == map[sig.id := Exec(sig, phase)] && s.orders == orders && s.store == store
    && s.gate == Unlocked && s.poller == Idle
  }

  /** Nothing has been issued, seen, taken in or closed, and the cluster shows nothing as open. */
  predicate Fresh(s: Sys) {
    && s.issued == map[] && s.seen == {} && s.adopted == {} && s.overtaken == {}
    && s.slack == CB.NO_SLACK && s.cluster.open == map[]
  }

  /** No history beyond the admission. */
  predicate NoHistory(s: Sys) {
    Fresh(s) && s.records == map[] && s.tracked == {} && s.traded == {} && s.refused == {}
  }

  predicate SameHistory(s: Sys, s': Sys) {
    && s'.cluster == s.cluster && s'.slack == s.slack && s'.overtaken == s.overtaken && s'.adopted == s.adopted
    && s'.custody == s.custody && s'.refused == s.refused && s'.seen == s.seen && s'.tracked == s.tracked
  }

  function FirstReservation(g: CT.Group, day: int, id: string): CT.ClusterState {
    CT.Reserve(CT.FreshDay(day), id, Min(1.0, g.maxLossR))
  }

  /** The day's first signal is admitted when the group's smallest trade fits its budget. */
  predicate Admissible(g: CT.Group, maxOpen: nat, sig: Signal) {
    CT.ValidGroup(g) && maxOpen >= 1 && (sig.clustered ==> g.minTradeR <= g.maxLossR)
  }

  lemma FirstPreview(g: CT.Group, day: int, maxOpen: nat, sig: Signal)
    requires Admissible(g, maxOpen, sig)
    ensures var s := DoPreview(g, Start(day, maxOpen), sig);
            && s == Start(day, maxOpen).(gate := s.gate) && s.gate.Previewed? && s.gate.sig == sig
            && (sig.clustered ==> s.gate.plannedR == Min(1.0, g.maxLossR))
  {
    assert CT.UsedR(Start(day, maxOpen).cluster) == 0.0;
  }

  lemma FirstAdmission(g: CT.Group, day: int, maxOpen: nat, sig: Signal) returns (steps: seq<Step>)
    requires Admissible(g, maxOpen, sig)
    ensures var s := Run(g, Start(day, maxOpen), steps);
            && Alone(s, sig, Admitted, map[], map[]) && NoHistory(s)
            && s.custody == map[sig.id := Custody(sig, InExecute)]
            && (sig.clustered ==> s.cluster == FirstReservation(g, day, sig.id))
  {
    steps := [Admission(PreviewSignal(sig))];
    assert steps == [] + steps;
    RunExtends(g, Start(day, maxOpen), [], steps[0]);
    FirstPreview(g, day, maxOpen, sig);
    RunExtends(g, Start(day, maxOpen), steps, Admission(AdmitSignal));
    steps := steps + [Admission(AdmitSignal)];
  }

  // ---------- A close overtakes its count ----------

  lemma MarketFill(s: Sys, sig: Signal)
    requires Alone(s, sig, Admitted, map[], map[])
    ensures var s' := DoMarketFilled(s, sig.id, 1);
            Alone(s', sig, MarketAccepted(1), map[1 := Filled], map[]) && SameHistory(s, s') && s'.issued == s.issued
  {
  }

  lemma Stored(s: Sys, sig: Signal, k: string)
    requires Alone(s, sig, MarketAccepted(1), map[1 := Filled], map[]) && k !in s.issued
    ensures var s' := DoStoreTrade(s, sig.id, k);
            && Alone(s', sig, TradeStored(k), map[1 := Filled], map[k := StoredTrade(1, sig)]) && SameHistory(s, s')
            && s'.issued == s.issued[k := StoredTrade(1, sig)]
  {
  }

  lemma StoppedOut(s: Sys, sig: Signal, phase: Phase, store: map<string, StoredTrade>)
    requires Alone(s, sig, phase, map[1 := Filled], store)
    ensures var s' := MoveOrder(s, 1, Filled, Closed);
            Alone(s', sig, phase, map[1 := Closed], store) && SameHistory(s, s') && s'.issued == s.issued
  {
  }

  /** The trade `k` is stored for the order, and no poll has seen its position. */
  predicate Unseen(s: Sys, sig: Signal, k: string) {
    && s.issued == map[k := StoredTrade(1, sig)] && s.seen == {} && s.adopted == {} && s.overtaken == {}
    && s.slack == CB.NO_SLACK && k !in s.cluster.open && s.tracked == {}
  }

  lemma ClosedUncounted(s: Sys, sig: Signal, k: string, status: OrderStatus, rr: Option<real>)
    requires Alone(s, sig, TradeStored(k), map[1 := status], map[k := StoredTrade(1, sig)])
    requires sig.clustered && Unseen(s, sig, k)
    ensures var s' := DoCloseTrade(s, k, rr);
            && Alone(s', sig, TradeStored(k), map[1 := status], map[])
            && s'.cluster == CT.MarkClosed(s.cluster, k, sig.id, rr) && s'.slack.overshootR == 0.0
            && s'.issued == s.issued && s'.adopted == {} && s'.overtaken == {k}
  {
    assert s.store - {k} == map[];
  }

  lemma CountedTooLate(s: Sys, sig: Signal, k: string, status: OrderStatus)
    requires Alone(s, sig, TradeStored(k), map[1 := status], map[]) && sig.clustered
    ensures var s' := DoCountTrade(s, sig.id);
            && Alone(s', sig, TradeCounted, map[1 := status], map[])
            && s'.cluster == CT.MarkOpened(s.cluster, sig.id, k) && s'.slack == s.slack
            && s'.issued == s.issued && s'.adopted == s.adopted && s'.overtaken == s.overtaken
  {
  }

  lemma SlotFreed(s: Sys, sig: Signal, orders: map<Ticket, OrderStatus>, store: map<string, StoredTrade>, phase: Phase)
    requires Alone(s, sig, phase, orders, store)
    ensures var s' := DoFreeSlot(s, sig.id, phase);
            && s'.execs == map[] && s' == s.(slots := s'.slots, execs := s'.execs) && Quiescent(s')
  {
  }

  lemma StoredRun(g: CT.Group, day: int, maxOpen: nat, sig: Signal, k: string) returns (steps: seq<Step>)
    requires Admissible(g, maxOpen, sig)
    ensures var s := Run(g, Start(day, maxOpen), steps);
            && Alone(s, sig, TradeStored(k), map[1 := Filled], map[k := StoredTrade(1, sig)]) && Unseen(s, sig, k)
            && (sig.clustered ==> s.cluster == FirstReservation(g, day, sig.id))
  {
    var start := Start(day, maxOpen);
    steps := FirstAdmission(g, day, maxOpen, sig);
    MarketFill(Run(g, start, steps), sig);
    RunExtends(g, start, steps, Placement(MarketFilled(sig.id, 1)));
    steps := steps + [Placement(MarketFilled(sig.id, 1))];
    Stored(Run(g, start, steps), sig, k);
    RunExtends(g, start, steps, Placement(StoreTrade(sig.id, k)));
    steps := steps + [Placement(StoreTrade(sig.id, k))];
  }

  /** The cluster after a trade of R `p` lost 1R uncounted and was then counted as open. */
  lemma UsedAfterOvertaking(c: CT.ClusterState, id: string, k: string, day: int, p: real)
    requires c == CT.MarkOpened(CT.MarkClosed(CT.Reserve(CT.FreshDay(day), id, p), k, id, Some(-1.0)), id, k)
    ensures CT.UsedR(c) == 1.0 + p && k in c.open
  {
    assert c.pending == map[];
    assert c.open == map[][k := p];
    SumUpdate(map[], k, p);
    assert c.realizedLossR == 1.0;
  }

  lemma OvertakingRun(g: CT.Group, day: int, maxOpen: nat, sig: Signal, k: string, status: OrderStatus, rr: Option<real>,
                      stored: seq<Step>) returns (steps: seq<Step>)
    requires sig.clustered
    requires var s := Run(g, Start(day, maxOpen), stored);
             Alone(s, sig, TradeStored(k), map[1 := status], map[k := StoredTrade(1, sig)]) && Unseen(s, sig, k)
    ensures var before, s := Run(g, Start(day, maxOpen), stored), Run(g, Start(day, maxOpen), steps);
            && Alone(s, sig, TradeCounted, map[1 := status], map[]) && s.slack.overshootR == 0.0
            && s.cluster == CT.MarkOpened(CT.MarkClosed(before.cluster, k, sig.id, rr), sig.id, k)
            && s.issued == before.issued && s.adopted == {} && s.overtaken == {k}
  {
    var start := Start(day, maxOpen);
    ClosedUncounted(Run(g, start, stored), sig, k, status, rr);
    RunExtends(g, start, stored, Manage(CloseTrade(k, rr)));
    steps := stored + [Manage(CloseTrade(k, rr))];
    CountedTooLate(Run(g, start, steps), sig, k, status);
    RunExtends(g, start, steps, Placement(CountTrade(sig.id)));
    steps := steps + [Placement(CountTrade(sig.id))];
  }

  lemma StoppedOutRun(g: CT.Group, day: int, maxOpen: nat, sig: Signal, k: string) returns (steps: seq<Step>)
    requires Admissible(g, maxOpen, sig) && sig.clustered
    ensures var s := Run(g, Start(day, maxOpen), steps);
            && Alone(s, sig, TradeStored(k), map[1 := Closed], map[k := StoredTrade(1, sig)]) && Unseen(s, sig, k)
            && s.cluster == FirstReservation(g, day, sig.id)
  {
    steps := StoredRun(g, day, maxOpen, sig, k);
    StoppedOut(Run(g, Start(day, maxOpen), steps), sig, TradeStored(k), map[k := StoredTrade(1, sig)]);
    RunExtends(g, Start(day, maxOpen), steps, Broker(PositionCloses(1)));
    steps := steps + [Broker(PositionCloses(1))];
  }

  /** The budget without the uncounted losses is broken by a single trade: closed at -1R before it is
      counted, it is charged once as a loss and once more as open, for good. The reachable state exceeds
      the budget exactly when the budget is below 2R. */
  lemma OvertakenLossBreaksTheBudget(g: CT.Group, day: int, maxOpen: nat, sig: Signal, k: string) returns (steps: seq<Step>)
    requires Admissible(g, maxOpen, sig) && sig.clustered
    ensures var s := Run(g, Start(day, maxOpen), steps);
            && Quiescent(s) && s.store == map[] && k in s.cluster.open && s.slack.overshootR == 0.0
            && CT.UsedR(s.cluster) == 1.0 + Min(1.0, g.maxLossR)
            && (CT.UsedR(s.cluster) > g.maxLossR + s.slack.overshootR <==> g.maxLossR < 2.0)
  {
    var start := Start(day, maxOpen);
    steps := StoppedOutRun(g, day, maxOpen, sig, k);
    steps := OvertakingRun(g, day, maxOpen, sig, k, Closed, Some(-1.0), steps);
    UsedAfterOvertaking(Run(g, start, steps).cluster, sig.id, k, day, Min(1.0, g.maxLossR));
    SlotFreed(Run(g, start, steps), sig, map[1 := Closed], map[], TradeCounted);
    RunExtends(g, start, steps, Placement(MarketFreesSlot(sig.id)));
    steps := steps + [Placement(MarketFreesSlot(sig.id))];
  }

  // ---------- The store refuses a fill ----------

  /** One resting or filled limit order with its record, nothing executing. */
  predicate OneRecord(s: Sys, sig: Signal, expiryAt: int, status: OrderStatus) {
    && s.execs == map[] && s.gate == Unlocked
    && s.orders == map[1 := status] && s.records == map[1 := Record(1, sig, expiryAt)]
    && s.tracked == {1} && s.traded == {} && s.refused == {} && s.store == map[] && Fresh(s)
    && s.custody == map[sig.id := Custody(sig, InRecord(1))]
  }

  lemma LimitRests(s: Sys, sig: Signal, expiryAt: int)
    requires Alone(s, sig, Admitted, map[], map[]) && NoHistory(s) && s.custody == map[sig.id := Custody(sig, InExecute)]
    ensures var tracked := DoTrackLimit(DoLimitPlaced(s, sig.id, 1), sig.id, expiryAt);
            && Alone(tracked, sig, LimitTracked, map[1 := Resting], map[])
            && OneRecord(DoFreeSlot(tracked, sig.id, LimitTracked), sig, expiryAt, Resting)
            && DoFreeSlot(tracked, sig.id, LimitTracked).poller == Idle
  {
  }

  lemma LimitTrackedRun(g: CT.Group, day: int, maxOpen: nat, sig: Signal, expiryAt: int) returns (steps: seq<Step>)
    requires Admissible(g, maxOpen, sig)
    ensures var s := Run(g, Start(day, maxOpen), steps);
            OneRecord(s, sig, expiryAt, Filled) && s.poller == Idle
  {
    var start := Start(day, maxOpen);
    steps := FirstAdmission(g, day, maxOpen, sig);
    LimitRests(Run(g, start, steps), sig, expiryAt);
    RunExtends(g, start, steps, Placement(LimitPlaced(sig.id, 1)));
    steps := steps + [Placement(LimitPlaced(sig.id, 1))];
    RunExtends(g, start, steps, Placement(TrackLimit(sig.id, expiryAt)));
    steps := steps + [Placement(TrackLimit(sig.id, expiryAt))];
    RunExtends(g, start, steps, Placement(LimitFreesSlot(sig.id)));
    steps := steps + [Placement(LimitFreesSlot(sig.id))];
    RunExtends(g, start, steps, Broker(OrderFills(1)));
    steps := steps + [Broker(OrderFills(1))];
  }

  lemma PollSeesTheFill(s: Sys, sig: Signal, expiryAt: int, now: int)
    requires OneRecord(s, sig, expiryAt, Filled) && s.poller == Idle
    ensures var s' := DoReadPositions(DoReadResting(DoReadRecords(s, [Record(1, sig, expiryAt)])), now);
            OneRecord(s', sig, expiryAt, Filled) && s'.poller == AtLoop(View([Record(1, sig, expiryAt)], {}, {1}, now))
  {
    assert Enumerates([Record(1, sig, expiryAt)], s.records);
    assert TicketsAt(s.orders, Resting) == {} && TicketsAt(s.orders, Filled) == {1};
  }

  lemma StoreRefuses(s: Sys, sig: Signal, expiryAt: int, now: int)
    requires OneRecord(s, sig, expiryAt, Filled) && s.poller == AtLoop(View([Record(1, sig, expiryAt)], {}, {1}, now))
    ensures var s' := DoStoreFails(s);
            && s'.poller == AtLoop(View([], {}, {1}, now)) && s' == s.(records := map[], refused := {1}, poller := s'.poller)
  {
  }

  lemma FillSeenRun(g: CT.Group, day: int, maxOpen: nat, sig: Signal, expiryAt: int, now: int) returns (steps: seq<Step>)
    requires Admissible(g, maxOpen, sig)
    ensures var s := Run(g, Start(day, maxOpen), steps);
            OneRecord(s, sig, expiryAt, Filled) && s.poller == AtLoop(View([Record(1, sig, expiryAt)], {}, {1}, now))
  {
    var start, rec := Start(day, maxOpen), Record(1, sig, expiryAt);
    steps := LimitTrackedRun(g, day, maxOpen, sig, expiryAt);
    PollSeesTheFill(Run(g, start, steps), sig, expiryAt, now);
    RunExtends(g, start, steps, Poll(ReadRecords([rec])));
    steps := steps + [Poll(ReadRecords([rec]))];
    RunExtends(g, start, steps, Poll(ReadResting));
    steps := steps + [Poll(ReadResting)];
    RunExtends(g, start, steps, Poll(ReadPositions(now)));
    steps := steps + [Poll(ReadPositions(now))];
  }

  /** A fill can be lost: the run ends at rest with the order an open position, no record and no trade,
      until a position poll takes it in, and with its reservation still pending. */
  lemma RefusedFillIsLost(g: CT.Group, day: int, maxOpen: nat, sig: Signal, expiryAt: int, now: int) returns (steps: seq<Step>)
    requires Admissible(g, maxOpen, sig)
    ensures var s := Run(g, Start(day, maxOpen), steps);
            && Quiescent(s) && 1 in s.tracked && !Covered(s, 1) && s.orders == map[1 := Filled]
            && (sig.clustered ==> sig.id in RefusedSignals(s))
  {
    var start := Start(day, maxOpen);
    steps := FillSeenRun(g, day, maxOpen, sig, expiryAt, now);
    StoreRefuses(Run(g, start, steps), sig, expiryAt, now);
    RunExtends(g, start, steps, Poll(StoreFails));
    steps := steps + [Poll(StoreFails)];
    RunExtends(g, start, steps, Poll(Decide("", false)));
    steps := steps + [Poll(Decide("", false))];
  }

  // ---------- A position poll takes in a fill ----------

  /** The poll sees order 1 open and takes its position in under `k`, which is new. */
  lemma TakenIn(s: Sys, k: string, stub: StoredTrade)
    requires s.orders == map[1 := Filled] && s.store == map[] && s.issued == map[] && s.adopted == {} && stub.ticket == 1
    ensures DoReadBroker(s) == s.(seen := {1})
    ensures DoAdopt(s.(seen := {1}), 1, k, stub) == s.(seen := {1}, store := map[k := stub], adopted := {k})
  {
    assert TicketsAt(s.orders, Filled) == {1};
    assert !HasTicket(s.store, 1);
  }

  lemma TakingInRun(g: CT.Group, start: Sys, steps: seq<Step>, k: string, symbol: string, clustered: bool) returns (more: seq<Step>)
    requires var s := Run(g, start, steps);
             s.orders == map[1 := Filled] && s.store == map[] && s.issued == map[] && s.adopted == {}
    ensures Run(g, start, more) == Run(g, start, steps).(seen := {1}, store := map[k := Stub(1, symbol, clustered)], adopted := {k})
  {
    var stub := Stub(1, symbol, clustered);
    TakenIn(Run(g, start, steps), k, stub);
    RunExtends(g, start, steps, Manage(ReadBroker));
    more := steps + [Manage(ReadBroker)];
    RunExtends(g, start, more, Manage(AdoptPosition(1, k, symbol, clustered)));
    more := more + [Manage(AdoptPosition(1, k, symbol, clustered))];
  }

  /** A resting order of the cluster that the position manager sees filled first: nothing is in motion and
      nothing ever closed, but the cluster shows no open trade while the store holds one. */
  lemma AdoptedFillIsNotCounted(g: CT.Group, day: int, maxOpen: nat, sig: Signal, expiryAt: int, k: string) returns (steps: seq<Step>)
    requires Admissible(g, maxOpen, sig) && sig.clustered
    ensures var s := Run(g, Start(day, maxOpen), steps);
            && Quiescent(s) && s.overtaken == {} && s.slack == CB.NO_SLACK
            && StoredInCluster(s) == {k} && s.cluster.open == map[] && 1 in s.records
  {
    steps := LimitTrackedRun(g, day, maxOpen, sig, expiryAt);
    steps := TakingInRun(g, Start(day, maxOpen), steps, k, sig.symbol, true);
  }

  lemma StoredBesideTheStub(s: Sys, sig: Signal, k: string, stub: StoredTrade, own: string)
    requires Alone(s, sig, MarketAccepted(1), map[1 := Filled], map[k := stub]) && s.issued == map[] && own != k
    ensures var s' := DoCountTrade(DoStoreTrade(s, sig.id, own), sig.id);
            && Alone(s', sig, TradeCounted, map[1 := Filled], map[k := stub, own := StoredTrade(1, sig)])
            && s'.tracked == s.tracked && s'.adopted == s.adopted
  {
    assert s.store[own := StoredTrade(1, sig)] == map[k := stub, own := StoredTrade(1, sig)];
  }

  lemma BothCount(s: Sys, sig: Signal, k: string, stub: StoredTrade, own: string)
    requires s.store == map[k := stub, own := StoredTrade(1, sig)] && own != k && stub.ticket == 1 && s.tracked == {}
    ensures |MarketPositions(s)| == 2
  {
    assert MarketPositions(s) == {k, own};
  }

  lemma AdoptedEarlyRun(g: CT.Group, day: int, maxOpen: nat, sig: Signal, k: string) returns (steps: seq<Step>)
    requires Admissible(g, maxOpen, sig)
    ensures var s := Run(g, Start(day, maxOpen), steps);
            && Alone(s, sig, MarketAccepted(1), map[1 := Filled], map[k := Stub(1, sig.symbol, sig.clustered)])
            && s.issued == map[] && s.adopted == {k} && s.tracked == {}
  {
    var start := Start(day, maxOpen);
    steps := FirstAdmission(g, day, maxOpen, sig);
    MarketFill(Run(g, start, steps), sig);
    RunExtends(g, start, steps, Placement(MarketFilled(sig.id, 1)));
    steps := steps + [Placement(MarketFilled(sig.id, 1))];
    steps := TakingInRun(g, start, steps, k, sig.symbol, sig.clustered);
  }

  lemma StoredAndCountedRun(g: CT.Group, start: Sys, steps: seq<Step>, id: string, own: string) returns (more: seq<Step>)
    ensures Run(g, start, more) == DoCountTrade(DoStoreTrade(Run(g, start, steps), id, own), id)
  {
    RunExtends(g, start, steps, Placement(StoreTrade(id, own)));
    more := steps + [Placement(StoreTrade(id, own))];
    RunExtends(g, start, more, Placement(CountTrade(id)));
    more := more + [Placement(CountTrade(id))];
  }

  /** A filled market order that the position manager sees before its execution stores the trade: one
      position is two trades in the store, more than a limit of one allows. */
  lemma AdoptedFillIsStoredTwice(g: CT.Group, day: int, maxOpen: nat, sig: Signal, k: string, own: string) returns (steps: seq<Step>)
    requires Admissible(g, maxOpen, sig) && own != k
    ensures var s := Run(g, Start(day, maxOpen), steps);
            && Quiescent(s) && s.orders == map[1 := Filled] && s.adopted == {k}
            && s.store == map[k := Stub(1, sig.symbol, sig.clustered), own := StoredTrade(1, sig)]
            && (|MarketPositions(s)| > maxOpen <==> maxOpen < 2)
  {
    var start, stub := Start(day, maxOpen), Stub(1, sig.symbol, sig.clustered);
    steps := AdoptedEarlyRun(g, day, maxOpen, sig, k);
    StoredBesideTheStub(Run(g, start, steps), sig, k, stub, own);
    steps := StoredAndCountedRun(g, start, steps, sig.id, own);
    SlotFreed(Run(g, start, steps), sig, map[1 := Filled], map[k := stub, own := StoredTrade(1, sig)], TradeCounted);
    RunExtends(g, start, steps, Placement(MarketFreesSlot(sig.id)));
    steps := steps + [Placement(MarketFreesSlot(sig.id))];
    BothCount(Run(g, start, steps), sig, k, stub, own);
  }

  /** The poll takes the trade `k` back in under its record. */
  lemma TakenBack(s: Sys, k: string, trade: StoredTrade, stub: StoredTrade)
    requires s.orders == map[1 := Filled] && s.store == map[] && s.issued == map[k := trade] && s.adopted == {} && trade.ticket == 1
    ensures DoAdopt(DoReadBroker(s), 1, k, stub) == s.(seen := {1}, store := map[k := trade], adopted := {k})
  {
    assert TicketsAt(s.orders, Filled) == {1};
    assert !HasTicket(s.store, 1);
  }

  lemma OvertakenRun(g: CT.Group, day: int, maxOpen: nat, sig: Signal, k: string, rr: Option<real>) returns (steps: seq<Step>)
    requires Admissible(g, maxOpen, sig) && sig.clustered
    ensures var s := Run(g, Start(day, maxOpen), steps);
            && Quiescent(s) && s.orders == map[1 := Filled] && s.store == map[] && s.issued == map[k := StoredTrade(1, sig)]
            && s.adopted == {} && s.overtaken == {k} && s.cluster.open.Keys == {k}
  {
    var start := Start(day, maxOpen);
    steps := StoredRun(g, day, maxOpen, sig, k);
    steps := OvertakingRun(g, day, maxOpen, sig, k, Filled, rr, steps);
    assert Run(g, start, steps).cluster.open.Keys == {k};
    SlotFreed(Run(g, start, steps), sig, map[1 := Filled], map[], TradeCounted);
    RunExtends(g, start, steps, Placement(MarketFreesSlot(sig.id)));
    steps := steps + [Placement(MarketFreesSlot(sig.id))];
  }

  /** An overtaken trade whose position is still open comes back: the close went by a snapshot older than
      the fill, the next poll takes the trade in under its own id, and the cluster's exposure is that of
      the store again. */
  lemma OvertakenTradeComesBack(g: CT.Group, day: int, maxOpen: nat, sig: Signal, k: string, rr: Option<real>) returns (steps: seq<Step>)
    requires Admissible(g, maxOpen, sig) && sig.clustered
    ensures var s := Run(g, Start(day, maxOpen), steps);
            && Quiescent(s) && s.store == map[k := StoredTrade(1, sig)] && s.overtaken == {k} == s.adopted
            && s.cluster.open.Keys == StoredInCluster(s) == {k}
  {
    var start := Start(day, maxOpen);
    steps := OvertakenRun(g, day, maxOpen, sig, k, rr);
    TakenBack(Run(g, start, steps), k, StoredTrade(1, sig), Stub(1, "", true));
    RunExtends(g, start, steps, Manage(ReadBroker));
    steps := steps + [Manage(ReadBroker)];
    RunExtends(g, start, steps, Manage(AdoptPosition(1, k, "", true)));
    steps := steps + [Manage(AdoptPosition(1, k, "", true))];
  }
}
