/** Fills whose trade the in-memory store refuses (src/positions/pending_manager.py:226-239): exactly
    these can be lost, until the position manager takes their position in (src/positions/manager.py:255-267)
    or it closes, and their reservation stays. */
module StoreRefusals {
  import opened Basics
  import opened OrderProtocol
  import opened OrderSafety
  import opened Conservation
  import CT = ClusterTracker

  predicate WasOpen(orders: map<Ticket, OrderStatus>, t: Ticket) {
    t in orders && (orders[t] == Filled || orders[t] == Closed)
  }

  predicate AllWereOpen(orders: map<Ticket, OrderStatus>, tickets: set<Ticket>) {
    forall t :: t in tickets ==> WasOpen(orders, t)
  }

  /** The poller's position snapshot only holds orders that have filled. */
  predicate SnapshotOk(s: Sys) {
    match s.poller
    case AtLoop(view) => AllWereOpen(s.orders, view.open)
    case FillStored(_, _, view) => AllWereOpen(s.orders, view.open)
    case FillCounted(_, view) => AllWereOpen(s.orders, view.open)
    case Dropping(_, view) => AllWereOpen(s.orders, view.open)
    case Releasing(_, view) => AllWereOpen(s.orders, view.open)
    case _ => true
  }

  /** The record whose trade is stored but which is not yet dropped. */
  predicate BeingResolved(s: Sys, t: Ticket) {
    (s.poller.FillStored? || s.poller.FillCounted?) && s.poller.rec.ticket == t
  }

  predicate RecordsUntraded(s: Sys) {
    forall t :: t in s.records && t in s.traded ==> BeingResolved(s, t)
  }

  /** Orders accepted by the broker belong to one execution and have no trade yet. */
  predicate AcceptedUntraded(s: Sys) {
    && s.traded <= s.orders.Keys
    && (forall id :: id in s.execs && s.execs[id].phase.LimitAccepted? ==> s.execs[id].phase.ticket !in s.traded)
    && (forall id :: id in s.execs && s.execs[id].phase.MarketAccepted? ==>
          s.execs[id].phase.ticket in s.orders && s.execs[id].phase.ticket !in s.tracked)
    && (forall a, b :: a in s.execs && b in s.execs && s.execs[a].phase.MarketAccepted? && s.execs[b].phase.LimitAccepted? ==>
          s.execs[a].phase.ticket != s.execs[b].phase.ticket)
  }

  predicate RefusedOk(s: Sys) {
    forall t :: t in s.refused ==> t in s.tracked && t !in s.records && t !in s.traded && WasOpen(s.orders, t)
  }

  ghost predicate RefusalInv(s: Sys) {
    SnapshotOk(s) && RecordsUntraded(s) && AcceptedUntraded(s) && RefusedOk(s)
  }

  // ---------- Every step keeps it ----------

  // Steps that touch neither orders nor records nor trades, and leave the poller alone.
  predicate QuietFrame(s: Sys, s': Sys) {
    && s'.orders == s.orders && s'.records == s.records && s'.traded == s.traded && s'.tracked == s.tracked
    && s'.refused == s.refused && s'.poller == s.poller
    && forall id :: id in s'.execs && (s'.execs[id].phase.LimitAccepted? || s'.execs[id].phase.MarketAccepted?) ==>
         id in s.execs && s.execs[id].phase == s'.execs[id].phase
  }

  lemma QuietKeepsRefusalInv(s: Sys, s': Sys)
    requires RefusalInv(s) && QuietFrame(s, s')
    ensures RefusalInv(s')
  {
  }

  lemma GateIsQuiet(g: CT.Group, s: Sys, sig: Signal)
    ensures QuietFrame(s, DoPreview(g, s, sig)) && QuietFrame(s, s.(gate := Unlocked))
  {
    assert DoPreview(g, s, sig) == s.(gate := DoPreview(g, s, sig).gate);
  }

  lemma AdmitIsQuiet(s: Sys)
    ensures QuietFrame(s, DoAdmit(s))
  {
  }

  lemma FailFreesSlotIsQuiet(s: Sys, id: string)
    ensures QuietFrame(s, DoFailFreesSlot(s, id))
  {
  }

  lemma FailReleasesIsQuiet(s: Sys, id: string)
    ensures QuietFrame(s, DoFailReleases(s, id))
  {
  }

  lemma AdmissionKeepsRefusalInv(g: CT.Group, s: Sys, step: AdmissionStep)
    requires RefusalInv(s)
    ensures RefusalInv(ApplyAdmission(g, s, step))
  {
    match step {
      case PreviewSignal(sig) => GateIsQuiet(g, s, sig);
      case RefuseSignal => GateIsQuiet(g, s, Signal("", "", false));
      case AdmitSignal => AdmitIsQuiet(s);
      case FailFreesSlot(id) => FailFreesSlotIsQuiet(s, id);
      case FailReleases(id) => FailReleasesIsQuiet(s, id);
    }
    QuietKeepsRefusalInv(s, ApplyAdmission(g, s, step));
  }

  lemma BrokerKeepsRefusalInv(s: Sys, t: Ticket, from: OrderStatus, to: OrderStatus)
    requires RefusalInv(s)
    requires (from == Resting && (to == Filled || to == Cancelled)) || (from == Filled && to == Closed)
    ensures RefusalInv(MoveOrder(s, t, from, to))
  {
  }

  // A new order is nobody's yet.
  lemma NewOrderKeepsRefusalInv(s: Sys, s': Sys, t: Ticket, status: OrderStatus)
    requires FillInv(s) && RefusalInv(s) && t !in s.orders && s' == s.(orders := s.orders[t := status], execs := s'.execs)
    requires AcceptedUntraded(s')
    ensures RefusalInv(s')
  {
  }

  lemma LimitPlacedKeepsRefusalInv(s: Sys, id: string, t: Ticket)
    requires FillInv(s) && RefusalInv(s)
    ensures RefusalInv(DoLimitPlaced(s, id, t))
  {
    if DoLimitPlaced(s, id, t) != s {
      NewOrderKeepsRefusalInv(s, DoLimitPlaced(s, id, t), t, Resting);
    }
  }

  lemma MarketFilledKeepsRefusalInv(s: Sys, id: string, t: Ticket)
    requires FillInv(s) && RefusalInv(s)
    ensures RefusalInv(DoMarketFilled(s, id, t))
  {
    if DoMarketFilled(s, id, t) != s {
      NewOrderKeepsRefusalInv(s, DoMarketFilled(s, id, t), t, Filled);
    }
  }

  lemma TrackKeepsRefusalInv(s: Sys, id: string, expiryAt: int)
    requires FillInv(s) && RefusalInv(s)
    ensures RefusalInv(DoTrackLimit(s, id, expiryAt))
  {
    if id in s.execs && s.execs[id].phase.LimitAccepted? {
      var t, s' := s.execs[id].phase.ticket, DoTrackLimit(s, id, expiryAt);
      assert t !in s.tracked && t !in s.traded && t !in s.refused;
      assert SnapshotOk(s') && RefusedOk(s') && RecordsUntraded(s');
    }
  }

  lemma StoreTradeKeepsRefusalInv(s: Sys, id: string, tradeId: string)
    requires FillInv(s) && RefusalInv(s)
    ensures RefusalInv(DoStoreTrade(s, id, tradeId))
  {
    if DoStoreTrade(s, id, tradeId) != s {
      var t := s.execs[id].phase.ticket;
      assert t !in s.tracked && t !in s.records && t !in s.refused;
    }
  }

  lemma FreeSlotIsQuiet(s: Sys, id: string, phase: Phase)
    ensures QuietFrame(s, DoFreeSlot(s, id, phase))
  {
  }

  lemma CountTradeIsQuiet(s: Sys, id: string, k: string)
    ensures QuietFrame(s, DoCountTrade(s, id)) && QuietFrame(s, DoTrackingFails(s, id, k))
  {
  }

  lemma PlacementKeepsRefusalInv(s: Sys, step: PlacementStep)
    requires FillInv(s) && RefusalInv(s)
    ensures RefusalInv(ApplyPlacement(s, step))
  {
    match step {
      case LimitPlaced(id, t) => LimitPlacedKeepsRefusalInv(s, id, t);
      case TrackLimit(id, expiryAt) => TrackKeepsRefusalInv(s, id, expiryAt);
      case MarketFilled(id, t) => MarketFilledKeepsRefusalInv(s, id, t);
      case StoreTrade(id, tradeId) => StoreTradeKeepsRefusalInv(s, id, tradeId);
      case TrackingFails(id, tradeId) => CountTradeIsQuiet(s, id, tradeId);
      case CountTrade(id) => CountTradeIsQuiet(s, id, "");
      case LimitFreesSlot(id) => FreeSlotIsQuiet(s, id, LimitTracked);
      case MarketFreesSlot(id) => FreeSlotIsQuiet(s, id, TradeCounted);
    }
    if QuietFrame(s, ApplyPlacement(s, step)) {
      QuietKeepsRefusalInv(s, ApplyPlacement(s, step));
    }
  }

  lemma PollerAloneKeepsRefusalInv(s: Sys, s': Sys)
    requires RefusalInv(s) && s' == s.(poller := s'.poller) && SnapshotOk(s')
    requires !s.poller.FillStored? && !s.poller.FillCounted?
    ensures RefusalInv(s')
  {
  }

  lemma ReadsKeepRefusalInv(s: Sys, todo: seq<Record>)
    requires RefusalInv(s)
    ensures RefusalInv(DoReadRecords(s, todo)) && RefusalInv(DoReadResting(s)) && RefusalInv(DoFetchFails(s))
  {
    if DoReadRecords(s, todo) != s {
      PollerAloneKeepsRefusalInv(s, DoReadRecords(s, todo));
    }
    if DoReadResting(s) != s {
      PollerAloneKeepsRefusalInv(s, DoReadResting(s));
    }
    if DoFetchFails(s) != s {
      PollerAloneKeepsRefusalInv(s, DoFetchFails(s));
    }
  }

  lemma ReadPositionsKeepsRefusalInv(s: Sys, now: int)
    requires RefusalInv(s)
    ensures RefusalInv(DoReadPositions(s, now))
  {
    if DoReadPositions(s, now) != s {
      PollerAloneKeepsRefusalInv(s, DoReadPositions(s, now));
    }
  }

  lemma FillKeepsRefusalInv(s: Sys, rec: Record, rest: View, tradeId: string)
    requires RefusalInv(s) && AcceptedOk(s) && s.poller.AtLoop? && rest.open == s.poller.view.open
    requires rec.ticket in s.records && rec.ticket in s.tracked && WasOpen(s.orders, rec.ticket)
    ensures RefusalInv(HandleFill(s, rec, rest, tradeId))
  {
  }

  lemma ExpiryKeepsRefusalInv(s: Sys, rec: Record, rest: View, cancelHonoured: bool)
    requires RefusalInv(s) && s.poller.AtLoop? && rest.open == s.poller.view.open
    ensures RefusalInv(HandleOurExpiry(s, rec, rest, cancelHonoured))
  {
  }

  lemma DecideKeepsRefusalInv(s: Sys, tradeId: string, cancelHonoured: bool)
    requires FillInv(s) && RefusalInv(s)
    ensures RefusalInv(DoDecide(s, tradeId, cancelHonoured))
  {
    if s.poller.AtLoop? && s.poller.view.todo != [] {
      var view := s.poller.view;
      var rec, rest := view.todo[0], view.(todo := view.todo[1..]);
      assert rec in view.todo;
      if rec.ticket in view.open {
        FillKeepsRefusalInv(s, rec, rest, tradeId);
      } else if rec.ticket !in view.resting {
        PollerAloneKeepsRefusalInv(s, HandleVanished(s, rec, rest));
      } else {
        ExpiryKeepsRefusalInv(s, rec, rest, cancelHonoured);
        PollerAloneKeepsRefusalInv(s, s.(poller := AtLoop(rest)));
      }
    }
  }

  lemma RefusalKeepsRefusalInv(s: Sys)
    requires FillInv(s) && RefusalInv(s)
    ensures RefusalInv(DoStoreFails(s))
  {
    if DoStoreFails(s) != s {
      assert s.poller.view.todo[0] in s.poller.view.todo;
    }
  }

  lemma CountingKeepsRefusalInv(s: Sys)
    requires RefusalInv(s)
    ensures RefusalInv(DoCountFill(s)) && RefusalInv(DoReleaseRecord(s))
  {
    CountFillMoves(s);
    ReleaseMoves(s);
  }

  lemma DropFilledKeepsRefusalInv(s: Sys)
    requires RefusalInv(s)
    ensures RefusalInv(DoDropFilled(s))
  {
  }

  lemma DropRecordKeepsRefusalInv(s: Sys)
    requires RefusalInv(s)
    ensures RefusalInv(DoDropRecord(s))
  {
  }

  lemma PollKeepsRefusalInv(s: Sys, step: PollStep)
    requires FillInv(s) && RefusalInv(s)
    ensures RefusalInv(ApplyPoll(s, step))
  {
    match step
    case ReadRecords(todo) => ReadsKeepRefusalInv(s, todo);
    case ReadResting => ReadsKeepRefusalInv(s, []);
    case ReadPositions(now) => ReadPositionsKeepsRefusalInv(s, now);
    case FetchFails => ReadsKeepRefusalInv(s, []);
    case Decide(tradeId, cancelHonoured) => DecideKeepsRefusalInv(s, tradeId, cancelHonoured);
    case StoreFails => RefusalKeepsRefusalInv(s);
    case CountFill => CountingKeepsRefusalInv(s);
    case DropFilled => DropFilledKeepsRefusalInv(s);
    case DropRecord => DropRecordKeepsRefusalInv(s);
    case ReleaseRecord => CountingKeepsRefusalInv(s);
  }

  lemma ManageKeepsRefusalInv(s: Sys, step: ManagerStep)
    requires RefusalInv(s)
    ensures RefusalInv(ApplyManage(s, step))
  {
    ManageMoves(s, step);
    QuietKeepsRefusalInv(s, ApplyManage(s, step));
  }

  lemma StepKeepsRefusalInv(g: CT.Group, s: Sys, step: Step)
    requires FillInv(s) && RefusalInv(s)
    ensures RefusalInv(Apply(g, s, step))
  {
    match step
    case Broker(OrderFills(t)) => BrokerKeepsRefusalInv(s, t, Resting, Filled);
    case Broker(PositionCloses(t)) => BrokerKeepsRefusalInv(s, t, Filled, Closed);
    case Broker(OrderCancelled(t)) => BrokerKeepsRefusalInv(s, t, Resting, Cancelled);
    case Admission(a) => AdmissionKeepsRefusalInv(g, s, a);
    case Placement(p) => PlacementKeepsRefusalInv(s, p);
    case Poll(q) => PollKeepsRefusalInv(s, q);
    case Manage(m) => ManageKeepsRefusalInv(s, m);
  }

  lemma {:induction false} RunKeepsRefusalInv(g: CT.Group, day: int, maxOpen: nat, steps: seq<Step>)
    ensures RefusalInv(Run(g, Start(day, maxOpen), steps)) && FillInv(Run(g, Start(day, maxOpen), steps))
  {
    RunKeepsFillInv(g, day, maxOpen, steps);
    if steps != [] {
      var front := steps[..|steps| - 1];
      RunKeepsRefusalInv(g, day, maxOpen, front);
      StepKeepsRefusalInv(g, Run(g, Start(day, maxOpen), front), steps[|steps| - 1]);
    }
  }

  // ---------- What a refusal costs ----------

  /** Somebody still answers for the order, or it got its trade, or it needs no answer. */
  predicate Covered(s: Sys, t: Ticket) {
    t in s.records || t in s.traded || HasTicket(s.store, t) || Done(s.orders, t)
  }

  /** A tracked order is lost exactly when the store refused its trade, its position is still open, and
      no position poll has taken it in. */
  lemma FillIsLostIff(g: CT.Group, day: int, maxOpen: nat, steps: seq<Step>, t: Ticket)
    requires t in Run(g, Start(day, maxOpen), steps).tracked
    ensures var s := Run(g, Start(day, maxOpen), steps);
            !Covered(s, t) <==> t in s.refused && t in s.orders && s.orders[t] == Filled && !HasTicket(s.store, t)
  {
    NoFillIsLost(g, day, maxOpen, steps, t);
    RunKeepsRefusalInv(g, day, maxOpen, steps);
  }

  /** The next position poll ends the loss: it sees the position and takes it in, under any new id. */
  lemma PositionPollEndsTheLoss(
    g: CT.Group, day: int, maxOpen: nat, steps: seq<Step>, t: Ticket, k: string, symbol: string, clustered: bool)
    requires var s := Run(g, Start(day, maxOpen), steps); t in s.tracked && !Covered(s, t) && IsNew(s, k)
    ensures var polled := steps + [Manage(ReadBroker)] + [Manage(AdoptPosition(t, k, symbol, clustered))];
            HasTicket(Run(g, Start(day, maxOpen), polled).store, t)
  {
    var s, read := Run(g, Start(day, maxOpen), steps), steps + [Manage(ReadBroker)];
    FillIsLostIff(g, day, maxOpen, steps, t);
    RunExtends(g, Start(day, maxOpen), steps, Manage(ReadBroker));
    RunExtends(g, Start(day, maxOpen), read, Manage(AdoptPosition(t, k, symbol, clustered)));
    assert DoAdopt(DoReadBroker(s), t, k, Stub(t, symbol, clustered)).store[k].ticket == t;
  }

  // ---------- Nothing else ends it ----------

  predicate Lost(s: Sys, t: Ticket) {
    t in s.tracked && t in s.orders && !Covered(s, t)
  }

  // Steps that add no record, no trade and no verdict for the ticket.
  predicate LossFrame(s: Sys, s': Sys, t: Ticket) {
    && (t in s'.records ==> t in s.records) && (t in s'.traded ==> t in s.traded)
    && (HasTicket(s'.store, t) ==> HasTicket(s.store, t)) && (Done(s'.orders, t) ==> Done(s.orders, t))
  }

  lemma AdmissionKeepsLoss(g: CT.Group, s: Sys, step: AdmissionStep, t: Ticket)
    ensures LossFrame(s, ApplyAdmission(g, s, step), t)
  {
    ApplyAdmissionMoves(g, s, step);
  }

  lemma StoringKeepsLoss(s: Sys, id: string, k: string, t: Ticket)
    requires AcceptedUntraded(s) && Lost(s, t)
    ensures LossFrame(s, DoStoreTrade(s, id, k), t)
  {
  }

  lemma PlacementKeepsLoss(s: Sys, step: PlacementStep, t: Ticket)
    requires AcceptedOk(s) && AcceptedUntraded(s) && Lost(s, t)
    ensures LossFrame(s, ApplyPlacement(s, step), t)
  {
    if step.StoreTrade? {
      StoringKeepsLoss(s, step.id, step.tradeId, t);
    }
  }

  lemma FillKeepsLoss(s: Sys, rec: Record, rest: View, k: string, cancelHonoured: bool, t: Ticket)
    requires Lost(s, t) && rec.ticket != t
    ensures LossFrame(s, HandleFill(s, rec, rest, k), t) && LossFrame(s, HandleOurExpiry(s, rec, rest, cancelHonoured), t)
  {
  }

  lemma DecideKeepsLoss(s: Sys, k: string, cancelHonoured: bool, t: Ticket)
    requires FillInv(s) && Lost(s, t)
    ensures LossFrame(s, DoDecide(s, k, cancelHonoured), t)
  {
    if s.poller.AtLoop? && s.poller.view.todo != [] {
      var view := s.poller.view;
      assert view.todo[0] in view.todo;
      FillKeepsLoss(s, view.todo[0], view.(todo := view.todo[1..]), k, cancelHonoured, t);
    }
  }

  lemma PollKeepsLoss(s: Sys, step: PollStep, t: Ticket)
    requires FillInv(s) && Lost(s, t)
    ensures LossFrame(s, ApplyPoll(s, step), t)
  {
    match step
    case Decide(k, cancelHonoured) => DecideKeepsLoss(s, k, cancelHonoured, t);
    case CountFill => CountFillMoves(s);
    case _ => QuietPollMoves(s, step);
  }

  /** The position manager takes the position in. */
  predicate TakesIn(s: Sys, step: Step, t: Ticket) {
    && step.Manage? && step.m.AdoptPosition? && step.m.ticket == t && t in s.seen
    && step.m.tradeId !in s.store && (step.m.tradeId in s.issued ==> s.issued[step.m.tradeId].ticket == t)
  }

  lemma ManageEndsLossIff(s: Sys, step: ManagerStep, t: Ticket)
    requires Lost(s, t)
    ensures Covered(ApplyManage(s, step), t) <==> TakesIn(s, Manage(step), t)
  {
    var s' := ApplyManage(s, step);
    ManageMoves(s, step);
    assert Covered(s', t) <==> HasTicket(s'.store, t);
    if step.AdoptPosition? && s' != s {
      assert step.tradeId in s'.store;
    }
  }

  lemma BrokerEndsLossIff(s: Sys, step: BrokerStep, t: Ticket)
    requires Lost(s, t) && s.orders[t] == Filled
    ensures Covered(ApplyBroker(s, step), t) <==> step == PositionCloses(t)
  {
  }

  predicate EndsLoss(s: Sys, step: Step, t: Ticket) {
    step == Broker(PositionCloses(t)) || TakesIn(s, step, t)
  }

  lemma StepEndsLossIff(g: CT.Group, s: Sys, step: Step, t: Ticket)
    requires FillInv(s) && RefusalInv(s) && Lost(s, t) && s.orders[t] == Filled
    ensures Covered(Apply(g, s, step), t) <==> EndsLoss(s, step, t)
  {
    match step
    case Broker(b) => BrokerEndsLossIff(s, b, t);
    case Admission(a) => AdmissionKeepsLoss(g, s, a, t);
    case Placement(p) => PlacementKeepsLoss(s, p, t);
    case Poll(q) => PollKeepsLoss(s, q, t);
    case Manage(m) => ManageEndsLossIff(s, m, t);
  }

  /** A lost order stays lost until the position manager takes its position in or the position closes. */
  lemma LossEndsIff(g: CT.Group, day: int, maxOpen: nat, steps: seq<Step>, step: Step, t: Ticket)
    requires Lost(Run(g, Start(day, maxOpen), steps), t)
    ensures Covered(Run(g, Start(day, maxOpen), steps + [step]), t) <==> EndsLoss(Run(g, Start(day, maxOpen), steps), step, t)
  {
    FillIsLostIff(g, day, maxOpen, steps, t);
    RunKeepsRefusalInv(g, day, maxOpen, steps);
    RunExtends(g, Start(day, maxOpen), steps, step);
    StepEndsLossIff(g, Run(g, Start(day, maxOpen), steps), step, t);
  }

  /** The reservation of a refused fill. */
  predicate Orphaned(s: Sys, id: string) {
    id in s.custody && s.custody[id].place.InRecord? && s.custody[id].place.ticket in s.refused
  }

  predicate OrphanKept(s: Sys, s': Sys, id: string) {
    id in s.custody && Orphaned(s', id) && s'.custody[id] == s.custody[id]
  }

  // A hand-over of some other reservation, or none.
  lemma OtherCustodyKeepsOrphan(s: Sys, s': Sys, other: string, id: string)
    requires Orphaned(s, id) && s.refused <= s'.refused && other != id
    requires s'.custody == s.custody || (other in s'.custody && s'.custody == s.custody[other := s'.custody[other]])
    ensures OrphanKept(s, s', id)
  {
  }

  lemma ResolvingKeepsOrphan(s: Sys, id: string)
    requires FillInv(s) && CustodyInv(s) && RefusalInv(s) && Orphaned(s, id)
    ensures OrphanKept(s, DoCountFill(s), id) && OrphanKept(s, DoDropRecord(s), id) && OrphanKept(s, DoReleaseRecord(s), id)
  {
    if s.poller.FillStored? || s.poller.Dropping? || s.poller.Releasing? {
      var other := s.poller.rec.sig.id;
      assert other != id;
      OtherCustodyKeepsOrphan(s, DoCountFill(s), other, id);
      OtherCustodyKeepsOrphan(s, DoDropRecord(s), other, id);
      OtherCustodyKeepsOrphan(s, DoReleaseRecord(s), other, id);
    }
  }

  predicate ReservationsStay(s: Sys, s': Sys) {
    s'.custody == s.custody && s.refused <= s'.refused
  }

  lemma QuietPollLeavesReservations(s: Sys, step: PollStep)
    requires !step.CountFill? && !step.DropRecord? && !step.ReleaseRecord? && !step.Decide?
    ensures ReservationsStay(s, ApplyPoll(s, step))
  {
  }

  lemma DecideLeavesReservations(s: Sys, tradeId: string, cancelHonoured: bool)
    ensures ReservationsStay(s, DoDecide(s, tradeId, cancelHonoured))
  {
    DoDecideMoves(s, tradeId, cancelHonoured);
  }

  lemma PollKeepsOrphan(s: Sys, step: PollStep, id: string)
    requires FillInv(s) && CustodyInv(s) && RefusalInv(s) && Orphaned(s, id)
    ensures OrphanKept(s, ApplyPoll(s, step), id)
  {
    match step
    case CountFill => ResolvingKeepsOrphan(s, id);
    case DropRecord => ResolvingKeepsOrphan(s, id);
    case ReleaseRecord => ResolvingKeepsOrphan(s, id);
    case Decide(tradeId, cancelHonoured) => DecideLeavesReservations(s, tradeId, cancelHonoured);
    case _ => QuietPollLeavesReservations(s, step);
  }

  lemma PlacementKeepsOrphan(s: Sys, step: PlacementStep, id: string)
    requires CustodyInv(s) && Orphaned(s, id)
    ensures OrphanKept(s, ApplyPlacement(s, step), id)
  {
  }

  lemma GateKeepsOrphan(g: CT.Group, s: Sys, sig: Signal, id: string)
    requires Orphaned(s, id)
    ensures OrphanKept(s, DoPreview(g, s, sig), id)
  {
    assert DoPreview(g, s, sig) == s.(gate := DoPreview(g, s, sig).gate);
  }

  lemma AdmissionKeepsOrphan(g: CT.Group, s: Sys, step: AdmissionStep, id: string)
    requires CustodyInv(s) && Orphaned(s, id)
    ensures OrphanKept(s, ApplyAdmission(g, s, step), id)
  {
    if step.PreviewSignal? {
      GateKeepsOrphan(g, s, step.sig, id);
    }
  }

  lemma OthersLeaveReservations(s: Sys, b: BrokerStep, m: ManagerStep)
    ensures ReservationsStay(s, ApplyBroker(s, b)) && ReservationsStay(s, ApplyManage(s, m))
  {
    ManageMoves(s, m);
  }

  lemma StepKeepsOrphan(g: CT.Group, s: Sys, step: Step, id: string)
    requires FillInv(s) && CustodyInv(s) && RefusalInv(s) && Orphaned(s, id)
    ensures OrphanKept(s, Apply(g, s, step), id)
  {
    match step
    case Broker(b) => OthersLeaveReservations(s, b, ReadBroker);
    case Admission(a) => AdmissionKeepsOrphan(g, s, a, id);
    case Placement(p) => PlacementKeepsOrphan(s, p, id);
    case Poll(q) => PollKeepsOrphan(s, q, id);
    case Manage(m) => OthersLeaveReservations(s, OrderFills(0), m);
  }

  lemma OrphanOutlastsAStep(g: CT.Group, day: int, maxOpen: nat, steps: seq<Step>, id: string)
    requires steps != [] && Orphaned(Run(g, Start(day, maxOpen), steps[..|steps| - 1]), id)
    ensures OrphanKept(Run(g, Start(day, maxOpen), steps[..|steps| - 1]), Run(g, Start(day, maxOpen), steps), id)
  {
    var front := steps[..|steps| - 1];
    RunKeepsAll(g, day, maxOpen, front);
    RunKeepsRefusalInv(g, day, maxOpen, front);
    StepKeepsOrphan(g, Run(g, Start(day, maxOpen), front), steps[|steps| - 1], id);
  }

  lemma {:induction false} OrphanOutlastsEveryRun(g: CT.Group, day: int, maxOpen: nat, steps: seq<Step>, more: seq<Step>, id: string)
    requires Orphaned(Run(g, Start(day, maxOpen), steps), id)
    ensures OrphanKept(Run(g, Start(day, maxOpen), steps), Run(g, Start(day, maxOpen), steps + more), id)
  {
    if more == [] {
      assert steps + more == steps;
    } else {
      var all := steps + more;
      assert all[..|all| - 1] == steps + more[..|more| - 1];
      OrphanOutlastsEveryRun(g, day, maxOpen, steps, more[..|more| - 1], id);
      OrphanOutlastsAStep(g, day, maxOpen, all, id);
    }
  }

  /** The reservation of a refused clustered fill occupies the cluster for good: whatever follows, its
      signal stays pending. */
  lemma RefusedReservationStaysPending(g: CT.Group, day: int, maxOpen: nat, steps: seq<Step>, more: seq<Step>, id: string)
    requires id in RefusedSignals(Run(g, Start(day, maxOpen), steps))
    ensures id in Run(g, Start(day, maxOpen), steps + more).cluster.pending
  {
    OrphanOutlastsEveryRun(g, day, maxOpen, steps, more, id);
    RunKeepsAll(g, day, maxOpen, steps + more);
  }

  /** At rest the pending ids are exactly the signals of live records if and only if no clustered fill
      was refused. */
  lemma PendingIsRecordsIffNothingRefused(g: CT.Group, day: int, maxOpen: nat, steps: seq<Step>)
    requires Quiescent(Run(g, Start(day, maxOpen), steps))
    ensures var s := Run(g, Start(day, maxOpen), steps);
            s.cluster.pending.Keys == RecordSignals(s) <==> RefusedSignals(s) == {}
  {
    var s := Run(g, Start(day, maxOpen), steps);
    AtRestEverythingAgrees(g, day, maxOpen, steps);
    RunKeepsAll(g, day, maxOpen, steps);
    RunKeepsRefusalInv(g, day, maxOpen, steps);
    forall id | id in RecordSignals(s) ensures id !in RefusedSignals(s) {
      var t :| t in s.records && s.records[t].sig.clustered && s.records[t].sig.id == id;
      assert s.custody[id].place == InRecord(t);
    }
  }
}
