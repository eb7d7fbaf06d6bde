/** No fill is lost in any interleaving of the order protocol (src/execution/engine.py,
    src/positions/pending_manager.py). */
module OrderSafety {
  import opened Basics
  import opened OrderProtocol
  import CT = ClusterTracker

  // ---------- No fill is lost ----------

  predicate Done(orders: map<Ticket, OrderStatus>, t: Ticket) {
    t in orders && (orders[t] == Closed || orders[t] == Cancelled)
  }

  predicate NoLostFill(s: Sys) {
    forall t :: t in s.tracked ==> t in s.records || t in s.traded || t in s.refused || Done(s.orders, t)
  }

  predicate IsRecord(records: map<Ticket, Record>, r: Record) {
    r.ticket in records && records[r.ticket] == r
  }

  predicate TodoOk(records: map<Ticket, Record>, todo: seq<Record>) {
    (forall r :: r in todo ==> IsRecord(records, r)) && DistinctTickets(todo)
  }

  predicate NotResting(orders: map<Ticket, OrderStatus>, t: Ticket) {
    t in orders && orders[t] != Resting
  }

  /** The two snapshots, taken in this order, convict only orders that are over. */
  predicate Justified(orders: map<Ticket, OrderStatus>, view: View) {
    forall r :: r in view.todo && r.ticket !in view.resting && r.ticket !in view.open ==> Done(orders, r.ticket)
  }

  predicate NotIn(t: Ticket, todo: seq<Record>) {
    forall r :: r in todo ==> r.ticket != t
  }

  predicate PollerOk(s: Sys) {
    match s.poller
    case Idle => true
    case HasRecords(todo) => TodoOk(s.records, todo)
    case HasResting(todo, resting) =>
      TodoOk(s.records, todo) && forall r :: r in todo && r.ticket !in resting ==> NotResting(s.orders, r.ticket)
    case AtLoop(view) => TodoOk(s.records, view.todo) && Justified(s.orders, view)
    case FillStored(rec, _, view) =>
      && TodoOk(s.records, view.todo) && Justified(s.orders, view)
      && IsRecord(s.records, rec) && NotIn(rec.ticket, view.todo) && rec.ticket in s.traded
    case FillCounted(rec, view) =>
      && TodoOk(s.records, view.todo) && Justified(s.orders, view)
      && IsRecord(s.records, rec) && NotIn(rec.ticket, view.todo) && rec.ticket in s.traded
    case Dropping(rec, view) =>
      && TodoOk(s.records, view.todo) && Justified(s.orders, view)
      && IsRecord(s.records, rec) && NotIn(rec.ticket, view.todo) && Done(s.orders, rec.ticket)
    case Releasing(rec, view) =>
      && TodoOk(s.records, view.todo) && Justified(s.orders, view)
      && rec.ticket in s.tracked && rec.ticket !in s.records && NotIn(rec.ticket, view.todo)
  }

  predicate RecordsOk(s: Sys) {
    && s.tracked <= s.orders.Keys
    && forall t :: t in s.records ==> t in s.tracked && s.records[t].ticket == t
  }

  predicate AcceptedOk(s: Sys) {
    && (forall id :: id in s.execs && s.execs[id].phase.LimitAccepted? ==>
          s.execs[id].phase.ticket in s.orders && s.execs[id].phase.ticket !in s.tracked)
    && (forall a, b :: a in s.execs && b in s.execs && a != b
                       && s.execs[a].phase.LimitAccepted? && s.execs[b].phase.LimitAccepted? ==>
          s.execs[a].phase.ticket != s.execs[b].phase.ticket)
  }

  ghost predicate FillInv(s: Sys) {
    RecordsOk(s) && AcceptedOk(s) && PollerOk(s) && NoLostFill(s)
  }

  // Nothing the poller or the records depend on changed, beyond new orders and new trades.
  predicate FillFrame(s: Sys, s': Sys) {
    && s'.poller == s.poller && s'.records == s.records && s'.tracked == s.tracked && s.traded <= s'.traded
    && s'.refused == s.refused
    && s.orders.Keys <= s'.orders.Keys && forall t :: t in s.orders ==> s'.orders[t] == s.orders[t]
  }

  lemma FrameKeepsFillInv(s: Sys, s': Sys)
    requires FillInv(s) && FillFrame(s, s')
    ensures RecordsOk(s') && PollerOk(s') && NoLostFill(s')
  {
  }

  lemma BrokerKeepsFillInv(s: Sys, t: Ticket, from: OrderStatus, to: OrderStatus)
    requires FillInv(s)
    requires (from == Resting && (to == Filled || to == Cancelled)) || (from == Filled && to == Closed)
    ensures FillInv(MoveOrder(s, t, from, to))
  {
  }

  lemma TrackKeepsFillInv(s: Sys, id: string, expiryAt: int)
    requires FillInv(s)
    ensures FillInv(DoTrackLimit(s, id, expiryAt))
  {
    if id in s.execs && s.execs[id].phase.LimitAccepted? {
      var t, s' := s.execs[id].phase.ticket, DoTrackLimit(s, id, expiryAt);
      assert t !in s.records;
      assert forall r :: IsRecord(s.records, r) ==> IsRecord(s'.records, r);
    }
  }

  lemma AdmissionFrames(g: CT.Group, s: Sys, step: AdmissionStep)
    ensures FillFrame(s, ApplyAdmission(g, s, step))
  {
    ApplyAdmissionMoves(g, s, step);
  }

  lemma PlacementFrames(s: Sys, step: PlacementStep)
    requires !step.TrackLimit?
    ensures FillFrame(s, ApplyPlacement(s, step))
  {
  }

  // A phase change that accepts no new order keeps the accepted tickets apart.
  lemma PhaseKeepsAccepted(s: Sys, s': Sys)
    requires AcceptedOk(s) && s'.tracked == s.tracked && s.orders.Keys <= s'.orders.Keys
    requires forall id :: id in s'.execs && s'.execs[id].phase.LimitAccepted? ==> id in s.execs && s.execs[id].phase == s'.execs[id].phase
    ensures AcceptedOk(s')
  {
  }

  lemma PlacedKeepsAccepted(s: Sys, id: string, t: Ticket)
    requires AcceptedOk(s) && s.tracked <= s.orders.Keys
    ensures AcceptedOk(DoLimitPlaced(s, id, t))
  {
  }

  predicate Accepted(phase: Phase) {
    phase.LimitAccepted? || phase.MarketAccepted?
  }

  // Every accepted order was accepted before.
  predicate AcceptsNothing(s: Sys, s': Sys) {
    forall id :: id in s'.execs && Accepted(s'.execs[id].phase) ==> id in s.execs && s'.execs[id].phase == s.execs[id].phase
  }

  lemma AdmissionAcceptsNothing(g: CT.Group, s: Sys, step: AdmissionStep)
    ensures AcceptsNothing(s, ApplyAdmission(g, s, step))
  {
    if step.PreviewSignal? {
      GateMoves(g, s, step.sig);
    }
  }

  lemma AdmissionKeepsFillInv(g: CT.Group, s: Sys, step: AdmissionStep)
    requires FillInv(s)
    ensures FillInv(ApplyAdmission(g, s, step))
  {
    AdmissionFrames(g, s, step);
    FrameKeepsFillInv(s, ApplyAdmission(g, s, step));
    AdmissionAcceptsNothing(g, s, step);
    PhaseKeepsAccepted(s, ApplyAdmission(g, s, step));
  }

  lemma PlacementKeepsFillInv(s: Sys, step: PlacementStep)
    requires FillInv(s)
    ensures FillInv(ApplyPlacement(s, step))
  {
    if step.TrackLimit? {
      TrackKeepsFillInv(s, step.id, step.expiryAt);
    } else {
      PlacementFrames(s, step);
      FrameKeepsFillInv(s, ApplyPlacement(s, step));
      if step.LimitPlaced? {
        PlacedKeepsAccepted(s, step.id, step.ticket);
      } else {
        PhaseKeepsAccepted(s, ApplyPlacement(s, step));
      }
    }
  }

  // A poller step that moves only the poller only has to leave the poller right.
  lemma PollerAloneKeepsFillInv(s: Sys, s': Sys)
    requires FillInv(s) && s' == s.(poller := s'.poller) && PollerOk(s')
    ensures FillInv(s')
  {
  }

  lemma ReadRecordsKeepsFillInv(s: Sys, todo: seq<Record>)
    requires FillInv(s)
    ensures FillInv(DoReadRecords(s, todo))
  {
    PollerAloneKeepsFillInv(s, DoReadRecords(s, todo));
  }

  lemma ReadRestingKeepsFillInv(s: Sys)
    requires FillInv(s)
    ensures FillInv(DoReadResting(s)) && FillInv(DoFetchFails(s))
  {
    PollerAloneKeepsFillInv(s, DoReadResting(s));
    PollerAloneKeepsFillInv(s, DoFetchFails(s));
  }

  lemma ReadPositionsKeepsFillInv(s: Sys, now: int)
    requires FillInv(s)
    ensures FillInv(DoReadPositions(s, now))
  {
    PollerAloneKeepsFillInv(s, DoReadPositions(s, now));
  }

  lemma ResolutionsKeepFillInv(s: Sys)
    requires FillInv(s)
    ensures FillInv(DoCountFill(s)) && FillInv(DoReleaseRecord(s))
  {
  }

  lemma RestOk(s: Sys, view: View)
    requires view.todo != [] && TodoOk(s.records, view.todo) && Justified(s.orders, view)
    ensures var rest := view.(todo := view.todo[1..]);
            && TodoOk(s.records, rest.todo) && Justified(s.orders, rest)
            && IsRecord(s.records, view.todo[0]) && NotIn(view.todo[0].ticket, rest.todo)
            && (view.todo[0].ticket !in view.resting && view.todo[0].ticket !in view.open ==> Done(s.orders, view.todo[0].ticket))
  {
    assert view.todo[0] in view.todo;
    assert forall r :: r in view.todo[1..] ==> r in view.todo;
  }

  lemma CancelKeepsJustified(orders: map<Ticket, OrderStatus>, view: View, t: Ticket)
    requires Justified(orders, view)
    ensures Justified(orders[t := Cancelled], view)
  {
  }

  lemma FillKeepsFillInv(s: Sys, rec: Record, rest: View, tradeId: string)
    requires FillInv(s) && s.poller.AtLoop? && TodoOk(s.records, rest.todo) && Justified(s.orders, rest)
    requires IsRecord(s.records, rec) && NotIn(rec.ticket, rest.todo)
    ensures FillInv(HandleFill(s, rec, rest, tradeId))
  {
  }

  lemma ExpiryKeepsFillInv(s: Sys, rec: Record, rest: View, cancelHonoured: bool)
    requires FillInv(s) && s.poller.AtLoop? && TodoOk(s.records, rest.todo) && Justified(s.orders, rest)
    requires IsRecord(s.records, rec) && NotIn(rec.ticket, rest.todo)
    ensures FillInv(HandleOurExpiry(s, rec, rest, cancelHonoured))
  {
    CancelKeepsJustified(s.orders, rest, rec.ticket);
  }

  lemma DecideKeepsFillInv(s: Sys, tradeId: string, cancelHonoured: bool)
    requires FillInv(s)
    ensures FillInv(DoDecide(s, tradeId, cancelHonoured))
  {
    if s.poller.AtLoop? && s.poller.view.todo != [] {
      var view := s.poller.view;
      var rec, rest := view.todo[0], view.(todo := view.todo[1..]);
      RestOk(s, view);
      if rec.ticket in view.open {
        FillKeepsFillInv(s, rec, rest, tradeId);
      } else if rec.ticket !in view.resting {
        PollerAloneKeepsFillInv(s, HandleVanished(s, rec, rest));
      } else {
        ExpiryKeepsFillInv(s, rec, rest, cancelHonoured);
        PollerAloneKeepsFillInv(s, s.(poller := AtLoop(rest)));
      }
    }
  }

  lemma RefusalKeepsFillInv(s: Sys)
    requires FillInv(s)
    ensures FillInv(DoStoreFails(s))
  {
    if DoStoreFails(s) != s {
      RestOk(s, s.poller.view);
    }
  }

  lemma DropFilledKeepsFillInv(s: Sys)
    requires FillInv(s)
    ensures FillInv(DoDropFilled(s))
  {
  }

  lemma DropRecordKeepsFillInv(s: Sys)
    requires FillInv(s)
    ensures FillInv(DoDropRecord(s))
  {
  }

  lemma PollKeepsFillInv(s: Sys, step: PollStep)
    requires FillInv(s)
    ensures FillInv(ApplyPoll(s, step))
  {
    match step {
      case ReadRecords(todo) => ReadRecordsKeepsFillInv(s, todo);
      case ReadResting => ReadRestingKeepsFillInv(s);
      case ReadPositions(now) => ReadPositionsKeepsFillInv(s, now);
      case FetchFails => ReadRestingKeepsFillInv(s);
      case Decide(tradeId, cancelHonoured) => DecideKeepsFillInv(s, tradeId, cancelHonoured);
      case StoreFails => RefusalKeepsFillInv(s);
      case CountFill => ResolutionsKeepFillInv(s);
      case DropFilled => DropFilledKeepsFillInv(s);
      case DropRecord => DropRecordKeepsFillInv(s);
      case ReleaseRecord => ResolutionsKeepFillInv(s);
    }
  }

  lemma ManageFrames(s: Sys, step: ManagerStep)
    ensures FillFrame(s, ApplyManage(s, step)) && ApplyManage(s, step).execs == s.execs
  {
    ManageMoves(s, step);
  }

  lemma StepKeepsFillInv(g: CT.Group, s: Sys, step: Step)
    requires FillInv(s)
    ensures FillInv(Apply(g, s, step))
  {
    match step {
      case Broker(OrderFills(t)) => BrokerKeepsFillInv(s, t, Resting, Filled);
      case Broker(PositionCloses(t)) => BrokerKeepsFillInv(s, t, Filled, Closed);
      case Broker(OrderCancelled(t)) => BrokerKeepsFillInv(s, t, Resting, Cancelled);
      case Admission(a) => AdmissionKeepsFillInv(g, s, a);
      case Placement(p) => PlacementKeepsFillInv(s, p);
      case Poll(q) => PollKeepsFillInv(s, q);
      case Manage(m) =>
        ManageFrames(s, m);
        FrameKeepsFillInv(s, ApplyManage(s, m));
    }
  }

  lemma {:induction false} RunKeepsFillInv(g: CT.Group, day: int, maxOpen: nat, steps: seq<Step>)
    ensures FillInv(Run(g, Start(day, maxOpen), steps))
  {
    if steps != [] {
      var front := steps[..|steps| - 1];
      RunKeepsFillInv(g, day, maxOpen, front);
      StepKeepsFillInv(g, Run(g, Start(day, maxOpen), front), steps[|steps| - 1]);
    }
  }

  /** No fill is lost: in every interleaving of broker, executions and poll steps, each ticket ever
      tracked still has its record, or got a trade, or is already over at the broker, or had its trade
      refused by the store. */
  lemma NoFillIsLost(g: CT.Group, day: int, maxOpen: nat, steps: seq<Step>, t: Ticket)
    requires t in Run(g, Start(day, maxOpen), steps).tracked
    ensures var s := Run(g, Start(day, maxOpen), steps);
            t in s.records || t in s.traded || Done(s.orders, t) || t in s.refused
  {
    RunKeepsFillInv(g, day, maxOpen, steps);
  }

  /** Reading positions before pending orders would convict an order that filled in between. */
  lemma ReversedReadsWouldConvictAFill(orders: map<Ticket, OrderStatus>, t: Ticket)
    requires t in orders && orders[t] == Resting
    ensures var open := TicketsAt(orders, Filled);
            var later := orders[t := Filled];
            var resting := TicketsAt(later, Resting);
            t !in open && t !in resting && !Done(later, t)
  {
  }
}
