/** Every reservation `execute` makes is resolved exactly once, and at rest the cluster, the pending
    records and the engine's own bookkeeping agree (src/execution/engine.py:282-383,
    src/positions/pending_manager.py:201-304). */
module Conservation {
  import opened Basics
  import opened OrderProtocol
  import opened OrderSafety
  import EngineSlots
  import CT = ClusterTracker

  // ---------- Who answers for each reservation ----------

  /** The phases in which the running `execute` still answers for the cluster reservation. */
  predicate ExecHolds(phase: Phase) {
    !phase.LimitTracked? && !phase.TradeCounted?
  }

  predicate Holding(place: Place) {
    place.InExecute? || place.InRecord? || place.InRelease?
  }

  /** The record whose fill is already counted but which is not yet dropped. */
  predicate AlreadyCounted(s: Sys, t: Ticket) {
    s.poller.FillCounted? && s.poller.rec.ticket == t
  }

  predicate ExecCustody(s: Sys) {
    && (forall id :: id in s.execs ==>
          && s.execs[id].sig.id == id
          && id in s.custody && s.custody[id].sig == s.execs[id].sig
          && (ExecHolds(s.execs[id].phase) ==> s.custody[id].place == InExecute))
    && (forall id :: id in s.custody ==>
          && s.custody[id].sig.id == id
          && (s.custody[id].place == InExecute ==> id in s.execs && ExecHolds(s.execs[id].phase)))
    && (s.gate.Previewed? ==> s.gate.sig.id !in s.custody)
  }

  predicate RecordCustody(s: Sys) {
    && (forall t :: t in s.records ==>
          var sig := s.records[t].sig;
          && sig.id in s.custody && s.custody[sig.id].sig == sig
          && (s.custody[sig.id].place == InRecord(t) || AlreadyCounted(s, t)))
    && (forall id :: id in s.custody && s.custody[id].place.InRecord? ==>
          var t := s.custody[id].place.ticket;
          t in s.refused || (t in s.records && s.records[t].sig.id == id && !AlreadyCounted(s, t)))
  }

  predicate PollerCustody(s: Sys) {
    && (s.poller.FillCounted? ==>
          && s.poller.rec.sig.id in s.custody && s.custody[s.poller.rec.sig.id].place == OpenedTrade)
    && (s.poller.Releasing? ==>
          && s.poller.rec.sig.id in s.custody
          && s.custody[s.poller.rec.sig.id] == Custody(s.poller.rec.sig, InRelease(s.poller.rec.ticket)))
    && (forall id :: id in s.custody && s.custody[id].place.InRelease? ==>
          s.poller.Releasing? && s.poller.rec.sig.id == id)
  }

  /** The cluster's pending ids are exactly the clustered reservations somebody still answers for. */
  ghost predicate PendingMatches(s: Sys) {
    forall id :: id in s.cluster.pending <==>
                 id in s.custody && s.custody[id].sig.clustered && Holding(s.custody[id].place)
  }

  predicate LogMatches(s: Sys) {
    && (forall i, j :: 0 <= i < j < |s.log| ==> s.log[i].id != s.log[j].id)
    && (forall r :: r in s.log ==>
          r.id in s.custody && s.custody[r.id].place == if r.becameOpen then OpenedTrade else ReleasedUnused)
    && (forall id :: id in s.custody && !Holding(s.custody[id].place) ==>
          Resolution(id, s.custody[id].place == OpenedTrade) in s.log)
  }

  ghost predicate CustodyInv(s: Sys) {
    ExecCustody(s) && RecordCustody(s) && PollerCustody(s) && PendingMatches(s) && LogMatches(s)
  }

  // ---------- Every step keeps custody ----------

  // Steps that touch no reservation.
  ghost predicate CustodyFrame(s: Sys, s': Sys) {
    && s'.custody == s.custody && s'.log == s.log && s'.records == s.records && s'.refused == s.refused
    && s'.cluster.pending == s.cluster.pending && s'.gate == s.gate
    && (s'.poller == s.poller || (!s.poller.FillCounted? && !s.poller.Releasing? && !s'.poller.FillCounted? && !s'.poller.Releasing?))
    && s'.execs.Keys == s.execs.Keys
    && forall id :: id in s.execs ==> s'.execs[id].sig == s.execs[id].sig
                                      && ExecHolds(s'.execs[id].phase) == ExecHolds(s.execs[id].phase)
  }

  lemma FrameKeepsCustody(s: Sys, s': Sys)
    requires CustodyInv(s) && CustodyFrame(s, s')
    ensures CustodyInv(s')
  {
  }

  lemma MoveOrderKeepsCustody(s: Sys, t: Ticket, from: OrderStatus, to: OrderStatus)
    requires CustodyInv(s)
    ensures CustodyInv(MoveOrder(s, t, from, to))
  {
    FrameKeepsCustody(s, MoveOrder(s, t, from, to));
  }

  lemma FailFreesSlotFrames(s: Sys, id: string)
    ensures CustodyFrame(s, DoFailFreesSlot(s, id))
  {
  }

  lemma FailFreesSlotKeepsCustody(s: Sys, id: string)
    requires CustodyInv(s)
    ensures CustodyInv(DoFailFreesSlot(s, id))
  {
    FailFreesSlotFrames(s, id);
    FrameKeepsCustody(s, DoFailFreesSlot(s, id));
  }

  // An execution moves on while it keeps holding its reservation.
  lemma PhaseAloneKeepsCustody(s: Sys, s': Sys, id: string)
    requires CustodyInv(s) && id in s.execs && id in s'.execs && ExecHolds(s.execs[id].phase) && ExecHolds(s'.execs[id].phase)
    requires s'.execs == s.execs[id := s.execs[id].(phase := s'.execs[id].phase)]
    requires s' == s.(orders := s'.orders, execs := s'.execs)
    ensures CustodyInv(s')
  {
    FrameKeepsCustody(s, s');
  }

  lemma LimitPlacedKeepsCustody(s: Sys, id: string, t: Ticket)
    requires CustodyInv(s)
    ensures CustodyInv(DoLimitPlaced(s, id, t))
  {
    if At(s, id, Admitted) && t !in s.orders {
      PhaseAloneKeepsCustody(s, DoLimitPlaced(s, id, t), id);
    }
  }

  lemma MarketFilledKeepsCustody(s: Sys, id: string, t: Ticket)
    requires CustodyInv(s)
    ensures CustodyInv(DoMarketFilled(s, id, t))
  {
    if At(s, id, Admitted) && t !in s.orders {
      PhaseAloneKeepsCustody(s, DoMarketFilled(s, id, t), id);
    }
  }

  lemma StoringFrames(s: Sys, id: string, tradeId: string)
    ensures CustodyFrame(s, DoStoreTrade(s, id, tradeId))
  {
  }

  lemma LostTrackingFrames(s: Sys, id: string, tradeId: string)
    ensures CustodyFrame(s, DoTrackingFails(s, id, tradeId))
  {
  }

  lemma StoreTradeKeepsCustody(s: Sys, id: string, tradeId: string)
    requires CustodyInv(s)
    ensures CustodyInv(DoStoreTrade(s, id, tradeId)) && CustodyInv(DoTrackingFails(s, id, tradeId))
  {
    StoringFrames(s, id, tradeId);
    LostTrackingFrames(s, id, tradeId);
    FrameKeepsCustody(s, DoStoreTrade(s, id, tradeId));
    FrameKeepsCustody(s, DoTrackingFails(s, id, tradeId));
  }

  // A step that moves only the poller, between states in which it holds no reservation.
  lemma PollerAloneKeepsCustody(s: Sys, s': Sys)
    requires CustodyInv(s) && s' == s.(poller := s'.poller)
    requires s'.poller == s.poller || (!s.poller.FillCounted? && !s.poller.Releasing? && !s'.poller.FillCounted? && !s'.poller.Releasing?)
    ensures CustodyInv(s')
  {
    FrameKeepsCustody(s, s');
  }

  lemma FillFrames(s: Sys, rec: Record, rest: View, tradeId: string)
    requires s.poller.AtLoop?
    ensures CustodyFrame(s, HandleFill(s, rec, rest, tradeId))
  {
  }

  lemma HandlersFrame(s: Sys, rec: Record, rest: View, cancelHonoured: bool)
    requires s.poller.AtLoop?
    ensures CustodyFrame(s, HandleOurExpiry(s, rec, rest, cancelHonoured))
    ensures CustodyFrame(s, HandleVanished(s, rec, rest))
    ensures CustodyFrame(s, s.(poller := AtLoop(rest))) && CustodyFrame(s, s.(poller := Idle))
  {
  }

  lemma DecideFrames(s: Sys, tradeId: string, cancelHonoured: bool)
    ensures CustodyFrame(s, DoDecide(s, tradeId, cancelHonoured))
  {
    if s.poller.AtLoop? {
      var view := s.poller.view;
      var rec := if view.todo == [] then Record(0, Signal("", "", false), 0) else view.todo[0];
      var rest := if view.todo == [] then view else view.(todo := view.todo[1..]);
      FillFrames(s, rec, rest, tradeId);
      HandlersFrame(s, rec, rest, cancelHonoured);
    }
  }

  lemma DecideKeepsCustody(s: Sys, tradeId: string, cancelHonoured: bool)
    requires CustodyInv(s)
    ensures CustodyInv(DoDecide(s, tradeId, cancelHonoured))
  {
    DecideFrames(s, tradeId, cancelHonoured);
    FrameKeepsCustody(s, DoDecide(s, tradeId, cancelHonoured));
  }

  lemma ManageFrames(s: Sys, step: ManagerStep)
    ensures CustodyFrame(s, ApplyManage(s, step))
  {
    ManageMoves(s, step);
  }

  lemma ManageKeepsCustody(s: Sys, step: ManagerStep)
    requires CustodyInv(s)
    ensures CustodyInv(ApplyManage(s, step))
  {
    ManageFrames(s, step);
    FrameKeepsCustody(s, ApplyManage(s, step));
  }

  lemma GateAloneKeepsCustody(s: Sys, s': Sys)
    requires CustodyInv(s) && s' == s.(gate := s'.gate)
    requires s'.gate.Previewed? ==> s'.gate.sig.id !in s.custody
    ensures CustodyInv(s')
  {
  }

  lemma PreviewKeepsCustody(g: CT.Group, s: Sys, sig: Signal)
    requires CustodyInv(s)
    ensures CustodyInv(DoPreview(g, s, sig))
  {
    if DoPreview(g, s, sig) != s {
      GateAloneKeepsCustody(s, DoPreview(g, s, sig));
    }
  }

  // Handing a reservation from one holder to another resolves nothing.
  lemma HandOverKeepsLog(s: Sys, s': Sys, sig: Signal, place: Place)
    requires LogMatches(s) && s'.log == s.log
    requires s'.custody == HandTo(s, sig.id, sig, place) && Holding(place)
    requires sig.id in s.custody ==> Holding(s.custody[sig.id].place)
    ensures LogMatches(s')
  {
  }

  lemma AdmitKeepsExecCustody(s: Sys)
    requires CustodyInv(s) && s.gate.Previewed?
    ensures ExecCustody(DoAdmit(s))
  {
  }

  lemma AdmitKeepsHolders(s: Sys)
    requires CustodyInv(s) && s.gate.Previewed?
    ensures RecordCustody(DoAdmit(s)) && PollerCustody(DoAdmit(s))
  {
    var sig, s' := s.gate.sig, DoAdmit(s);
    assert forall id :: id in s'.custody <==> id in s.custody || id == sig.id;
    assert forall id :: id in s.custody ==> s'.custody[id] == s.custody[id];
  }

  lemma AdmitKeepsAccounts(s: Sys)
    requires CustodyInv(s) && s.gate.Previewed?
    ensures PendingMatches(DoAdmit(s)) && LogMatches(DoAdmit(s))
  {
    var sig, s' := s.gate.sig, DoAdmit(s);
    HandOverKeepsLog(s, s', sig, InExecute);
    assert s'.cluster.pending.Keys == s.cluster.pending.Keys + if sig.clustered then {sig.id} else {};
  }

  lemma AdmitKeepsCustody(s: Sys)
    requires CustodyInv(s)
    ensures CustodyInv(DoAdmit(s))
  {
    if s.gate.Previewed? {
      AdmitKeepsExecCustody(s);
      AdmitKeepsHolders(s);
      AdmitKeepsAccounts(s);
    }
  }

  lemma FreeSlotKeepsCustody(s: Sys, id: string, phase: Phase)
    requires CustodyInv(s) && !ExecHolds(phase)
    ensures CustodyInv(DoFreeSlot(s, id, phase))
  {
  }

  // Handing a reservation over moves its place and nothing else.
  predicate HandedOver(s: Sys, s': Sys, sig: Signal, place: Place) {
    && s'.custody == HandTo(s, sig.id, sig, place) && Holding(place)
    && sig.id in s.custody && s.custody[sig.id].sig == sig && Holding(s.custody[sig.id].place)
    && s'.cluster == s.cluster && s'.log == s.log && s'.gate == s.gate
  }

  lemma HandOverKeepsAccounts(s: Sys, s': Sys, sig: Signal, place: Place)
    requires PendingMatches(s) && LogMatches(s) && HandedOver(s, s', sig, place)
    ensures PendingMatches(s') && LogMatches(s')
  {
    HandOverKeepsLog(s, s', sig, place);
  }

  lemma TrackKeepsExecCustody(s: Sys, id: string, expiryAt: int)
    requires CustodyInv(s) && id in s.execs && s.execs[id].phase.LimitAccepted?
    ensures ExecCustody(DoTrackLimit(s, id, expiryAt)) && PollerCustody(DoTrackLimit(s, id, expiryAt))
  {
  }

  lemma TrackKeepsRecordCustody(s: Sys, id: string, expiryAt: int)
    requires FillInv(s) && CustodyInv(s) && id in s.execs && s.execs[id].phase.LimitAccepted?
    ensures RecordCustody(DoTrackLimit(s, id, expiryAt))
  {
    var t := s.execs[id].phase.ticket;
    assert t !in s.records && !AlreadyCounted(s, t);
    assert s.custody[id].place == InExecute;
  }

  lemma TrackKeepsCustody(s: Sys, id: string, expiryAt: int)
    requires FillInv(s) && CustodyInv(s)
    ensures CustodyInv(DoTrackLimit(s, id, expiryAt))
  {
    if id in s.execs && s.execs[id].phase.LimitAccepted? {
      TrackKeepsExecCustody(s, id, expiryAt);
      TrackKeepsRecordCustody(s, id, expiryAt);
      HandOverKeepsAccounts(s, DoTrackLimit(s, id, expiryAt), s.execs[id].sig, InRecord(s.execs[id].phase.ticket));
    }
  }

  // Appending the resolution of a reservation still held.
  lemma ResolveKeepsLog(s: Sys, s': Sys, sig: Signal, becameOpen: bool)
    requires LogMatches(s) && sig.id in s.custody && Holding(s.custody[sig.id].place)
    requires s'.log == s.log + [Resolution(sig.id, becameOpen)]
    requires s'.custody == HandTo(s, sig.id, sig, if becameOpen then OpenedTrade else ReleasedUnused)
    ensures LogMatches(s')
  {
  }

  // A resolution takes the reservation off the pending list and writes it into the log.
  lemma ResolveKeepsAccounts(s: Sys, s': Sys, sig: Signal, becameOpen: bool)
    requires PendingMatches(s) && LogMatches(s) && sig.id in s.custody && s.custody[sig.id].sig == sig
    requires Holding(s.custody[sig.id].place)
    requires s'.log == s.log + [Resolution(sig.id, becameOpen)]
    requires s'.custody == HandTo(s, sig.id, sig, if becameOpen then OpenedTrade else ReleasedUnused)
    requires s'.cluster.pending == if sig.clustered then s.cluster.pending - {sig.id} else s.cluster.pending
    ensures PendingMatches(s') && LogMatches(s')
  {
    ResolveKeepsLog(s, s', sig, becameOpen);
  }

  lemma FailReleaseKeepsCustody(s: Sys, id: string)
    requires CustodyInv(s)
    ensures CustodyInv(DoFailReleases(s, id))
  {
    if At(s, id, SlotFreed) {
      ResolveKeepsLog(s, DoFailReleases(s, id), s.execs[id].sig, false);
    }
  }

  lemma CountTradeKeepsHolders(s: Sys, id: string)
    requires CustodyInv(s) && id in s.execs && s.execs[id].phase.TradeStored?
    ensures ExecCustody(DoCountTrade(s, id)) && RecordCustody(DoCountTrade(s, id)) && PollerCustody(DoCountTrade(s, id))
  {
    assert s.custody[id].place == InExecute;
  }

  lemma CountTradeKeepsCustody(s: Sys, id: string)
    requires CustodyInv(s)
    ensures CustodyInv(DoCountTrade(s, id))
  {
    if id in s.execs && s.execs[id].phase.TradeStored? {
      CountTradeKeepsHolders(s, id);
      ResolveKeepsAccounts(s, DoCountTrade(s, id), s.execs[id].sig, true);
    }
  }

  lemma CountFillKeepsExecCustody(s: Sys)
    requires FillInv(s) && CustodyInv(s) && s.poller.FillStored?
    ensures ExecCustody(DoCountFill(s)) && PollerCustody(DoCountFill(s))
  {
    assert s.custody[s.poller.rec.sig.id] == Custody(s.poller.rec.sig, InRecord(s.poller.rec.ticket));
  }

  lemma CountFillKeepsRecordCustody(s: Sys)
    requires FillInv(s) && CustodyInv(s) && s.poller.FillStored?
    ensures RecordCustody(DoCountFill(s))
  {
    assert s.custody[s.poller.rec.sig.id] == Custody(s.poller.rec.sig, InRecord(s.poller.rec.ticket));
  }

  lemma CountFillKeepsCustody(s: Sys)
    requires FillInv(s) && CustodyInv(s)
    ensures CustodyInv(DoCountFill(s))
  {
    if s.poller.FillStored? {
      assert s.custody[s.poller.rec.sig.id] == Custody(s.poller.rec.sig, InRecord(s.poller.rec.ticket));
      CountFillKeepsExecCustody(s);
      CountFillKeepsRecordCustody(s);
      ResolveKeepsAccounts(s, DoCountFill(s), s.poller.rec.sig, true);
    }
  }

  /** A refused fill keeps its reservation: nobody is left to resolve it. */
  lemma RefusalKeepsCustody(s: Sys)
    requires CustodyInv(s)
    ensures CustodyInv(DoStoreFails(s))
  {
  }

  lemma DropFilledKeepsCustody(s: Sys)
    requires FillInv(s) && CustodyInv(s)
    ensures CustodyInv(DoDropFilled(s))
  {
  }

  lemma DropRecordKeepsExecCustody(s: Sys)
    requires FillInv(s) && CustodyInv(s) && s.poller.Dropping?
    ensures ExecCustody(DoDropRecord(s))
  {
    var rec := s.poller.rec;
    assert s.custody[rec.sig.id] == Custody(rec.sig, InRecord(rec.ticket));
  }

  lemma DropRecordKeepsPollerCustody(s: Sys)
    requires CustodyInv(s) && s.poller.Dropping?
    ensures PollerCustody(DoDropRecord(s))
  {
  }

  lemma DropRecordKeepsRecordCustody(s: Sys)
    requires FillInv(s) && CustodyInv(s) && s.poller.Dropping?
    ensures RecordCustody(DoDropRecord(s))
  {
    var rec := s.poller.rec;
    assert s.custody[rec.sig.id] == Custody(rec.sig, InRecord(rec.ticket));
  }

  lemma DropRecordKeepsAccounts(s: Sys)
    requires FillInv(s) && CustodyInv(s) && s.poller.Dropping?
    ensures PendingMatches(DoDropRecord(s)) && LogMatches(DoDropRecord(s))
  {
    var rec := s.poller.rec;
    assert s.custody[rec.sig.id] == Custody(rec.sig, InRecord(rec.ticket));
    HandOverKeepsAccounts(s, DoDropRecord(s), rec.sig, InRelease(rec.ticket));
  }

  lemma DropRecordKeepsCustody(s: Sys)
    requires FillInv(s) && CustodyInv(s)
    ensures CustodyInv(DoDropRecord(s))
  {
    if s.poller.Dropping? {
      DropRecordKeepsExecCustody(s);
      DropRecordKeepsPollerCustody(s);
      DropRecordKeepsRecordCustody(s);
      DropRecordKeepsAccounts(s);
    }
  }

  lemma ReleaseRecordKeepsHolders(s: Sys)
    requires CustodyInv(s) && s.poller.Releasing?
    ensures ExecCustody(DoReleaseRecord(s)) && RecordCustody(DoReleaseRecord(s)) && PollerCustody(DoReleaseRecord(s))
  {
  }

  lemma ReleaseRecordKeepsCustody(s: Sys)
    requires FillInv(s) && CustodyInv(s)
    ensures CustodyInv(DoReleaseRecord(s))
  {
    if s.poller.Releasing? {
      ReleaseRecordKeepsHolders(s);
      ResolveKeepsAccounts(s, DoReleaseRecord(s), s.poller.rec.sig, false);
    }
  }

  lemma AdmissionKeepsCustody(g: CT.Group, s: Sys, step: AdmissionStep)
    requires CustodyInv(s)
    ensures CustodyInv(ApplyAdmission(g, s, step))
  {
    match step {
      case PreviewSignal(sig) => PreviewKeepsCustody(g, s, sig);
      case RefuseSignal => GateAloneKeepsCustody(s, s.(gate := Unlocked));
      case AdmitSignal => AdmitKeepsCustody(s);
      case FailFreesSlot(id) => FailFreesSlotKeepsCustody(s, id);
      case FailReleases(id) => FailReleaseKeepsCustody(s, id);
    }
  }

  lemma PlacementKeepsCustody(s: Sys, step: PlacementStep)
    requires FillInv(s) && CustodyInv(s)
    ensures CustodyInv(ApplyPlacement(s, step))
  {
    match step {
      case LimitPlaced(id, t) => LimitPlacedKeepsCustody(s, id, t);
      case TrackLimit(id, expiryAt) => TrackKeepsCustody(s, id, expiryAt);
      case LimitFreesSlot(id) => FreeSlotKeepsCustody(s, id, LimitTracked);
      case MarketFilled(id, t) => MarketFilledKeepsCustody(s, id, t);
      case StoreTrade(id, tradeId) => StoreTradeKeepsCustody(s, id, tradeId);
      case TrackingFails(id, tradeId) => StoreTradeKeepsCustody(s, id, tradeId);
      case CountTrade(id) => CountTradeKeepsCustody(s, id);
      case MarketFreesSlot(id) => FreeSlotKeepsCustody(s, id, TradeCounted);
    }
  }

  lemma PollKeepsCustody(s: Sys, step: PollStep)
    requires FillInv(s) && CustodyInv(s)
    ensures CustodyInv(ApplyPoll(s, step))
  {
    match step {
      case ReadRecords(todo) => PollerAloneKeepsCustody(s, DoReadRecords(s, todo));
      case ReadResting => PollerAloneKeepsCustody(s, DoReadResting(s));
      case ReadPositions(now) => PollerAloneKeepsCustody(s, DoReadPositions(s, now));
      case FetchFails => PollerAloneKeepsCustody(s, DoFetchFails(s));
      case Decide(tradeId, cancelHonoured) => DecideKeepsCustody(s, tradeId, cancelHonoured);
      case StoreFails => RefusalKeepsCustody(s);
      case CountFill => CountFillKeepsCustody(s);
      case DropFilled => DropFilledKeepsCustody(s);
      case DropRecord => DropRecordKeepsCustody(s);
      case ReleaseRecord => ReleaseRecordKeepsCustody(s);
    }
  }

  lemma StepKeepsCustody(g: CT.Group, s: Sys, step: Step)
    requires FillInv(s) && CustodyInv(s)
    ensures CustodyInv(Apply(g, s, step))
  {
    match step {
      case Broker(OrderFills(t)) => MoveOrderKeepsCustody(s, t, Resting, Filled);
      case Broker(PositionCloses(t)) => MoveOrderKeepsCustody(s, t, Filled, Closed);
      case Broker(OrderCancelled(t)) => MoveOrderKeepsCustody(s, t, Resting, Cancelled);
      case Admission(a) => AdmissionKeepsCustody(g, s, a);
      case Placement(p) => PlacementKeepsCustody(s, p);
      case Poll(q) => PollKeepsCustody(s, q);
      case Manage(m) => ManageKeepsCustody(s, m);
    }
  }

  // ---------- The engine's own bookkeeping ----------

  predicate HoldsSlot(phase: Phase) {
    !phase.SlotFreed?
  }

  function SlotHolders(execs: map<string, Exec>, symbol: string): set<string> {
    set id | id in execs && HoldsSlot(execs[id].phase) && execs[id].sig.symbol == symbol
  }

  ghost predicate SlotInv(s: Sys) {
    && (forall id :: id in s.slots.ids <==> id in s.execs && HoldsSlot(s.execs[id].phase))
    && (forall symbol :: EngineSlots.CountOf(s.slots.counts, symbol) == |SlotHolders(s.execs, symbol)|)
    && (forall symbol :: symbol in s.slots.counts ==> s.slots.counts[symbol] > 0)
  }

  lemma SlotGained(execs: map<string, Exec>, exec: Exec, symbol: string)
    requires exec.sig.id !in execs && HoldsSlot(exec.phase)
    ensures |SlotHolders(execs[exec.sig.id := exec], symbol)| == |SlotHolders(execs, symbol)| + if exec.sig.symbol == symbol then 1 else 0
  {
    var after := SlotHolders(execs[exec.sig.id := exec], symbol);
    if exec.sig.symbol == symbol {
      assert after == SlotHolders(execs, symbol) + {exec.sig.id};
    } else {
      assert after == SlotHolders(execs, symbol);
    }
  }

  // `execs'` is `execs` with the slot of `id` given back.
  lemma SlotLost(execs: map<string, Exec>, execs': map<string, Exec>, id: string, symbol: string)
    requires id in execs && HoldsSlot(execs[id].phase)
    requires id in execs' ==> !HoldsSlot(execs'[id].phase)
    requires forall j :: j != id ==> (j in execs <==> j in execs') && (j in execs ==> execs'[j] == execs[j])
    ensures |SlotHolders(execs', symbol)| == |SlotHolders(execs, symbol)| - if execs[id].sig.symbol == symbol then 1 else 0
  {
    if execs[id].sig.symbol == symbol {
      assert id in SlotHolders(execs, symbol);
      assert SlotHolders(execs', symbol) == SlotHolders(execs, symbol) - {id};
    } else {
      assert SlotHolders(execs', symbol) == SlotHolders(execs, symbol);
    }
  }

  lemma ReleaseKeepsSlotInv(s: Sys, s': Sys, id: string)
    requires SlotInv(s) && id in s.execs && HoldsSlot(s.execs[id].phase)
    requires s'.slots == EngineSlots.Release(s.slots, s.execs[id].sig.symbol, id)
    requires id in s'.execs ==> !HoldsSlot(s'.execs[id].phase)
    requires forall j :: j != id ==> (j in s.execs <==> j in s'.execs) && (j in s.execs ==> s'.execs[j] == s.execs[j])
    ensures SlotInv(s')
  {
    forall symbol
      ensures |SlotHolders(s'.execs, symbol)| == |SlotHolders(s.execs, symbol)| - if s.execs[id].sig.symbol == symbol then 1 else 0
    {
      SlotLost(s.execs, s'.execs, id, symbol);
    }
  }

  // Steps that neither take nor give back a slot.
  ghost predicate SlotFrame(s: Sys, s': Sys) {
    && s'.slots == s.slots
    && (forall id :: (id in s.execs && HoldsSlot(s.execs[id].phase)) <==> (id in s'.execs && HoldsSlot(s'.execs[id].phase)))
    && (forall id :: id in s.execs && id in s'.execs ==> s'.execs[id].sig == s.execs[id].sig)
  }

  lemma FrameKeepsSlotInv(s: Sys, s': Sys)
    requires SlotInv(s) && SlotFrame(s, s')
    ensures SlotInv(s')
  {
    forall symbol
      ensures SlotHolders(s'.execs, symbol) == SlotHolders(s.execs, symbol)
    {
    }
  }

  lemma SameSlotsKeepSlotInv(s: Sys, s': Sys)
    requires SlotInv(s) && SameSlots(s, s')
    ensures SlotInv(s')
  {
  }

  lemma GateFramesSlots(g: CT.Group, s: Sys, sig: Signal)
    ensures SlotFrame(s, DoPreview(g, s, sig)) && SlotFrame(s, s.(gate := Unlocked))
  {
    assert DoPreview(g, s, sig).slots == s.slots && DoPreview(g, s, sig).execs == s.execs;
  }

  lemma DecisionsFrameSlots(g: CT.Group, s: Sys, sig: Signal, id: string)
    ensures SlotFrame(s, DoPreview(g, s, sig)) && SlotFrame(s, s.(gate := Unlocked)) && SlotFrame(s, DoFailReleases(s, id))
  {
    GateFramesSlots(g, s, sig);
  }

  lemma OrdersFrameSlots(s: Sys, id: string, t: Ticket)
    ensures SlotFrame(s, DoLimitPlaced(s, id, t)) && SlotFrame(s, DoMarketFilled(s, id, t))
  {
  }

  lemma TrackingFramesSlots(s: Sys, id: string, expiryAt: int)
    ensures SlotFrame(s, DoTrackLimit(s, id, expiryAt))
  {
  }

  lemma TradesFrameSlots(s: Sys, id: string, tradeId: string)
    ensures SlotFrame(s, DoStoreTrade(s, id, tradeId))
  {
  }

  lemma LostTrackingFramesSlots(s: Sys, id: string, tradeId: string)
    ensures SlotFrame(s, DoTrackingFails(s, id, tradeId))
  {
  }

  lemma CountsFrameSlots(s: Sys, id: string)
    ensures SlotFrame(s, DoCountTrade(s, id))
  {
  }

  predicate SameSlots(s: Sys, s': Sys) {
    s'.slots == s.slots && s'.execs == s.execs
  }

  lemma PollLeavesSlots(s: Sys, step: PollStep)
    ensures SameSlots(s, ApplyPoll(s, step))
  {
    match step
    case Decide(tradeId, cancelHonoured) => DoDecideMoves(s, tradeId, cancelHonoured);
    case CountFill => CountFillMoves(s);
    case _ => QuietPollMoves(s, step);
  }

  lemma OthersLeaveSlots(s: Sys, b: BrokerStep, m: ManagerStep)
    ensures SameSlots(s, ApplyBroker(s, b)) && SameSlots(s, ApplyManage(s, m))
  {
    ManageMoves(s, m);
  }

  lemma AdmitKeepsSlotInv(s: Sys)
    requires SlotInv(s) && CustodyInv(s)
    ensures SlotInv(DoAdmit(s))
  {
    if s.gate.Previewed? {
      var exec := Exec(s.gate.sig, Admitted);
      assert exec.sig.id !in s.execs;
      var s' := DoAdmit(s);
      assert s'.execs == s.execs[exec.sig.id := exec];
      forall symbol
        ensures |SlotHolders(s'.execs, symbol)|
             == |SlotHolders(s.execs, symbol)| + if exec.sig.symbol == symbol then 1 else 0
      {
        SlotGained(s.execs, exec, symbol);
      }
    }
  }

  lemma FreeingKeepsSlotInv(s: Sys, id: string, phase: Phase)
    requires SlotInv(s) && HoldsSlot(phase)
    ensures SlotInv(DoFreeSlot(s, id, phase)) && SlotInv(DoFailFreesSlot(s, id))
  {
    if DoFreeSlot(s, id, phase) != s {
      ReleaseKeepsSlotInv(s, DoFreeSlot(s, id, phase), id);
    }
    if DoFailFreesSlot(s, id) != s {
      ReleaseKeepsSlotInv(s, DoFailFreesSlot(s, id), id);
    }
  }

  lemma AdmissionKeepsSlotInv(g: CT.Group, s: Sys, step: AdmissionStep)
    requires SlotInv(s) && CustodyInv(s)
    ensures SlotInv(ApplyAdmission(g, s, step))
  {
    match step {
      case AdmitSignal => AdmitKeepsSlotInv(s);
      case FailFreesSlot(id) => FreeingKeepsSlotInv(s, id, Admitted);
      case PreviewSignal(sig) =>
        DecisionsFrameSlots(g, s, sig, "");
        FrameKeepsSlotInv(s, DoPreview(g, s, sig));
      case RefuseSignal => FrameKeepsSlotInv(s, s.(gate := Unlocked));
      case FailReleases(id) =>
        DecisionsFrameSlots(g, s, Signal("", "", false), id);
        FrameKeepsSlotInv(s, DoFailReleases(s, id));
    }
  }

  lemma PlacementKeepsSlotInv(s: Sys, step: PlacementStep)
    requires SlotInv(s)
    ensures SlotInv(ApplyPlacement(s, step))
  {
    match step {
      case LimitFreesSlot(id) => FreeingKeepsSlotInv(s, id, LimitTracked);
      case MarketFreesSlot(id) => FreeingKeepsSlotInv(s, id, TradeCounted);
      case LimitPlaced(id, t) => OrdersFrameSlots(s, id, t);
      case MarketFilled(id, t) => OrdersFrameSlots(s, id, t);
      case TrackLimit(id, expiryAt) => TrackingFramesSlots(s, id, expiryAt);
      case StoreTrade(id, tradeId) => TradesFrameSlots(s, id, tradeId);
      case TrackingFails(id, tradeId) => LostTrackingFramesSlots(s, id, tradeId);
      case CountTrade(id) => CountsFrameSlots(s, id);
    }
    if !step.LimitFreesSlot? && !step.MarketFreesSlot? {
      FrameKeepsSlotInv(s, ApplyPlacement(s, step));
    }
  }

  lemma StepKeepsSlotInv(g: CT.Group, s: Sys, step: Step)
    requires SlotInv(s) && CustodyInv(s)
    ensures SlotInv(Apply(g, s, step))
  {
    match step {
      case Admission(a) => AdmissionKeepsSlotInv(g, s, a);
      case Placement(p) => PlacementKeepsSlotInv(s, p);
      case Broker(b) => OthersLeaveSlots(s, b, ReadBroker);
      case Poll(q) => PollLeavesSlots(s, q);
      case Manage(m) => OthersLeaveSlots(s, OrderFills(0), m);
    }
    if SameSlots(s, Apply(g, s, step)) {
      SameSlotsKeepSlotInv(s, Apply(g, s, step));
    }
  }

  // ---------- Theorems ----------

  lemma {:induction false} RunKeepsAll(g: CT.Group, day: int, maxOpen: nat, steps: seq<Step>)
    ensures var s := Run(g, Start(day, maxOpen), steps);
            FillInv(s) && CustodyInv(s) && SlotInv(s)
  {
    if steps != [] {
      var front := steps[..|steps| - 1];
      RunKeepsAll(g, day, maxOpen, front);
      var s := Run(g, Start(day, maxOpen), front);
      StepKeepsFillInv(g, s, steps[|steps| - 1]);
      StepKeepsCustody(g, s, steps[|steps| - 1]);
      StepKeepsSlotInv(g, s, steps[|steps| - 1]);
    } else {
      assert forall symbol :: SlotHolders(map[], symbol) == {};
    }
  }

  predicate Quiescent(s: Sys) {
    s.execs == map[] && s.poller.Idle? && s.gate.Unlocked?
  }

  /** Exactly once: no reservation is ever resolved twice, whatever interleaves. */
  lemma NoReservationIsResolvedTwice(g: CT.Group, day: int, maxOpen: nat, steps: seq<Step>, i: nat, j: nat)
    requires i < j < |Run(g, Start(day, maxOpen), steps).log|
    ensures Run(g, Start(day, maxOpen), steps).log[i].id != Run(g, Start(day, maxOpen), steps).log[j].id
  {
    RunKeepsAll(g, day, maxOpen, steps);
  }

  lemma FreeWhenNothingExecutes(s: Sys)
    requires SlotInv(s) && s.execs == map[]
    ensures s.slots == EngineSlots.FREE
  {
    assert forall symbol :: SlotHolders(s.execs, symbol) == {};
    forall symbol
      ensures symbol !in s.slots.counts
    {
      assert EngineSlots.CountOf(s.slots.counts, symbol) == |SlotHolders(s.execs, symbol)|;
    }
    assert s.slots.counts == map[] && s.slots.ids == {};
  }

  function RecordSignals(s: Sys): set<string> {
    set t | t in s.records && s.records[t].sig.clustered :: s.records[t].sig.id
  }

  /** The reservations of fills whose trade the store refused. */
  function RefusedSignals(s: Sys): set<string> {
    set id | id in s.custody && s.custody[id].place.InRecord? && s.custody[id].place.ticket in s.refused && s.custody[id].sig.clustered
  }

  lemma HeldOnlyByRecordsAtRest(s: Sys, id: string)
    requires FillInv(s) && CustodyInv(s) && Quiescent(s) && id in s.custody
    ensures Holding(s.custody[id].place) ==>
              && s.custody[id].place.InRecord?
              && (var t := s.custody[id].place.ticket;
                  t in s.refused || (t in s.records && s.records[t].sig == s.custody[id].sig))
    ensures !Holding(s.custody[id].place) ==> exists r :: r in s.log && r.id == id
  {
    if !Holding(s.custody[id].place) {
      assert Resolution(id, s.custody[id].place == OpenedTrade) in s.log;
    }
  }

  lemma PendingIsRecordSignalsAtRest(s: Sys)
    requires FillInv(s) && CustodyInv(s) && Quiescent(s)
    ensures s.cluster.pending.Keys == RecordSignals(s) + RefusedSignals(s)
  {
    forall id | id in s.cluster.pending
      ensures id in RecordSignals(s) + RefusedSignals(s)
    {
      HeldOnlyByRecordsAtRest(s, id);
    }
    forall id | id in RecordSignals(s)
      ensures id in s.cluster.pending
    {
      var t :| t in s.records && s.records[t].sig.clustered && s.records[t].sig.id == id;
      assert s.custody[id].place == InRecord(t);
    }
  }

  /** At rest, the cluster's pending ids are the clustered signals of live records and of refused fills,
      every other reservation ever made has been resolved, and the engine's own tables are empty. */
  lemma AtRestEverythingAgrees(g: CT.Group, day: int, maxOpen: nat, steps: seq<Step>)
    requires Quiescent(Run(g, Start(day, maxOpen), steps))
    ensures var s := Run(g, Start(day, maxOpen), steps);
            && s.cluster.pending.Keys == RecordSignals(s) + RefusedSignals(s)
            && (forall id :: id in s.custody ==>
                  || (exists t :: t in s.records && s.records[t].sig.id == id)
                  || (exists r :: r in s.log && r.id == id)
                  || (s.custody[id].place.InRecord? && s.custody[id].place.ticket in s.refused))
            && s.slots == EngineSlots.FREE
  {
    RunKeepsAll(g, day, maxOpen, steps);
    var s := Run(g, Start(day, maxOpen), steps);
    FreeWhenNothingExecutes(s);
    PendingIsRecordSignalsAtRest(s);
    forall id | id in s.custody
      ensures || (exists t :: t in s.records && s.records[t].sig.id == id)
              || (exists r :: r in s.log && r.id == id)
              || (s.custody[id].place.InRecord? && s.custody[id].place.ticket in s.refused)
    {
      HeldOnlyByRecordsAtRest(s, id);
    }
  }
}
