/** The order and reservation protocol as a machine of small steps: signals being executed, the
    pending-order poller, the position manager and an adversarial broker interleave freely
    (src/execution/engine.py, src/positions/pending_manager.py, src/risk/cluster_tracker.py). */
module OrderProtocol {
  import opened Basics
  import EngineSlots
  import CT = ClusterTracker
  import CB = ClusterBudget

  type Ticket = nat

  /** `clustered` says whether the signal's symbol belongs to the cluster group under study. */
  datatype Signal = Signal(id: string, symbol: string, clustered: bool)

  datatype OrderStatus = Resting | Filled | Closed | Cancelled

  datatype Record = Record(ticket: Ticket, sig: Signal, expiryAt: int)

  datatype StoredTrade = StoredTrade(ticket: Ticket, sig: Signal)

  /** How far one call of `execute` has come since it left the lock region. */
  datatype Phase =
    | Admitted
    | SlotFreed                       // failed: the slot is back, the cluster reservation not yet
    | LimitAccepted(ticket: Ticket)
    | LimitTracked                    // the record is the poller's, the slot not yet freed
    | MarketAccepted(ticket: Ticket)
    | TrackingLost                    // the store refused the trade, the slot not yet freed
    | TradeStored(tradeId: string)
    | TradeCounted                    // counted as open in the cluster, the slot not yet freed

  datatype Exec = Exec(sig: Signal, phase: Phase)

  /** The records and snapshots a poll still works with. */
  datatype View = View(todo: seq<Record>, resting: set<Ticket>, open: set<Ticket>, now: int)

  datatype Poller =
    | Idle
    | HasRecords(todo: seq<Record>)
    | HasResting(todo: seq<Record>, resting: set<Ticket>)
    | AtLoop(view: View)
    | FillStored(rec: Record, tradeId: string, view: View)
    | FillCounted(rec: Record, view: View)
    | Dropping(rec: Record, view: View)
    | Releasing(rec: Record, view: View)

  /** The lock region between a preview and its reservation. */
  datatype Gate = Unlocked | Previewed(sig: Signal, plannedR: real)

  /** Who answers for a reservation. History only: no step looks at it. */
  datatype Place = InExecute | InRecord(ticket: Ticket) | InRelease(ticket: Ticket) | OpenedTrade | ReleasedUnused

  datatype Custody = Custody(sig: Signal, place: Place)

  /** One call of mark_trade_opened or release_signal. */
  datatype Resolution = Resolution(id: string, becameOpen: bool)

  /** `maxOpen` is the configured number of slots, `max(1, streak)`; `seen` is the position manager's
      last snapshot of open positions. */
  datatype Sys = Sys(
    maxOpen: nat,
    orders: map<Ticket, OrderStatus>,
    records: map<Ticket, Record>,
    store: map<string, StoredTrade>,
    slots: EngineSlots.Slots,
    execs: map<string, Exec>,
    gate: Gate,
    poller: Poller,
    seen: set<Ticket>,
    cluster: CT.ClusterState,
    // history
    tracked: set<Ticket>,
    traded: set<Ticket>,
    refused: set<Ticket>,            // fills whose trade the store refused
    issued: map<string, StoredTrade>, // every trade ever built for an order, as the repository may hold it
    adopted: set<string>,            // stored trades that a position poll took in
    overtaken: set<string>,          // clustered trades closed before their count, which their entry outlasts
    custody: map<string, Custody>,
    log: seq<Resolution>,
    slack: CB.Slack)

  function Start(day: int, maxOpen: nat): Sys {
    Sys(maxOpen, map[], map[], map[], EngineSlots.FREE, map[], Unlocked, Idle, {}, CT.FreshDay(day),
        {}, {}, {}, map[], {}, {}, map[], [], CB.NO_SLACK)
  }

  datatype BrokerStep = OrderFills(ticket: Ticket) | PositionCloses(ticket: Ticket) | OrderCancelled(ticket: Ticket)

  datatype AdmissionStep =
    | PreviewSignal(sig: Signal)
    | RefuseSignal
    | AdmitSignal
    | FailFreesSlot(id: string)
    | FailReleases(id: string)

  datatype PlacementStep =
    | LimitPlaced(id: string, ticket: Ticket)
    | TrackLimit(id: string, expiryAt: int)
    | LimitFreesSlot(id: string)
    | MarketFilled(id: string, ticket: Ticket)
    | StoreTrade(id: string, tradeId: string)
    | TrackingFails(id: string, tradeId: string)
    | CountTrade(id: string)
    | MarketFreesSlot(id: string)

  datatype PollStep =
    | ReadRecords(todo: seq<Record>)
    | ReadResting
    | ReadPositions(now: int)
    | FetchFails
    | Decide(tradeId: string, cancelHonoured: bool)
    | StoreFails
    | CountFill
    | DropFilled
    | DropRecord
    | ReleaseRecord

  datatype ManagerStep =
    | ReadBroker
    | AdoptPosition(ticket: Ticket, tradeId: string, symbol: string, clustered: bool)
    | CloseTrade(tradeId: string, realizedRr: Option<real>)

  /** One small step of one actor: the broker, `execute` before and after it leaves the risk
      decision, the pending-order poller, or the position manager. */
  datatype Step =
    | Broker(b: BrokerStep)
    | Admission(a: AdmissionStep)
    | Placement(p: PlacementStep)
    | Poll(q: PollStep)
    | Manage(m: ManagerStep)

  // ---------- The broker ----------

  function MoveOrder(s: Sys, t: Ticket, from: OrderStatus, to: OrderStatus): Sys {
    if t in s.orders && s.orders[t] == from then s.(orders := s.orders[t := to]) else s
  }

  // ---------- execute ----------

  predicate HasTradeFor(store: map<string, StoredTrade>, id: string) {
    exists k :: k in store && store[k].sig.id == id
  }

  /** The open trades and every slot still held count against the open-trade limit. */
  ghost predicate HasFreeSlot(s: Sys) {
    |s.store| + EngineSlots.PendingTotal(s.slots.counts) < s.maxOpen
  }

  /** The lock region up to the risk decision. Signal ids arrive once: `custody` is everything ever reserved. */
  ghost function DoPreview(g: CT.Group, s: Sys, sig: Signal): Sys {
    var p := CT.PreviewOf(g, s.cluster);
    if s.gate != Unlocked || sig.id in s.custody || sig.id in s.slots.ids || HasTradeFor(s.store, sig.id) || !HasFreeSlot(s) then s
    else if !sig.clustered then s.(gate := Previewed(sig, 1.0))
    else if p.Approved? then s.(gate := Previewed(sig, p.plannedRiskR))
    else s
  }

  function DoAdmit(s: Sys): Sys {
    if s.gate.Unlocked? then s
    else
      var sig := s.gate.sig;
      s.(gate := Unlocked,
         cluster := if sig.clustered then CT.Reserve(s.cluster, sig.id, s.gate.plannedR) else s.cluster,
         slots := EngineSlots.Reserve(s.slots, sig.symbol, sig.id),
         execs := s.execs[sig.id := Exec(sig, Admitted)],
         custody := s.custody[sig.id := Custody(sig, InExecute)])
  }

  predicate At(s: Sys, id: string, phase: Phase) {
    id in s.execs && s.execs[id].phase == phase
  }

  function ToPhase(s: Sys, id: string, phase: Phase): map<string, Exec>
    requires id in s.execs
  {
    s.execs[id := s.execs[id].(phase := phase)]
  }

  function HandTo(s: Sys, id: string, sig: Signal, place: Place): map<string, Custody> {
    s.custody[id := Custody(sig, place)]
  }

  /** Planning, placement or in-memory tracking failed; `_release` needs the lock. */
  function DoFailFreesSlot(s: Sys, id: string): Sys {
    if id in s.execs && (s.execs[id].phase.Admitted? || s.execs[id].phase.TrackingLost?) && s.gate.Unlocked? then
      s.(slots := EngineSlots.Release(s.slots, s.execs[id].sig.symbol, id), execs := ToPhase(s, id, SlotFreed))
    else s
  }

  function ClusterRelease(s: Sys, sig: Signal): CT.ClusterState {
    if sig.clustered then CT.Release(s.cluster, sig.id) else s.cluster
  }

  function ClusterOpen(s: Sys, sig: Signal, tradeId: string): CT.ClusterState {
    if sig.clustered then CT.MarkOpened(s.cluster, sig.id, tradeId) else s.cluster
  }

  function DoFailReleases(s: Sys, id: string): Sys {
    if At(s, id, SlotFreed) then
      var sig := s.execs[id].sig;
      s.(cluster := ClusterRelease(s, sig), execs := s.execs - {id},
         custody := HandTo(s, id, sig, ReleasedUnused), log := s.log + [Resolution(id, false)])
    else s
  }

  function DoLimitPlaced(s: Sys, id: string, t: Ticket): Sys {
    if At(s, id, Admitted) && t !in s.orders then
      s.(orders := s.orders[t := Resting], execs := ToPhase(s, id, LimitAccepted(t)))
    else s
  }

  function DoTrackLimit(s: Sys, id: string, expiryAt: int): Sys {
    if id in s.execs && s.execs[id].phase.LimitAccepted? then
      var t, sig := s.execs[id].phase.ticket, s.execs[id].sig;
      s.(records := s.records[t := Record(t, sig, expiryAt)], tracked := s.tracked + {t},
         execs := ToPhase(s, id, LimitTracked), custody := HandTo(s, id, sig, InRecord(t)))
    else s
  }

  function DoFreeSlot(s: Sys, id: string, phase: Phase): Sys {
    if At(s, id, phase) && s.gate.Unlocked? then
      s.(slots := EngineSlots.Release(s.slots, s.execs[id].sig.symbol, id), execs := s.execs - {id})
    else s
  }

  function DoMarketFilled(s: Sys, id: string, t: Ticket): Sys {
    if At(s, id, Admitted) && t !in s.orders then
      s.(orders := s.orders[t := Filled], execs := ToPhase(s, id, MarketAccepted(t)))
    else s
  }

  /** Trade ids are drawn at random and never come twice. */
  predicate IsNew(s: Sys, tradeId: string) {
    tradeId !in s.issued && tradeId !in s.store
  }

  function DoStoreTrade(s: Sys, id: string, tradeId: string): Sys {
    if id in s.execs && s.execs[id].phase.MarketAccepted? && IsNew(s, tradeId) then
      var trade := StoredTrade(s.execs[id].phase.ticket, s.execs[id].sig);
      s.(store := s.store[tradeId := trade], traded := s.traded + {trade.ticket}, issued := s.issued[tradeId := trade],
         execs := ToPhase(s, id, TradeStored(tradeId)))
    else s
  }

  /** The store refused the trade of a filled market order; the repository has it all the same. */
  function DoTrackingFails(s: Sys, id: string, tradeId: string): Sys {
    if id in s.execs && s.execs[id].phase.MarketAccepted? && IsNew(s, tradeId) then
      s.(issued := s.issued[tradeId := StoredTrade(s.execs[id].phase.ticket, s.execs[id].sig)],
         execs := ToPhase(s, id, TrackingLost))
    else s
  }

  function DoCountTrade(s: Sys, id: string): Sys {
    if id in s.execs && s.execs[id].phase.TradeStored? then
      var sig := s.execs[id].sig;
      s.(cluster := ClusterOpen(s, sig, s.execs[id].phase.tradeId), execs := ToPhase(s, id, TradeCounted),
         custody := HandTo(s, id, sig, OpenedTrade), log := s.log + [Resolution(id, true)])
    else s
  }

  // ---------- The poller ----------

  predicate Enumerates(todo: seq<Record>, records: map<Ticket, Record>) {
    && (forall r :: r in todo ==> r.ticket in records && records[r.ticket] == r)
    && (forall t :: t in records ==> records[t] in todo)
    && DistinctTickets(todo)
  }

  predicate DistinctTickets(todo: seq<Record>) {
    forall i, j :: 0 <= i < j < |todo| ==> todo[i].ticket != todo[j].ticket
  }

  function TicketsAt(orders: map<Ticket, OrderStatus>, status: OrderStatus): set<Ticket> {
    set t | t in orders && orders[t] == status
  }

  function DoReadRecords(s: Sys, todo: seq<Record>): Sys {
    if s.poller.Idle? && todo != [] && Enumerates(todo, s.records) then s.(poller := HasRecords(todo)) else s
  }

  function DoReadResting(s: Sys): Sys {
    if s.poller.HasRecords? then s.(poller := HasResting(s.poller.todo, TicketsAt(s.orders, Resting))) else s
  }

  function DoReadPositions(s: Sys, now: int): Sys {
    if s.poller.HasResting? then
      s.(poller := AtLoop(View(s.poller.todo, s.poller.resting, TicketsAt(s.orders, Filled), now)))
    else s
  }

  function DoFetchFails(s: Sys): Sys {
    if s.poller.HasRecords? || s.poller.HasResting? then s.(poller := Idle) else s
  }

  // The first effect of each of the three handlers.

  function HandleFill(s: Sys, rec: Record, rest: View, tradeId: string): Sys {
    if !IsNew(s, tradeId) then s
    else
      var trade := StoredTrade(rec.ticket, rec.sig);
      s.(store := s.store[tradeId := trade], traded := s.traded + {rec.ticket}, issued := s.issued[tradeId := trade],
         poller := FillStored(rec, tradeId, rest))
  }

  /** A cancel succeeds only if it removed a resting order. */
  function HandleOurExpiry(s: Sys, rec: Record, rest: View, cancelHonoured: bool): Sys {
    if cancelHonoured && rec.ticket in s.orders && s.orders[rec.ticket] == Resting then
      s.(orders := s.orders[rec.ticket := Cancelled], poller := Dropping(rec, rest))
    else s.(poller := AtLoop(rest))
  }

  function HandleVanished(s: Sys, rec: Record, rest: View): Sys {
    s.(poller := Dropping(rec, rest))
  }

  /** One turn of the loop, up to its first effect. */
  function DoDecide(s: Sys, tradeId: string, cancelHonoured: bool): Sys {
    if !s.poller.AtLoop? then s
    else if s.poller.view.todo == [] then s.(poller := Idle)
    else
      var view := s.poller.view;
      var rec, rest := view.todo[0], view.(todo := view.todo[1..]);
      if rec.ticket in view.open then HandleFill(s, rec, rest, tradeId)
      else if rec.ticket !in view.resting then HandleVanished(s, rec, rest)
      else if view.now >= rec.expiryAt then HandleOurExpiry(s, rec, rest, cancelHonoured)
      else s.(poller := AtLoop(rest))
  }

  /** Adding the filled trade to the store failed: the record goes, nothing else happens. */
  function DoStoreFails(s: Sys): Sys {
    if s.poller.AtLoop? && s.poller.view.todo != [] && s.poller.view.todo[0].ticket in s.poller.view.open then
      var view := s.poller.view;
      s.(records := s.records - {view.todo[0].ticket}, refused := s.refused + {view.todo[0].ticket},
         poller := AtLoop(view.(todo := view.todo[1..])))
    else s
  }

  function DoCountFill(s: Sys): Sys {
    if s.poller.FillStored? then
      var sig := s.poller.rec.sig;
      s.(cluster := ClusterOpen(s, sig, s.poller.tradeId), poller := FillCounted(s.poller.rec, s.poller.view),
         custody := HandTo(s, sig.id, sig, OpenedTrade), log := s.log + [Resolution(sig.id, true)])
    else s
  }

  function DoDropFilled(s: Sys): Sys {
    if s.poller.FillCounted? then
      s.(records := s.records - {s.poller.rec.ticket}, poller := AtLoop(s.poller.view))
    else s
  }

  function DoDropRecord(s: Sys): Sys {
    if s.poller.Dropping? then
      var rec := s.poller.rec;
      s.(records := s.records - {rec.ticket}, poller := Releasing(rec, s.poller.view),
         custody := HandTo(s, rec.sig.id, rec.sig, InRelease(rec.ticket)))
    else s
  }

  function DoReleaseRecord(s: Sys): Sys {
    if s.poller.Releasing? then
      var sig := s.poller.rec.sig;
      s.(cluster := ClusterRelease(s, sig), poller := AtLoop(s.poller.view),
         custody := HandTo(s, sig.id, sig, ReleasedUnused), log := s.log + [Resolution(sig.id, false)])
    else s
  }

  // ---------- The position manager ----------

  function DoReadBroker(s: Sys): Sys {
    s.(seen := TicketsAt(s.orders, Filled))
  }

  predicate HasTicket(store: map<string, StoredTrade>, t: Ticket) {
    exists k :: k in store && store[k].ticket == t
  }

  /** A stub knows its position only as the snapshot shows it. */
  function Stub(t: Ticket, symbol: string, clustered: bool): StoredTrade {
    StoredTrade(t, Signal("unknown", symbol, clustered))
  }

  /** A poll takes in every position of its snapshot that has no trade in the store: as a trade issued
      for it when one is still on record as open, else as a stub. Saves can fail, so any issued trade
      may be on record, even after its close. */
  function DoAdopt(s: Sys, t: Ticket, tradeId: string, stub: StoredTrade): Sys {
    var trade := if tradeId in s.issued then s.issued[tradeId] else stub;
    if t !in s.seen || HasTicket(s.store, t) || tradeId in s.store || trade.ticket != t then s
    else s.(store := s.store[tradeId := trade], adopted := s.adopted + {tradeId})
  }

  /** A close judges only trades the engine issued: a stub closes without an R. */
  function JudgedRr(s: Sys, tradeId: string, realizedRr: Option<real>): Option<real> {
    if tradeId in s.issued then realizedRr else None
  }

  /** A close that finds no entry leaves one behind when the count is still to come. */
  function AfterClose(s: Sys, tradeId: string): set<string> {
    if tradeId in s.cluster.open then s.overtaken - {tradeId}
    else if tradeId in s.adopted then s.overtaken
    else s.overtaken + {tradeId}
  }

  predicate Closable(s: Sys, tradeId: string) {
    tradeId in s.store && s.store[tradeId].ticket !in s.seen
  }

  /** A poll closes every stored trade that its snapshot lacks; the snapshot may be older than the trade. */
  function DoCloseTrade(s: Sys, tradeId: string, realizedRr: Option<real>): Sys {
    if !Closable(s, tradeId) then s
    else
      var sig, rest := s.store[tradeId].sig, s.(store := s.store - {tradeId}, adopted := s.adopted - {tradeId});
      var rr := JudgedRr(s, tradeId, realizedRr);
      if !sig.clustered then rest
      else rest.(cluster := CT.MarkClosed(s.cluster, tradeId, sig.id, rr),
                 slack := CB.Slacken(s.slack, s.cluster, tradeId, rr),
                 overtaken := AfterClose(s, tradeId))
  }

  // A step that is not enabled leaves the system as it is.

  function ApplyBroker(s: Sys, step: BrokerStep): Sys {
    match step
    case OrderFills(t) => MoveOrder(s, t, Resting, Filled)
    case PositionCloses(t) => MoveOrder(s, t, Filled, Closed)
    case OrderCancelled(t) => MoveOrder(s, t, Resting, Cancelled)
  }

  ghost function ApplyAdmission(g: CT.Group, s: Sys, step: AdmissionStep): Sys {
    match step
    case PreviewSignal(sig) => DoPreview(g, s, sig)
    case RefuseSignal => s.(gate := Unlocked)
    case AdmitSignal => DoAdmit(s)
    case FailFreesSlot(id) => DoFailFreesSlot(s, id)
    case FailReleases(id) => DoFailReleases(s, id)
  }

  function ApplyPlacement(s: Sys, step: PlacementStep): Sys {
    match step
    case LimitPlaced(id, t) => DoLimitPlaced(s, id, t)
    case TrackLimit(id, expiryAt) => DoTrackLimit(s, id, expiryAt)
    case LimitFreesSlot(id) => DoFreeSlot(s, id, LimitTracked)
    case MarketFilled(id, t) => DoMarketFilled(s, id, t)
    case StoreTrade(id, tradeId) => DoStoreTrade(s, id, tradeId)
    case TrackingFails(id, tradeId) => DoTrackingFails(s, id, tradeId)
    case CountTrade(id) => DoCountTrade(s, id)
    case MarketFreesSlot(id) => DoFreeSlot(s, id, TradeCounted)
  }

  function ApplyPoll(s: Sys, step: PollStep): Sys {
    match step
    case ReadRecords(todo) => DoReadRecords(s, todo)
    case ReadResting => DoReadResting(s)
    case ReadPositions(now) => DoReadPositions(s, now)
    case FetchFails => DoFetchFails(s)
    case Decide(tradeId, cancelHonoured) => DoDecide(s, tradeId, cancelHonoured)
    case StoreFails => DoStoreFails(s)
    case CountFill => DoCountFill(s)
    case DropFilled => DoDropFilled(s)
    case DropRecord => DoDropRecord(s)
    case ReleaseRecord => DoReleaseRecord(s)
  }

  function ApplyManage(s: Sys, step: ManagerStep): Sys {
    match step
    case ReadBroker => DoReadBroker(s)
    case AdoptPosition(t, tradeId, symbol, clustered) => DoAdopt(s, t, tradeId, Stub(t, symbol, clustered))
    case CloseTrade(tradeId, realizedRr) => DoCloseTrade(s, tradeId, realizedRr)
  }

  ghost function Apply(g: CT.Group, s: Sys, step: Step): Sys {
    match step
    case Broker(b) => ApplyBroker(s, b)
    case Admission(a) => ApplyAdmission(g, s, a)
    case Placement(p) => ApplyPlacement(s, p)
    case Poll(q) => ApplyPoll(s, q)
    case Manage(m) => ApplyManage(s, m)
  }

  ghost function Run(g: CT.Group, s: Sys, steps: seq<Step>): Sys {
    if steps == [] then s else Apply(g, Run(g, s, steps[..|steps| - 1]), steps[|steps| - 1])
  }

  lemma RunExtends(g: CT.Group, s: Sys, steps: seq<Step>, step: Step)
    ensures Run(g, s, steps + [step]) == Apply(g, Run(g, s, steps), step)
  {
    assert (steps + [step])[..|steps + [step]| - 1] == steps;
  }

  // ---------- What an actor cannot reach ----------

  /** The risk decision and the failures of an execution touch no order, record or trade. */
  predicate AdmissionMoves(s: Sys, s': Sys) {
    s' == s.(gate := s'.gate, cluster := s'.cluster, slots := s'.slots, execs := s'.execs, custody := s'.custody, log := s'.log)
  }

  lemma GateMoves(g: CT.Group, s: Sys, sig: Signal)
    ensures DoPreview(g, s, sig) == s.(gate := DoPreview(g, s, sig).gate)
  {
  }

  lemma ApplyAdmissionMoves(g: CT.Group, s: Sys, step: AdmissionStep)
    ensures AdmissionMoves(s, ApplyAdmission(g, s, step))
  {
    if step.PreviewSignal? {
      GateMoves(g, s, step.sig);
    }
  }

  /** The position manager works on the store and the cluster's open trades only. */
  predicate ManagerMoves(s: Sys, s': Sys) {
    && s' == s.(store := s'.store, seen := s'.seen, cluster := s'.cluster, adopted := s'.adopted,
                overtaken := s'.overtaken, slack := s'.slack)
    && s'.cluster.pending == s.cluster.pending
  }

  lemma AdoptMoves(s: Sys, t: Ticket, tradeId: string, stub: StoredTrade)
    ensures ManagerMoves(s, DoAdopt(s, t, tradeId, stub))
  {
  }

  lemma CloseMoves(s: Sys, tradeId: string, realizedRr: Option<real>)
    ensures ManagerMoves(s, DoCloseTrade(s, tradeId, realizedRr))
  {
  }

  lemma ManageMoves(s: Sys, step: ManagerStep)
    ensures ManagerMoves(s, ApplyManage(s, step))
  {
    match step
    case ReadBroker =>
    case AdoptPosition(t, tradeId, symbol, clustered) => AdoptMoves(s, t, tradeId, Stub(t, symbol, clustered));
    case CloseTrade(tradeId, realizedRr) => CloseMoves(s, tradeId, realizedRr);
  }

  /** A turn of the poller's loop touches orders, trades and the poller's own place. */
  predicate DecideMoves(s: Sys, s': Sys) {
    s' == s.(orders := s'.orders, store := s'.store, poller := s'.poller, traded := s'.traded, issued := s'.issued)
  }

  lemma HandlersMove(s: Sys, rec: Record, rest: View, tradeId: string, cancelHonoured: bool)
    ensures DecideMoves(s, HandleFill(s, rec, rest, tradeId)) && DecideMoves(s, HandleOurExpiry(s, rec, rest, cancelHonoured))
    ensures DecideMoves(s, HandleVanished(s, rec, rest)) && DecideMoves(s, s.(poller := AtLoop(rest)))
  {
  }

  lemma DoDecideMoves(s: Sys, tradeId: string, cancelHonoured: bool)
    ensures DecideMoves(s, DoDecide(s, tradeId, cancelHonoured))
  {
    if s.poller.AtLoop? && s.poller.view.todo != [] {
      var view := s.poller.view;
      HandlersMove(s, view.todo[0], view.(todo := view.todo[1..]), tradeId, cancelHonoured);
    }
  }

  /** A poll step that decides and counts nothing touches no order and no trade; records only go. */
  predicate QuietMoves(s: Sys, s': Sys) {
    && s' == s.(records := s'.records, refused := s'.refused, poller := s'.poller, cluster := s'.cluster,
                custody := s'.custody, log := s'.log)
    && s'.cluster.open == s.cluster.open
    && (forall t :: t in s'.records ==> t in s.records && s'.records[t] == s.records[t])
    && (s'.poller == s.poller || (!s.poller.FillStored? && !s'.poller.FillStored?))
  }

  predicate IsQuiet(step: PollStep) {
    !step.Decide? && !step.CountFill?
  }

  lemma ReadsMove(s: Sys, todo: seq<Record>)
    ensures QuietMoves(s, DoReadRecords(s, todo)) && QuietMoves(s, DoFetchFails(s))
  {
  }

  lemma SnapshotsMove(s: Sys, now: int)
    ensures QuietMoves(s, DoReadResting(s)) && QuietMoves(s, DoReadPositions(s, now))
  {
  }

  lemma RefusalMoves(s: Sys)
    ensures QuietMoves(s, DoStoreFails(s))
  {
  }

  lemma DropsMove(s: Sys)
    ensures QuietMoves(s, DoDropFilled(s)) && QuietMoves(s, DoDropRecord(s))
  {
  }

  lemma ReleaseMoves(s: Sys)
    ensures QuietMoves(s, DoReleaseRecord(s))
  {
  }

  lemma QuietPollMoves(s: Sys, step: PollStep)
    requires IsQuiet(step)
    ensures QuietMoves(s, ApplyPoll(s, step))
  {
    match step
    case ReadRecords(todo) => ReadsMove(s, todo);
    case FetchFails => ReadsMove(s, []);
    case ReadPositions(now) => SnapshotsMove(s, now);
    case ReadResting => SnapshotsMove(s, 0);
    case StoreFails => RefusalMoves(s);
    case ReleaseRecord => ReleaseMoves(s);
    case _ => DropsMove(s);
  }

  /** Counting a fill moves its reservation and the poller, and nothing else. */
  lemma CountFillMoves(s: Sys)
    ensures var s' := DoCountFill(s);
            s' == s.(cluster := s'.cluster, poller := s'.poller, custody := s'.custody, log := s'.log)
  {
  }

  // ---------- Only closes use slack, and nothing changes the configuration ----------

  predicate IsClose(step: Step) {
    step.Manage? && step.m.CloseTrade?
  }

  predicate SameSlack(s: Sys, s': Sys) {
    s'.slack == s.slack && s'.overtaken == s.overtaken && s'.maxOpen == s.maxOpen
  }

  lemma PlacementKeepsSlack(s: Sys, step: PlacementStep)
    ensures SameSlack(s, ApplyPlacement(s, step))
  {
  }

  lemma PollKeepsSlack(s: Sys, step: PollStep)
    ensures SameSlack(s, ApplyPoll(s, step))
  {
    match step
    case Decide(tradeId, cancelHonoured) => DoDecideMoves(s, tradeId, cancelHonoured);
    case CountFill => CountFillMoves(s);
    case _ => QuietPollMoves(s, step);
  }

  lemma ManageKeepsSlack(s: Sys, step: ManagerStep)
    requires !step.CloseTrade?
    ensures SameSlack(s, ApplyManage(s, step))
  {
  }

  lemma OnlyClosesUseSlack(g: CT.Group, s: Sys, step: Step)
    requires !IsClose(step)
    ensures SameSlack(s, Apply(g, s, step))
  {
    match step
    case Broker(_) =>
    case Admission(a) => ApplyAdmissionMoves(g, s, a);
    case Placement(p) => PlacementKeepsSlack(s, p);
    case Poll(q) => PollKeepsSlack(s, q);
    case Manage(m) => ManageKeepsSlack(s, m);
  }

  /** A step that closes no issued clustered trade before it is counted as open. */
  predicate FollowsCount(s: Sys, step: Step) {
    IsClose(step) && Closable(s, step.m.tradeId) && s.store[step.m.tradeId].sig.clustered && step.m.tradeId in s.issued ==>
      step.m.tradeId in s.cluster.open
  }

  /** Every close of a clustered trade, stubs aside, finds it counted as open. */
  ghost predicate ClosesFollowCounts(g: CT.Group, s: Sys, steps: seq<Step>) {
    steps != [] ==>
      var front := steps[..|steps| - 1];
      ClosesFollowCounts(g, s, front) && FollowsCount(Run(g, s, front), steps[|steps| - 1])
  }
}
