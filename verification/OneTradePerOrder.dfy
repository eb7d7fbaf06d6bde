/** Each order gets one trade of its own, whichever thread builds it: an execution on a market fill
    (src/execution/engine.py:512-564) or the poller on a limit fill
    (src/positions/pending_manager.py:203-259). Only the position manager adds a second
    (src/positions/manager.py:255-267). */
module OneTradePerOrder {
  import opened Basics
  import opened OrderProtocol
  import opened OrderSafety
  import opened Exposure
  import CT = ClusterTracker

  predicate HasIssued(issued: map<string, StoredTrade>, t: Ticket) {
    exists k :: k in issued && issued[k].ticket == t
  }

  /** The record whose trade is stored but which is not yet dropped. */
  predicate Resolving(poller: Poller, t: Ticket) {
    (poller.FillStored? || poller.FillCounted?) && poller.rec.ticket == t
  }

  predicate IssuedOnce(issued: map<string, StoredTrade>) {
    forall a, b :: a in issued && b in issued && a != b ==> issued[a].ticket != issued[b].ticket
  }

  /** An accepted order belongs to one execution and has no trade and no record. */
  predicate AcceptedAlone(s: Sys) {
    && (forall id :: id in s.execs && Accepted(s.execs[id].phase) ==>
          var t := s.execs[id].phase.ticket; t in s.orders && t !in s.records && !HasIssued(s.issued, t))
    && (forall a, b :: a in s.execs && b in s.execs && a != b && Accepted(s.execs[a].phase) && Accepted(s.execs[b].phase) ==>
          s.execs[a].phase.ticket != s.execs[b].phase.ticket)
  }

  predicate IssuedInv(s: Sys) {
    && IssuedOnce(s.issued) && AcceptedAlone(s)
    && (forall k :: k in s.issued ==> s.issued[k].ticket in s.orders)
    && (forall t :: t in s.records && HasIssued(s.issued, t) ==> Resolving(s.poller, t))
  }

  // ---------- Steps that build no trade and accept no order ----------

  predicate IssuedFrame(s: Sys, s': Sys) {
    && s'.issued == s.issued && s.orders.Keys <= s'.orders.Keys
    && (forall t :: t in s'.records ==> t in s.records && (Resolving(s.poller, t) ==> Resolving(s'.poller, t)))
    && AcceptsNothing(s, s')
  }

  lemma FrameKeepsIssuedInv(s: Sys, s': Sys)
    requires IssuedInv(s) && IssuedFrame(s, s')
    ensures IssuedInv(s')
  {
  }

  lemma AdmissionFrames(g: CT.Group, s: Sys, step: AdmissionStep)
    ensures IssuedFrame(s, ApplyAdmission(g, s, step))
  {
    ApplyAdmissionMoves(g, s, step);
    AdmissionAcceptsNothing(g, s, step);
  }

  lemma CountTradeFrames(s: Sys, id: string)
    ensures IssuedFrame(s, DoCountTrade(s, id))
  {
  }

  lemma FreeSlotFrames(s: Sys, id: string, phase: Phase)
    ensures IssuedFrame(s, DoFreeSlot(s, id, phase))
  {
  }

  lemma ManageFrames(s: Sys, step: ManagerStep)
    ensures IssuedFrame(s, ApplyManage(s, step))
  {
    ManageMoves(s, step);
  }

  lemma QuietPollFrames(s: Sys, step: PollStep)
    requires IsQuiet(step)
    ensures IssuedFrame(s, ApplyPoll(s, step))
  {
    QuietPollMoves(s, step);
    ResolvingStays(s, step);
  }

  lemma ResolvingStays(s: Sys, step: PollStep)
    requires IsQuiet(step)
    ensures var s' := ApplyPoll(s, step);
            forall t :: t in s'.records && Resolving(s.poller, t) ==> Resolving(s'.poller, t)
  {
  }

  lemma CountFillFrames(s: Sys)
    ensures IssuedFrame(s, DoCountFill(s))
  {
    CountFillMoves(s);
  }

  // ---------- Steps that do ----------

  lemma LimitPlacedKeepsIssuedInv(s: Sys, id: string, t: Ticket)
    requires IssuedInv(s) && RecordsOk(s)
    ensures IssuedInv(DoLimitPlaced(s, id, t))
  {
  }

  lemma MarketFilledKeepsIssuedInv(s: Sys, id: string, t: Ticket)
    requires IssuedInv(s) && RecordsOk(s)
    ensures IssuedInv(DoMarketFilled(s, id, t))
  {
  }

  lemma TrackKeepsIssuedInv(s: Sys, id: string, expiryAt: int)
    requires IssuedInv(s)
    ensures IssuedInv(DoTrackLimit(s, id, expiryAt))
  {
  }

  // A trade built for an order that nobody else answers for.
  lemma IssuingKeepsOnce(issued: map<string, StoredTrade>, k: string, trade: StoredTrade)
    requires IssuedOnce(issued) && k !in issued && !HasIssued(issued, trade.ticket)
    ensures IssuedOnce(issued[k := trade])
    ensures forall t :: HasIssued(issued[k := trade], t) ==> HasIssued(issued, t) || t == trade.ticket
  {
  }

  lemma BuildingKeepsIssuedInv(s: Sys, s': Sys, id: string, k: string)
    requires IssuedInv(s) && id in s.execs && s.execs[id].phase.MarketAccepted? && k !in s.issued
    requires s'.issued == s.issued[k := StoredTrade(s.execs[id].phase.ticket, s.execs[id].sig)]
    requires s'.orders == s.orders && s'.records == s.records && s'.poller == s.poller
    requires id in s'.execs && s'.execs == s.execs[id := s'.execs[id]] && !Accepted(s'.execs[id].phase)
    ensures IssuedInv(s')
  {
    IssuingKeepsOnce(s.issued, k, s'.issued[k]);
  }

  lemma StoringKeepsIssuedInv(s: Sys, id: string, k: string)
    requires IssuedInv(s)
    ensures IssuedInv(DoStoreTrade(s, id, k)) && IssuedInv(DoTrackingFails(s, id, k))
  {
    if id in s.execs && s.execs[id].phase.MarketAccepted? && IsNew(s, k) {
      BuildingKeepsIssuedInv(s, DoStoreTrade(s, id, k), id, k);
      BuildingKeepsIssuedInv(s, DoTrackingFails(s, id, k), id, k);
    }
  }

  lemma PlacementKeepsIssuedInv(s: Sys, step: PlacementStep)
    requires IssuedInv(s) && RecordsOk(s)
    ensures IssuedInv(ApplyPlacement(s, step))
  {
    match step
    case LimitPlaced(id, t) => LimitPlacedKeepsIssuedInv(s, id, t);
    case MarketFilled(id, t) => MarketFilledKeepsIssuedInv(s, id, t);
    case TrackLimit(id, expiryAt) => TrackKeepsIssuedInv(s, id, expiryAt);
    case StoreTrade(id, k) => StoringKeepsIssuedInv(s, id, k);
    case TrackingFails(id, k) => StoringKeepsIssuedInv(s, id, k);
    case CountTrade(id) => CountingFramesKeep(s, id, TradeCounted);
    case LimitFreesSlot(id) => CountingFramesKeep(s, id, LimitTracked);
    case MarketFreesSlot(id) => CountingFramesKeep(s, id, TradeCounted);
  }

  lemma CountingFramesKeep(s: Sys, id: string, phase: Phase)
    requires IssuedInv(s)
    ensures IssuedInv(DoCountTrade(s, id)) && IssuedInv(DoFreeSlot(s, id, phase))
  {
    CountTradeFrames(s, id);
    FreeSlotFrames(s, id, phase);
    FrameKeepsIssuedInv(s, DoCountTrade(s, id));
    FrameKeepsIssuedInv(s, DoFreeSlot(s, id, phase));
  }

  lemma FillKeepsIssuedInv(s: Sys, rec: Record, rest: View, k: string)
    requires IssuedInv(s) && s.poller.AtLoop? && rec.ticket in s.records && rec.ticket in s.orders
    ensures IssuedInv(HandleFill(s, rec, rest, k))
  {
    if IsNew(s, k) {
      assert !HasIssued(s.issued, rec.ticket);
      IssuingKeepsOnce(s.issued, k, StoredTrade(rec.ticket, rec.sig));
    }
  }

  lemma OtherHandlersFrame(s: Sys, rec: Record, rest: View, cancelHonoured: bool)
    requires s.poller.AtLoop?
    ensures IssuedFrame(s, HandleOurExpiry(s, rec, rest, cancelHonoured)) && IssuedFrame(s, HandleVanished(s, rec, rest))
    ensures IssuedFrame(s, s.(poller := AtLoop(rest))) && IssuedFrame(s, s.(poller := Idle))
  {
  }

  lemma DecideKeepsIssuedInv(s: Sys, k: string, cancelHonoured: bool)
    requires IssuedInv(s) && FillInv(s)
    ensures IssuedInv(DoDecide(s, k, cancelHonoured))
  {
    if s.poller.AtLoop? {
      var view, s' := s.poller.view, DoDecide(s, k, cancelHonoured);
      if view.todo != [] && view.todo[0].ticket in view.open {
        assert view.todo[0] in view.todo;
        FillKeepsIssuedInv(s, view.todo[0], view.(todo := view.todo[1..]), k);
      } else {
        var rec := if view.todo == [] then Record(0, Signal("", "", false), 0) else view.todo[0];
        OtherHandlersFrame(s, rec, if view.todo == [] then view else view.(todo := view.todo[1..]), cancelHonoured);
        FrameKeepsIssuedInv(s, s');
      }
    }
  }

  lemma PollKeepsIssuedInv(s: Sys, step: PollStep)
    requires IssuedInv(s) && FillInv(s)
    ensures IssuedInv(ApplyPoll(s, step))
  {
    match step
    case Decide(k, cancelHonoured) => DecideKeepsIssuedInv(s, k, cancelHonoured);
    case CountFill =>
      CountFillFrames(s);
      FrameKeepsIssuedInv(s, DoCountFill(s));
    case _ =>
      QuietPollFrames(s, step);
      FrameKeepsIssuedInv(s, ApplyPoll(s, step));
  }

  lemma BrokerFrames(s: Sys, step: BrokerStep)
    ensures IssuedFrame(s, ApplyBroker(s, step))
  {
  }

  lemma StepKeepsIssuedInv(g: CT.Group, s: Sys, step: Step)
    requires IssuedInv(s) && FillInv(s)
    ensures IssuedInv(Apply(g, s, step))
  {
    match step
    case Broker(b) =>
      BrokerFrames(s, b);
      FrameKeepsIssuedInv(s, ApplyBroker(s, b));
    case Admission(a) =>
      AdmissionFrames(g, s, a);
      FrameKeepsIssuedInv(s, ApplyAdmission(g, s, a));
    case Placement(p) => PlacementKeepsIssuedInv(s, p);
    case Poll(q) => PollKeepsIssuedInv(s, q);
    case Manage(m) =>
      ManageFrames(s, m);
      FrameKeepsIssuedInv(s, ApplyManage(s, m));
  }

  lemma {:induction false} RunKeepsIssuedInv(g: CT.Group, day: int, maxOpen: nat, steps: seq<Step>)
    ensures IssuedInv(Run(g, Start(day, maxOpen), steps))
  {
    if steps != [] {
      var front := steps[..|steps| - 1];
      RunKeepsIssuedInv(g, day, maxOpen, front);
      RunKeepsFillInv(g, day, maxOpen, front);
      StepKeepsIssuedInv(g, Run(g, Start(day, maxOpen), front), steps[|steps| - 1]);
    }
  }

  // ---------- Taken in at most once at a time ----------

  predicate AdoptedApart(s: Sys) {
    && s.adopted <= s.store.Keys
    && forall a, b :: a in s.adopted && b in s.adopted && a != b ==> s.store[a].ticket != s.store[b].ticket
  }

  // Steps that only add to the store, and take nothing in.
  predicate StoreGrows(s: Sys, s': Sys) {
    s'.adopted == s.adopted && forall k :: k in s.store ==> k in s'.store && s'.store[k] == s.store[k]
  }

  lemma HandlersGrowStore(s: Sys, rec: Record, rest: View, k: string, cancelHonoured: bool)
    ensures StoreGrows(s, HandleFill(s, rec, rest, k)) && StoreGrows(s, HandleOurExpiry(s, rec, rest, cancelHonoured))
    ensures StoreGrows(s, HandleVanished(s, rec, rest)) && StoreGrows(s, s.(poller := AtLoop(rest)))
  {
  }

  lemma DecideGrowsStore(s: Sys, k: string, cancelHonoured: bool)
    ensures StoreGrows(s, DoDecide(s, k, cancelHonoured))
  {
    if s.poller.AtLoop? && s.poller.view.todo != [] {
      var view := s.poller.view;
      HandlersGrowStore(s, view.todo[0], view.(todo := view.todo[1..]), k, cancelHonoured);
    }
  }

  lemma PollGrowsStore(s: Sys, step: PollStep)
    ensures StoreGrows(s, ApplyPoll(s, step))
  {
    match step
    case Decide(k, cancelHonoured) => DecideGrowsStore(s, k, cancelHonoured);
    case CountFill => CountFillMoves(s);
    case _ => QuietPollMoves(s, step);
  }

  lemma PlacementGrowsStore(s: Sys, step: PlacementStep)
    ensures StoreGrows(s, ApplyPlacement(s, step))
  {
  }

  lemma ManageKeepsApart(s: Sys, step: ManagerStep)
    requires AdoptedApart(s)
    ensures AdoptedApart(ApplyManage(s, step))
  {
  }

  lemma StepKeepsApart(g: CT.Group, s: Sys, step: Step)
    requires AdoptedApart(s)
    ensures AdoptedApart(Apply(g, s, step))
  {
    match step
    case Broker(_) =>
    case Admission(a) => ApplyAdmissionMoves(g, s, a);
    case Placement(p) => PlacementGrowsStore(s, p);
    case Poll(q) => PollGrowsStore(s, q);
    case Manage(m) => ManageKeepsApart(s, m);
  }

  lemma {:induction false} RunKeepsApart(g: CT.Group, day: int, maxOpen: nat, steps: seq<Step>)
    ensures AdoptedApart(Run(g, Start(day, maxOpen), steps))
  {
    if steps != [] {
      var front := steps[..|steps| - 1];
      RunKeepsApart(g, day, maxOpen, front);
      StepKeepsApart(g, Run(g, Start(day, maxOpen), front), steps[|steps| - 1]);
    }
  }

  // ---------- Theorems ----------

  /** One order, one trade: over every interleaving, no two trades built by executions and the poller
      belong to the same order. */
  lemma NoOrderIsTradedTwice(g: CT.Group, day: int, maxOpen: nat, steps: seq<Step>, a: string, b: string)
    requires var s := Run(g, Start(day, maxOpen), steps); a in s.issued && b in s.issued && a != b
    ensures var s := Run(g, Start(day, maxOpen), steps); s.issued[a].ticket != s.issued[b].ticket
  {
    RunKeepsIssuedInv(g, day, maxOpen, steps);
  }

  /** Two stored trades share a position only when a position poll took in exactly one of them. */
  lemma SharedPositionWasTakenIn(g: CT.Group, day: int, maxOpen: nat, steps: seq<Step>, a: string, b: string)
    requires var s := Run(g, Start(day, maxOpen), steps);
             a in s.store && b in s.store && a != b && s.store[a].ticket == s.store[b].ticket
    ensures var s := Run(g, Start(day, maxOpen), steps); a in s.adopted <==> b !in s.adopted
  {
    RunKeepsIssuedInv(g, day, maxOpen, steps);
    RunKeepsExposureInv(g, day, maxOpen, steps);
    RunKeepsApart(g, day, maxOpen, steps);
  }

  /** Hence no position has more than two trades in the store. */
  lemma AtMostTwoTradesPerPosition(g: CT.Group, day: int, maxOpen: nat, steps: seq<Step>, a: string, b: string, c: string)
    requires var s := Run(g, Start(day, maxOpen), steps);
             a in s.store && b in s.store && c in s.store && s.store[a].ticket == s.store[b].ticket == s.store[c].ticket
    ensures a == b || b == c || a == c
  {
    if a != b && b != c && a != c {
      SharedPositionWasTakenIn(g, day, maxOpen, steps, a, b);
      SharedPositionWasTakenIn(g, day, maxOpen, steps, b, c);
      SharedPositionWasTakenIn(g, day, maxOpen, steps, a, c);
      assert false;
    }
  }
}
