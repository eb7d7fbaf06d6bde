/** What the cluster shows as open against what the store holds (src/execution/engine.py:536-584,
    src/positions/pending_manager.py:226-249, src/positions/manager.py:255-308,
    src/risk/cluster_tracker.py:173-225). A trade is stored before the cluster counts it, so a close can
    overtake the count; and a position taken in by a poll is never counted at all. */
module Exposure {
  import opened Basics
  import opened OrderProtocol
  import opened Conservation
  import CT = ClusterTracker

  /** Stored, and whoever stored it has yet to have it counted. */
  predicate AwaitedByExec(execs: map<string, Exec>, tradeId: string) {
    exists id :: id in execs && execs[id].phase == TradeStored(tradeId)
  }

  predicate AwaitedByPoller(poller: Poller, tradeId: string) {
    poller.FillStored? && poller.tradeId == tradeId
  }

  predicate Awaited(s: Sys, tradeId: string) {
    AwaitedByExec(s.execs, tradeId) || AwaitedByPoller(s.poller, tradeId)
  }

  predicate StoredClustered(s: Sys, tradeId: string) {
    tradeId in s.store && s.store[tradeId].sig.clustered
  }

  /** The trade an execution or the poller is about to count is the one it stored, unless its close
      came first. */
  predicate CountsItsOwn(s: Sys, tradeId: string, sig: Signal) {
    && tradeId in s.issued && s.issued[tradeId].sig == sig
    && (sig.clustered && (tradeId !in s.store || tradeId in s.adopted) ==> tradeId in s.overtaken)
  }

  ghost predicate AwaitingOk(s: Sys) {
    && (forall id :: id in s.execs && s.execs[id].phase.TradeStored? ==> CountsItsOwn(s, s.execs[id].phase.tradeId, s.execs[id].sig))
    && (s.poller.FillStored? ==> CountsItsOwn(s, s.poller.tradeId, s.poller.rec.sig))
    && (forall a, b :: a in s.execs && b in s.execs && s.execs[a].phase.TradeStored? && s.execs[b].phase == s.execs[a].phase ==> a == b)
    && (s.poller.FillStored? ==> !AwaitedByExec(s.execs, s.poller.tradeId))
  }

  /** Stored trades are as issued or stubs; what is overtaken was issued, and is back in the store only
      by adoption. */
  predicate IdsOk(s: Sys) {
    && (forall k :: k in s.store ==> if k in s.issued then s.store[k] == s.issued[k] else k in s.adopted)
    && s.adopted <= s.store.Keys
    && (forall k :: k in s.overtaken ==> k in s.issued && s.issued[k].sig.clustered && (k in s.store ==> k in s.adopted))
  }

  /** Counted once its count has come: stored without an adoption, or overtaken by its close. */
  predicate Countable(s: Sys, k: string) {
    (StoredClustered(s, k) && k !in s.adopted) || k in s.overtaken
  }

  /** Shown as open, exactly: counted, and either still stored or overtaken by its close. */
  ghost predicate OpenOk(s: Sys) {
    forall k: string :: k in s.cluster.open <==> !Awaited(s, k) && Countable(s, k)
  }

  ghost predicate ExposureInv(s: Sys) {
    IdsOk(s) && AwaitingOk(s) && OpenOk(s)
  }

  // ---------- Every step keeps it ----------

  // Steps that neither store, count nor close a trade.
  ghost predicate ExposureFrame(s: Sys, s': Sys) {
    && s'.store == s.store && s'.issued == s.issued && s'.adopted == s.adopted && s'.overtaken == s.overtaken
    && s'.cluster.open == s.cluster.open
    && (s'.poller == s.poller || (!s.poller.FillStored? && !s'.poller.FillStored?))
    && (forall id :: id in s'.execs && s'.execs[id].phase.TradeStored? ==> id in s.execs && s'.execs[id] == s.execs[id])
    && (forall id :: id in s.execs && s.execs[id].phase.TradeStored? ==> id in s'.execs && s'.execs[id] == s.execs[id])
  }

  lemma FrameKeepsAwaited(s: Sys, s': Sys, k: string)
    requires ExposureFrame(s, s')
    ensures Awaited(s', k) <==> Awaited(s, k)
    ensures AwaitedByExec(s'.execs, k) <==> AwaitedByExec(s.execs, k)
  {
    if AwaitedByExec(s.execs, k) {
      var id :| id in s.execs && s.execs[id].phase == TradeStored(k);
      assert s'.execs[id].phase == TradeStored(k);
    }
    if AwaitedByExec(s'.execs, k) {
      var id :| id in s'.execs && s'.execs[id].phase == TradeStored(k);
      assert s.execs[id].phase == TradeStored(k);
    }
  }

  lemma FrameKeepsExposureInv(s: Sys, s': Sys)
    requires ExposureInv(s) && ExposureFrame(s, s')
    ensures ExposureInv(s')
  {
    forall k: string ensures Awaited(s', k) <==> Awaited(s, k) {
      FrameKeepsAwaited(s, s', k);
    }
    if s'.poller.FillStored? {
      FrameKeepsAwaited(s, s', s'.poller.tradeId);
    }
  }

  lemma GateFrames(g: CT.Group, s: Sys, sig: Signal)
    ensures ExposureFrame(s, DoPreview(g, s, sig)) && ExposureFrame(s, s.(gate := Unlocked))
  {
    assert DoPreview(g, s, sig) == s.(gate := DoPreview(g, s, sig).gate);
  }

  lemma AdmitFrames(s: Sys)
    requires s.gate.Previewed? ==> s.gate.sig.id !in s.execs
    ensures ExposureFrame(s, DoAdmit(s))
  {
  }

  lemma SlotFailingFrames(s: Sys, id: string)
    ensures ExposureFrame(s, DoFailFreesSlot(s, id))
  {
  }

  lemma ReleaseFailingFrames(s: Sys, id: string)
    ensures ExposureFrame(s, DoFailReleases(s, id))
  {
  }

  lemma AdmissionKeepsExposureInv(g: CT.Group, s: Sys, step: AdmissionStep)
    requires ExposureInv(s) && CustodyInv(s)
    ensures ExposureInv(ApplyAdmission(g, s, step))
  {
    match step {
      case PreviewSignal(sig) => GateFrames(g, s, sig);
      case RefuseSignal => GateFrames(g, s, Signal("", "", false));
      case AdmitSignal => AdmitFrames(s);
      case FailFreesSlot(id) => SlotFailingFrames(s, id);
      case FailReleases(id) => ReleaseFailingFrames(s, id);
    }
    FrameKeepsExposureInv(s, ApplyAdmission(g, s, step));
  }

  lemma LimitPlacedFrames(s: Sys, id: string, t: Ticket)
    ensures ExposureFrame(s, DoLimitPlaced(s, id, t))
  {
  }

  lemma MarketFilledFrames(s: Sys, id: string, t: Ticket)
    ensures ExposureFrame(s, DoMarketFilled(s, id, t))
  {
  }

  lemma TrackFrames(s: Sys, id: string, expiryAt: int)
    ensures ExposureFrame(s, DoTrackLimit(s, id, expiryAt))
  {
  }

  lemma FreeSlotFrames(s: Sys, id: string, phase: Phase)
    requires !phase.TradeStored?
    ensures ExposureFrame(s, DoFreeSlot(s, id, phase))
  {
  }

  // A stored trade waits for its count under an id that is new to everyone.
  lemma StoringKeepsExposureInv(s: Sys, s': Sys, k: string, trade: StoredTrade)
    requires ExposureInv(s) && IsNew(s, k)
    requires s'.store == s.store[k := trade] && s'.issued == s.issued[k := trade] && s'.adopted == s.adopted
    requires s'.overtaken == s.overtaken && s'.cluster == s.cluster
    requires AwaitingOk(s') && Awaited(s', k) && forall other: string :: other != k ==> (Awaited(s', other) <==> Awaited(s, other))
    ensures ExposureInv(s')
  {
    forall other: string ensures other in s'.cluster.open <==> !Awaited(s', other) && Countable(s', other) {
      assert other in s.cluster.open <==> !Awaited(s, other) && Countable(s, other);
    }
  }

  lemma StoreTradeAwaits(s: Sys, id: string, k: string)
    requires ExposureInv(s) && id in s.execs && s.execs[id].phase.MarketAccepted? && IsNew(s, k)
    ensures var s' := DoStoreTrade(s, id, k);
            AwaitingOk(s') && Awaited(s', k) && forall other: string :: other != k ==> (Awaited(s', other) <==> Awaited(s, other))
  {
    var s' := DoStoreTrade(s, id, k);
    assert s'.execs[id].phase == TradeStored(k);
    forall other: string | other != k ensures AwaitedByExec(s'.execs, other) <==> AwaitedByExec(s.execs, other) {
      if AwaitedByExec(s.execs, other) {
        var j :| j in s.execs && s.execs[j].phase == TradeStored(other);
        assert s'.execs[j].phase == TradeStored(other);
      }
    }
    assert forall j :: j in s.execs && s.execs[j].phase.TradeStored? ==> s.execs[j].phase.tradeId != k;
  }

  lemma StoreTradeKeepsExposureInv(s: Sys, id: string, k: string)
    requires ExposureInv(s)
    ensures ExposureInv(DoStoreTrade(s, id, k))
  {
    if id in s.execs && s.execs[id].phase.MarketAccepted? && IsNew(s, k) {
      StoreTradeAwaits(s, id, k);
      StoringKeepsExposureInv(s, DoStoreTrade(s, id, k), k, StoredTrade(s.execs[id].phase.ticket, s.execs[id].sig));
    }
  }

  // A count opens the trade, clustered or not at all.
  lemma CountingKeepsExposureInv(s: Sys, s': Sys, k: string, sig: Signal)
    requires ExposureInv(s) && Awaited(s, k) && CountsItsOwn(s, k, sig)
    requires s'.store == s.store && s'.issued == s.issued && s'.adopted == s.adopted && s'.overtaken == s.overtaken
    requires s'.cluster.open.Keys == s.cluster.open.Keys + if sig.clustered then {k} else {}
    requires AwaitingOk(s') && !Awaited(s', k) && forall other: string :: other != k ==> (Awaited(s', other) <==> Awaited(s, other))
    ensures ExposureInv(s')
  {
    forall other: string ensures other in s'.cluster.open <==> !Awaited(s', other) && Countable(s', other) {
      assert other in s'.cluster.open <==> other in s'.cluster.open.Keys;
      assert other in s.cluster.open <==> !Awaited(s, other) && Countable(s, other);
    }
  }

  lemma CountTradeAwaits(s: Sys, id: string)
    requires ExposureInv(s) && id in s.execs && s.execs[id].phase.TradeStored?
    ensures var k, s' := s.execs[id].phase.tradeId, DoCountTrade(s, id);
            AwaitingOk(s') && Awaited(s, k) && !Awaited(s', k)
            && forall other: string :: other != k ==> (Awaited(s', other) <==> Awaited(s, other))
  {
    var k, s' := s.execs[id].phase.tradeId, DoCountTrade(s, id);
    assert s.execs[id].phase == TradeStored(k);
    assert AwaitedByExec(s.execs, k);
    forall other: string | other != k ensures AwaitedByExec(s'.execs, other) <==> AwaitedByExec(s.execs, other) {
      if AwaitedByExec(s.execs, other) {
        var j :| j in s.execs && s.execs[j].phase == TradeStored(other);
        assert s'.execs[j].phase == TradeStored(other);
      }
    }
    assert AwaitedByExec(s'.execs, k) ==> false;
  }

  lemma CountTradeKeepsExposureInv(s: Sys, id: string)
    requires ExposureInv(s)
    ensures ExposureInv(DoCountTrade(s, id))
  {
    if id in s.execs && s.execs[id].phase.TradeStored? {
      CountTradeAwaits(s, id);
      CountingKeepsExposureInv(s, DoCountTrade(s, id), s.execs[id].phase.tradeId, s.execs[id].sig);
    }
  }

  // A trade issued but never stored leaves everything else as it was.
  lemma TrackingFailsKeepsExposureInv(s: Sys, id: string, k: string)
    requires ExposureInv(s)
    ensures ExposureInv(DoTrackingFails(s, id, k))
  {
    if id in s.execs && s.execs[id].phase.MarketAccepted? && IsNew(s, k) {
      var s' := DoTrackingFails(s, id, k);
      var moved := s.(execs := s'.execs);
      FrameKeepsExposureInv(s, moved);
      IssuingKeepsExposureInv(moved, k, StoredTrade(s.execs[id].phase.ticket, s.execs[id].sig));
    }
  }

  lemma IssuingKeepsExposureInv(s: Sys, k: string, trade: StoredTrade)
    requires ExposureInv(s) && IsNew(s, k)
    ensures ExposureInv(s.(issued := s.issued[k := trade]))
  {
    var s' := s.(issued := s.issued[k := trade]);
    forall other: string ensures other in s'.cluster.open <==> !Awaited(s', other) && Countable(s', other) {
      assert other in s.cluster.open <==> !Awaited(s, other) && Countable(s, other);
    }
  }

  lemma PlacementKeepsExposureInv(s: Sys, step: PlacementStep)
    requires ExposureInv(s)
    ensures ExposureInv(ApplyPlacement(s, step))
  {
    match step {
      case StoreTrade(id, k) => StoreTradeKeepsExposureInv(s, id, k);
      case TrackingFails(id, k) => TrackingFailsKeepsExposureInv(s, id, k);
      case CountTrade(id) => CountTradeKeepsExposureInv(s, id);
      case LimitPlaced(id, t) => LimitPlacedFrames(s, id, t);
      case MarketFilled(id, t) => MarketFilledFrames(s, id, t);
      case TrackLimit(id, expiryAt) => TrackFrames(s, id, expiryAt);
      case LimitFreesSlot(id) => FreeSlotFrames(s, id, LimitTracked);
      case MarketFreesSlot(id) => FreeSlotFrames(s, id, TradeCounted);
    }
    if !step.StoreTrade? && !step.CountTrade? && !step.TrackingFails? {
      FrameKeepsExposureInv(s, ApplyPlacement(s, step));
    }
  }

  lemma HandleFillKeepsExposureInv(s: Sys, rec: Record, rest: View, k: string)
    requires ExposureInv(s) && s.poller.AtLoop?
    ensures ExposureInv(HandleFill(s, rec, rest, k))
  {
    if IsNew(s, k) {
      var s' := HandleFill(s, rec, rest, k);
      assert !AwaitedByExec(s.execs, k);
      assert AwaitingOk(s');
      StoringKeepsExposureInv(s, s', k, StoredTrade(rec.ticket, rec.sig));
    }
  }

  lemma OtherHandlersFrame(s: Sys, rec: Record, rest: View, cancelHonoured: bool)
    requires s.poller.AtLoop?
    ensures ExposureFrame(s, HandleOurExpiry(s, rec, rest, cancelHonoured)) && ExposureFrame(s, HandleVanished(s, rec, rest))
    ensures ExposureFrame(s, s.(poller := AtLoop(rest))) && ExposureFrame(s, s.(poller := Idle)) && ExposureFrame(s, s)
  {
  }

  lemma DecideKeepsExposureInv(s: Sys, k: string, cancelHonoured: bool)
    requires ExposureInv(s)
    ensures ExposureInv(DoDecide(s, k, cancelHonoured))
  {
    if s.poller.AtLoop? {
      var view, s' := s.poller.view, DoDecide(s, k, cancelHonoured);
      if view.todo != [] && view.todo[0].ticket in view.open {
        HandleFillKeepsExposureInv(s, view.todo[0], view.(todo := view.todo[1..]), k);
      } else {
        var rec := if view.todo == [] then Record(0, Signal("", "", false), 0) else view.todo[0];
        OtherHandlersFrame(s, rec, if view.todo == [] then view else view.(todo := view.todo[1..]), cancelHonoured);
        FrameKeepsExposureInv(s, s');
      }
    }
  }

  lemma CountFillKeepsExposureInv(s: Sys)
    requires ExposureInv(s)
    ensures ExposureInv(DoCountFill(s))
  {
    if s.poller.FillStored? {
      CountingKeepsExposureInv(s, DoCountFill(s), s.poller.tradeId, s.poller.rec.sig);
    }
  }

  // The poller moves between states in which it has stored nothing uncounted; trades and executions stay.
  predicate PollerAlone(s: Sys, s': Sys) {
    && s'.store == s.store && s'.issued == s.issued && s'.adopted == s.adopted && s'.overtaken == s.overtaken && s'.execs == s.execs
    && s'.cluster.open == s.cluster.open
    && (s'.poller == s.poller || (!s.poller.FillStored? && !s'.poller.FillStored?))
  }

  lemma PollerAloneFrames(s: Sys, s': Sys)
    requires PollerAlone(s, s')
    ensures ExposureFrame(s, s')
  {
  }

  lemma QuietPollFrames(s: Sys, step: PollStep)
    requires IsQuiet(step)
    ensures ExposureFrame(s, ApplyPoll(s, step))
  {
    QuietPollMoves(s, step);
    PollerAloneFrames(s, ApplyPoll(s, step));
  }

  lemma PollKeepsExposureInv(s: Sys, step: PollStep)
    requires ExposureInv(s)
    ensures ExposureInv(ApplyPoll(s, step))
  {
    match step
    case Decide(k, cancelHonoured) => DecideKeepsExposureInv(s, k, cancelHonoured);
    case CountFill => CountFillKeepsExposureInv(s);
    case _ =>
      QuietPollFrames(s, step);
      FrameKeepsExposureInv(s, ApplyPoll(s, step));
  }

  lemma CloseKeepsIds(s: Sys, k: string, rr: Option<real>)
    requires IdsOk(s)
    ensures IdsOk(DoCloseTrade(s, k, rr))
  {
  }

  // Whoever is about to count the closed trade still counts its own.
  lemma CloseKeepsCounter(s: Sys, k: string, rr: Option<real>, awaited: string, sig: Signal)
    requires ExposureInv(s) && Closable(s, k) && Awaited(s, awaited) && CountsItsOwn(s, awaited, sig)
    ensures CountsItsOwn(DoCloseTrade(s, k, rr), awaited, sig)
  {
    assert awaited !in s.cluster.open;
  }

  lemma CloseKeepsAwaiting(s: Sys, k: string, rr: Option<real>)
    requires ExposureInv(s) && Closable(s, k)
    ensures AwaitingOk(DoCloseTrade(s, k, rr))
  {
    var s' := DoCloseTrade(s, k, rr);
    ManageMoves(s, CloseTrade(k, rr));
    forall id | id in s.execs && s.execs[id].phase.TradeStored? ensures CountsItsOwn(s', s.execs[id].phase.tradeId, s.execs[id].sig) {
      assert s.execs[id].phase == TradeStored(s.execs[id].phase.tradeId);
      CloseKeepsCounter(s, k, rr, s.execs[id].phase.tradeId, s.execs[id].sig);
    }
    if s.poller.FillStored? {
      CloseKeepsCounter(s, k, rr, s.poller.tradeId, s.poller.rec.sig);
    }
  }

  // The books a close leaves: the trade is gone, and its entry with it unless it is still to come.
  lemma CloseBooks(s: Sys, k: string, rr: Option<real>, other: string)
    requires ExposureInv(s) && Closable(s, k)
    ensures var s' := DoCloseTrade(s, k, rr);
            && (Awaited(s', other) <==> Awaited(s, other))
            && (other in s'.cluster.open <==> other in s.cluster.open && !(other == k && StoredClustered(s, k)))
            && (other != k ==> (Countable(s', other) <==> Countable(s, other)))
  {
    ManageMoves(s, CloseTrade(k, rr));
  }

  lemma CloseKeepsExposureInv(s: Sys, k: string, rr: Option<real>)
    requires ExposureInv(s)
    ensures ExposureInv(DoCloseTrade(s, k, rr))
  {
    if Closable(s, k) {
      var s' := DoCloseTrade(s, k, rr);
      CloseKeepsIds(s, k, rr);
      CloseKeepsAwaiting(s, k, rr);
      forall other: string ensures other in s'.cluster.open <==> !Awaited(s', other) && Countable(s', other) {
        CloseBooks(s, k, rr, other);
        assert other in s.cluster.open <==> !Awaited(s, other) && Countable(s, other);
      }
    }
  }

  // An adopted trade has no count to come but the one its close overtook.
  lemma AdoptKeepsExposureInv(s: Sys, t: Ticket, k: string, stub: StoredTrade)
    requires ExposureInv(s)
    ensures ExposureInv(DoAdopt(s, t, k, stub))
  {
    var s' := DoAdopt(s, t, k, stub);
    if s' != s {
      AdoptKeepsAwaiting(s, t, k, stub);
      forall other: string ensures other in s'.cluster.open <==> !Awaited(s', other) && Countable(s', other) {
        assert other in s.cluster.open <==> !Awaited(s, other) && Countable(s, other);
        assert Countable(s', other) <==> Countable(s, other);
      }
    }
  }

  lemma AdoptKeepsAwaiting(s: Sys, t: Ticket, k: string, stub: StoredTrade)
    requires ExposureInv(s)
    ensures AwaitingOk(DoAdopt(s, t, k, stub)) && IdsOk(DoAdopt(s, t, k, stub))
  {
  }

  lemma ManageKeepsExposureInv(s: Sys, step: ManagerStep)
    requires ExposureInv(s)
    ensures ExposureInv(ApplyManage(s, step))
  {
    match step
    case ReadBroker => FrameKeepsExposureInv(s, DoReadBroker(s));
    case AdoptPosition(t, k, symbol, clustered) => AdoptKeepsExposureInv(s, t, k, Stub(t, symbol, clustered));
    case CloseTrade(k, rr) => CloseKeepsExposureInv(s, k, rr);
  }

  lemma BrokerFrames(s: Sys, step: BrokerStep)
    ensures ExposureFrame(s, ApplyBroker(s, step))
  {
  }

  lemma StepKeepsExposureInv(g: CT.Group, s: Sys, step: Step)
    requires ExposureInv(s) && CustodyInv(s)
    ensures ExposureInv(Apply(g, s, step))
  {
    match step
    case Broker(b) =>
      BrokerFrames(s, b);
      FrameKeepsExposureInv(s, ApplyBroker(s, b));
    case Admission(a) => AdmissionKeepsExposureInv(g, s, a);
    case Placement(p) => PlacementKeepsExposureInv(s, p);
    case Poll(q) => PollKeepsExposureInv(s, q);
    case Manage(m) => ManageKeepsExposureInv(s, m);
  }

  lemma {:induction false} RunKeepsExposureInv(g: CT.Group, day: int, maxOpen: nat, steps: seq<Step>)
    ensures ExposureInv(Run(g, Start(day, maxOpen), steps))
  {
    if steps != [] {
      var front := steps[..|steps| - 1];
      RunKeepsExposureInv(g, day, maxOpen, front);
      RunKeepsAll(g, day, maxOpen, front);
      StepKeepsExposureInv(g, Run(g, Start(day, maxOpen), front), steps[|steps| - 1]);
    }
  }

  // ---------- At rest ----------

  /** The clustered trades the store holds. */
  function StoredInCluster(s: Sys): set<string> {
    set k | k in s.store && s.store[k].sig.clustered
  }

  /** At rest the cluster shows as open the stored clustered trades that no poll took in, and the
      overtaken ones. */
  lemma OpenAtRest(g: CT.Group, day: int, maxOpen: nat, steps: seq<Step>)
    requires Quiescent(Run(g, Start(day, maxOpen), steps))
    ensures var s := Run(g, Start(day, maxOpen), steps);
            s.cluster.open.Keys == (StoredInCluster(s) - s.adopted) + s.overtaken && (StoredInCluster(s) - s.adopted) !! s.overtaken
  {
    var s := Run(g, Start(day, maxOpen), steps);
    RunKeepsExposureInv(g, day, maxOpen, steps);
    forall k: string ensures k in s.cluster.open.Keys <==> k in (StoredInCluster(s) - s.adopted) + s.overtaken {
      assert !Awaited(s, k);
      assert k in s.cluster.open <==> Countable(s, k);
    }
  }

  /** At rest the cluster's exposure is that of the store exactly when the overtaken trades are the
      clustered trades taken in: in particular when there are neither. */
  lemma ExposureIsTheStoreIff(g: CT.Group, day: int, maxOpen: nat, steps: seq<Step>)
    requires Quiescent(Run(g, Start(day, maxOpen), steps))
    ensures var s := Run(g, Start(day, maxOpen), steps);
            s.cluster.open.Keys == StoredInCluster(s) <==> s.overtaken == StoredInCluster(s) * s.adopted
  {
    var s := Run(g, Start(day, maxOpen), steps);
    OpenAtRest(g, day, maxOpen, steps);
    RunKeepsExposureInv(g, day, maxOpen, steps);
    var stored := StoredInCluster(s);
    assert stored == (stored - s.adopted) + (stored * s.adopted);
    assert forall k :: k in s.overtaken && k in stored ==> k in s.adopted;
  }

  // ---------- In terms of the run ----------

  /** When every close came after its count, nothing is overtaken. */
  lemma {:induction false} CountedClosesOvertakeNothing(g: CT.Group, day: int, maxOpen: nat, steps: seq<Step>)
    requires ClosesFollowCounts(g, Start(day, maxOpen), steps)
    ensures Run(g, Start(day, maxOpen), steps).overtaken == {}
  {
    if steps != [] {
      var front, step := steps[..|steps| - 1], steps[|steps| - 1];
      CountedClosesOvertakeNothing(g, day, maxOpen, front);
      RunKeepsExposureInv(g, day, maxOpen, front);
      if !IsClose(step) {
        OnlyClosesUseSlack(g, Run(g, Start(day, maxOpen), front), step);
      }
    }
  }

  /** When every close came after its count, the cluster's exposure at rest is that of the store exactly
      when no clustered trade in it was taken in by a poll. */
  lemma CountedExposureIsTheStoreIff(g: CT.Group, day: int, maxOpen: nat, steps: seq<Step>)
    requires Quiescent(Run(g, Start(day, maxOpen), steps)) && ClosesFollowCounts(g, Start(day, maxOpen), steps)
    ensures var s := Run(g, Start(day, maxOpen), steps);
            s.cluster.open.Keys == StoredInCluster(s) <==> StoredInCluster(s) * s.adopted == {}
  {
    ExposureIsTheStoreIff(g, day, maxOpen, steps);
    CountedClosesOvertakeNothing(g, day, maxOpen, steps);
  }

  predicate NoAdoption(steps: seq<Step>) {
    forall step :: step in steps ==> !(step.Manage? && step.m.AdoptPosition?)
  }

  lemma StepAdoptsNothing(g: CT.Group, s: Sys, step: Step)
    requires s.adopted == {} && !(step.Manage? && step.m.AdoptPosition?)
    ensures Apply(g, s, step).adopted == {}
  {
    match step
    case Broker(_) =>
    case Admission(a) => ApplyAdmissionMoves(g, s, a);
    case Placement(p) => PlacementAdoptsNothing(s, p);
    case Poll(q) => PollAdoptsNothing(s, q);
    case Manage(_) =>
  }

  lemma PlacementAdoptsNothing(s: Sys, step: PlacementStep)
    ensures ApplyPlacement(s, step).adopted == s.adopted
  {
  }

  lemma PollAdoptsNothing(s: Sys, step: PollStep)
    ensures ApplyPoll(s, step).adopted == s.adopted
  {
    if step.Decide? {
      DoDecideMoves(s, step.tradeId, step.cancelHonoured);
    }
  }

  lemma CloseOvertakesIff(s: Sys, step: ManagerStep)
    requires ExposureInv(s) && s.adopted == {} && step.CloseTrade?
    ensures ApplyManage(s, step).overtaken == {} <==> s.overtaken == {} && FollowsCount(s, Manage(step))
  {
  }

  /** Without adoptions an overtaken trade stays overtaken. */
  lemma {:induction false} NothingOvertakenIff(g: CT.Group, day: int, maxOpen: nat, steps: seq<Step>)
    requires NoAdoption(steps)
    ensures var s := Run(g, Start(day, maxOpen), steps);
            s.adopted == {} && (s.overtaken == {} <==> ClosesFollowCounts(g, Start(day, maxOpen), steps))
  {
    if steps != [] {
      var front, step := steps[..|steps| - 1], steps[|steps| - 1];
      var s := Run(g, Start(day, maxOpen), front);
      NothingOvertakenIff(g, day, maxOpen, front);
      RunKeepsExposureInv(g, day, maxOpen, front);
      StepAdoptsNothing(g, s, step);
      if IsClose(step) {
        CloseOvertakesIff(s, step.m);
      } else {
        OnlyClosesUseSlack(g, s, step);
      }
    }
  }

  /** Without adoptions the cluster's exposure at rest is that of the store exactly when every close came
      after its count. */
  lemma UnadoptedExposureIsTheStoreIff(g: CT.Group, day: int, maxOpen: nat, steps: seq<Step>)
    requires Quiescent(Run(g, Start(day, maxOpen), steps)) && NoAdoption(steps)
    ensures var s := Run(g, Start(day, maxOpen), steps);
            s.cluster.open.Keys == StoredInCluster(s) <==> ClosesFollowCounts(g, Start(day, maxOpen), steps)
  {
    ExposureIsTheStoreIff(g, day, maxOpen, steps);
    NothingOvertakenIff(g, day, maxOpen, steps);
  }

  // ---------- An overtaken trade whose position is over ----------

  /** No position poll can take the trade in again. */
  predicate Gone(s: Sys, k: string) {
    && k in s.issued && k !in s.store && k in s.overtaken
    && s.issued[k].ticket in s.orders && s.orders[s.issued[k].ticket] == Closed && s.issued[k].ticket !in s.seen
  }

  // Steps that store nothing under the id and reopen no order.
  predicate GoneFrame(s: Sys, s': Sys, k: string) {
    && (k in s.issued ==> k in s'.issued && s'.issued[k] == s.issued[k])
    && (k in s.issued && k !in s.store ==> k !in s'.store)
    && s'.overtaken == s.overtaken && s'.seen == s.seen
    && forall t :: t in s.orders && s.orders[t] == Closed ==> t in s'.orders && s'.orders[t] == Closed
  }

  lemma PlacementLeavesGone(s: Sys, step: PlacementStep, k: string)
    ensures GoneFrame(s, ApplyPlacement(s, step), k)
  {
  }

  lemma FillLeavesGone(s: Sys, rec: Record, rest: View, tradeId: string, k: string)
    ensures GoneFrame(s, HandleFill(s, rec, rest, tradeId), k)
  {
  }

  lemma OtherHandlersLeaveGone(s: Sys, rec: Record, rest: View, cancelHonoured: bool, k: string)
    ensures GoneFrame(s, HandleOurExpiry(s, rec, rest, cancelHonoured), k)
    ensures GoneFrame(s, HandleVanished(s, rec, rest), k) && GoneFrame(s, s.(poller := AtLoop(rest)), k)
  {
  }

  lemma DecideLeavesGone(s: Sys, tradeId: string, cancelHonoured: bool, k: string)
    ensures GoneFrame(s, DoDecide(s, tradeId, cancelHonoured), k)
  {
    if s.poller.AtLoop? && s.poller.view.todo != [] {
      var view := s.poller.view;
      FillLeavesGone(s, view.todo[0], view.(todo := view.todo[1..]), tradeId, k);
      OtherHandlersLeaveGone(s, view.todo[0], view.(todo := view.todo[1..]), cancelHonoured, k);
    }
  }

  lemma PollLeavesGone(s: Sys, step: PollStep, k: string)
    ensures GoneFrame(s, ApplyPoll(s, step), k)
  {
    match step
    case Decide(tradeId, cancelHonoured) => DecideLeavesGone(s, tradeId, cancelHonoured, k);
    case CountFill => CountFillMoves(s);
    case _ => QuietPollMoves(s, step);
  }

  lemma ManageKeepsGone(s: Sys, step: ManagerStep, k: string)
    requires Gone(s, k)
    ensures Gone(ApplyManage(s, step), k)
  {
  }

  lemma StepKeepsGone(g: CT.Group, s: Sys, step: Step, k: string)
    requires Gone(s, k)
    ensures Gone(Apply(g, s, step), k)
  {
    match step
    case Broker(_) =>
    case Admission(a) => ApplyAdmissionMoves(g, s, a);
    case Placement(p) => PlacementLeavesGone(s, p, k);
    case Poll(q) => PollLeavesGone(s, q, k);
    case Manage(m) => ManageKeepsGone(s, m, k);
  }

  lemma {:induction false} RunKeepsGone(g: CT.Group, s: Sys, more: seq<Step>, k: string)
    requires Gone(s, k)
    ensures Gone(Run(g, s, more), k)
  {
    if more != [] {
      RunKeepsGone(g, s, more[..|more| - 1], k);
      StepKeepsGone(g, Run(g, s, more[..|more| - 1]), more[|more| - 1], k);
    }
  }

  lemma {:induction false} RunInTwo(g: CT.Group, s: Sys, steps: seq<Step>, more: seq<Step>)
    ensures Run(g, s, steps + more) == Run(g, Run(g, s, steps), more)
  {
    if more == [] {
      assert steps + more == steps;
    } else {
      assert (steps + more)[..|steps + more| - 1] == steps + more[..|more| - 1];
      RunInTwo(g, s, steps, more[..|more| - 1]);
    }
  }

  /** A close whose position is really over and that overtakes its count leaves an open entry for the
      rest of the day: whatever follows, its trade never comes back to the store and is shown as open,
      at the latest once counted. */
  lemma OvertakenTradeStaysOpen(g: CT.Group, day: int, maxOpen: nat, steps: seq<Step>, k: string, rr: Option<real>, more: seq<Step>)
    requires var s := Run(g, Start(day, maxOpen), steps);
             && StoredClustered(s, k) && Awaited(s, k) && Closable(s, k)
             && s.store[k].ticket in s.orders && s.orders[s.store[k].ticket] == Closed
    ensures var s := Run(g, Start(day, maxOpen), steps + [Manage(CloseTrade(k, rr))] + more);
            && k !in s.store && (Awaited(s, k) || k in s.cluster.open)
            && (Quiescent(s) ==> k in s.cluster.open)
  {
    var closing := steps + [Manage(CloseTrade(k, rr))];
    RunKeepsExposureInv(g, day, maxOpen, steps);
    RunExtends(g, Start(day, maxOpen), steps, Manage(CloseTrade(k, rr)));
    AwaitedCloseIsGone(Run(g, Start(day, maxOpen), steps), k, rr);
    RunInTwo(g, Start(day, maxOpen), closing, more);
    RunKeepsGone(g, Run(g, Start(day, maxOpen), closing), more, k);
    RunKeepsExposureInv(g, day, maxOpen, closing + more);
  }

  lemma AwaitedCloseIsGone(s: Sys, k: string, rr: Option<real>)
    requires ExposureInv(s) && StoredClustered(s, k) && Awaited(s, k) && Closable(s, k)
    requires s.store[k].ticket in s.orders && s.orders[s.store[k].ticket] == Closed
    ensures Gone(DoCloseTrade(s, k, rr), k)
  {
    assert k !in s.cluster.open && k in s.issued;
  }
}
