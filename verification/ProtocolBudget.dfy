/** The cluster budget over every interleaving of the whole order protocol (src/execution/engine.py,
    src/positions/pending_manager.py, src/positions/manager.py, src/risk/cluster_tracker.py). */
module ProtocolBudget {
  import opened Basics
  import opened OrderProtocol
  import opened OrderSafety
  import opened Conservation
  import CT = ClusterTracker
  import CB = ClusterBudget

  /** The cluster as the budget ledger sees it. */
  function LedgerOf(s: Sys): CB.Ledger {
    CB.Ledger(s.cluster, if s.gate.Previewed? && s.gate.sig.clustered then Some(s.gate.plannedR) else None, s.slack)
  }

  /** The ledger event a protocol step amounts to, if any. */
  function EventOf(s: Sys, step: Step): Option<CB.Event> {
    match step
    case Broker(_) => None
    case Admission(a) => AdmissionEvent(s, a)
    case Placement(p) => PlacementEvent(s, p)
    case Poll(q) => PollEvent(s, q)
    case Manage(m) => ManagerEvent(s, m)
  }

  function ManagerEvent(s: Sys, step: ManagerStep): Option<CB.Event> {
    match step
    case CloseTrade(tradeId, realizedRr) =>
      if Closable(s, tradeId) && s.store[tradeId].sig.clustered
      then Some(CB.Closed(tradeId, s.store[tradeId].sig.id, JudgedRr(s, tradeId, realizedRr))) else None
    case _ => None
  }

  function AdmissionEvent(s: Sys, step: AdmissionStep): Option<CB.Event> {
    match step
    case PreviewSignal(sig) => if s.gate.Unlocked? && sig.clustered then Some(CB.Previewed) else None
    case RefuseSignal => Some(CB.Abandoned)
    case AdmitSignal => if s.gate.Previewed? && s.gate.sig.clustered then Some(CB.Reserved(s.gate.sig.id)) else None
    case FailReleases(id) =>
      if At(s, id, SlotFreed) && s.execs[id].sig.clustered then Some(CB.Released(s.execs[id].sig.id)) else None
    case _ => None
  }

  function PlacementEvent(s: Sys, step: PlacementStep): Option<CB.Event> {
    match step
    case CountTrade(id) =>
      if id in s.execs && s.execs[id].phase.TradeStored? && s.execs[id].sig.clustered
      then Some(CB.Opened(s.execs[id].sig.id, s.execs[id].phase.tradeId)) else None
    case _ => None
  }

  function PollEvent(s: Sys, step: PollStep): Option<CB.Event> {
    match step
    case CountFill =>
      if s.poller.FillStored? && s.poller.rec.sig.clustered
      then Some(CB.Opened(s.poller.rec.sig.id, s.poller.tradeId)) else None
    case ReleaseRecord =>
      if s.poller.Releasing? && s.poller.rec.sig.clustered then Some(CB.Released(s.poller.rec.sig.id)) else None
    case _ => None
  }

  /** The protocol itself guarantees that an open refers to a reservation. */
  lemma OpensReferToReservations(s: Sys, step: Step)
    requires FillInv(s) && CustodyInv(s) && (step.Placement? || step.Poll?)
    ensures EventOf(s, step).Some? ==> CB.RefersToEntry(LedgerOf(s), EventOf(s, step).value)
  {
    if step == Poll(CountFill) && s.poller.FillStored? {
      assert s.custody[s.poller.rec.sig.id].place == InRecord(s.poller.rec.ticket);
    }
  }

  ghost predicate IsLedgerStep(g: CT.Group, s: Sys, s': Sys, e: Option<CB.Event>) {
    LedgerOf(s') == LedgerOf(s) || (e.Some? && LedgerOf(s') == CB.Step(g, LedgerOf(s), e.value))
  }

  lemma AdmissionIsLedgerStep(g: CT.Group, s: Sys, step: AdmissionStep)
    ensures IsLedgerStep(g, s, ApplyAdmission(g, s, step), AdmissionEvent(s, step))
  {
  }

  lemma PlacementIsLedgerStep(g: CT.Group, s: Sys, step: PlacementStep)
    ensures IsLedgerStep(g, s, ApplyPlacement(s, step), PlacementEvent(s, step))
  {
  }

  lemma RestLeavesLedger(s: Sys, step: PollStep)
    requires IsQuiet(step) && !step.ReleaseRecord?
    ensures LedgerOf(ApplyPoll(s, step)) == LedgerOf(s)
  {
  }

  lemma QuietPollLeavesLedger(s: Sys, step: PollStep)
    requires !step.CountFill? && !step.ReleaseRecord?
    ensures LedgerOf(ApplyPoll(s, step)) == LedgerOf(s)
  {
    if step.Decide? {
      DoDecideMoves(s, step.tradeId, step.cancelHonoured);
    } else {
      RestLeavesLedger(s, step);
    }
  }

  lemma PollIsLedgerStep(g: CT.Group, s: Sys, step: PollStep)
    ensures IsLedgerStep(g, s, ApplyPoll(s, step), PollEvent(s, step))
  {
    if !step.CountFill? && !step.ReleaseRecord? {
      QuietPollLeavesLedger(s, step);
    }
  }

  lemma ManagerIsLedgerStep(g: CT.Group, s: Sys, step: ManagerStep)
    ensures IsLedgerStep(g, s, ApplyManage(s, step), ManagerEvent(s, step))
  {
  }

  /** Every protocol step is one ledger event or leaves the ledger alone. */
  lemma StepIsALedgerStep(g: CT.Group, s: Sys, step: Step)
    ensures IsLedgerStep(g, s, Apply(g, s, step), EventOf(s, step))
  {
    match step {
      case Broker(_) =>
      case Admission(a) => AdmissionIsLedgerStep(g, s, a);
      case Placement(p) => PlacementIsLedgerStep(g, s, p);
      case Poll(q) => PollIsLedgerStep(g, s, q);
      case Manage(m) => ManagerIsLedgerStep(g, s, m);
    }
  }

  lemma StepKeepsBudget(g: CT.Group, s: Sys, step: Step)
    requires CT.ValidGroup(g) && FillInv(s) && CustodyInv(s) && CB.Inv(g, LedgerOf(s))
    ensures EventOf(s, step).Some? ==> CB.Inv(g, CB.Step(g, LedgerOf(s), EventOf(s, step).value))
  {
    if EventOf(s, step).Some? {
      if step.Placement? || step.Poll? {
        OpensReferToReservations(s, step);
      }
      CB.StepKeepsInv(g, LedgerOf(s), EventOf(s, step).value);
    }
  }

  lemma {:induction false} RunKeepsBudget(g: CT.Group, day: int, maxOpen: nat, steps: seq<Step>)
    requires CT.ValidGroup(g)
    ensures CB.Inv(g, LedgerOf(Run(g, Start(day, maxOpen), steps)))
  {
    if steps != [] {
      var front, step := steps[..|steps| - 1], steps[|steps| - 1];
      RunKeepsBudget(g, day, maxOpen, front);
      RunKeepsAll(g, day, maxOpen, front);
      var s := Run(g, Start(day, maxOpen), front);
      StepIsALedgerStep(g, s, step);
      StepKeepsBudget(g, s, step);
    }
  }

  /** Over every interleaving of the whole protocol, executions, fills, refusals, expiries and closes in
      any order, positions taken in by a poll included: the cluster's realised, pending and open R stay
      within the budget plus what losing trades lost beyond their own R plus the whole losses of trades
      that closed without being counted; positions stay within their limit; losses and positions within theirs, up to the number
      of those uncounted losses. */
  lemma ProtocolNeverExceedsTheBudget(g: CT.Group, day: int, maxOpen: nat, steps: seq<Step>)
    requires CT.ValidGroup(g)
    ensures var s := Run(g, Start(day, maxOpen), steps);
            && CT.UsedR(s.cluster) <= g.maxLossR + s.slack.overshootR + s.slack.uncountedR
            && CT.Concurrent(s.cluster) <= g.maxConcurrent
            && s.cluster.lossCount + CT.Concurrent(s.cluster) <= g.maxLosses + g.maxConcurrent - 1 + s.slack.uncountedLosses
  {
    RunKeepsBudget(g, day, maxOpen, steps);
  }

  lemma CountedCloseIsCharged(s: Sys, step: ManagerStep)
    requires step.CloseTrade? && FollowsCount(s, Manage(step))
    ensures ApplyManage(s, step).slack.uncountedR == s.slack.uncountedR
    ensures ApplyManage(s, step).slack.uncountedLosses == s.slack.uncountedLosses
  {
  }

  lemma {:induction false} OnlyUncountedClosesUseIt(g: CT.Group, s: Sys, steps: seq<Step>)
    requires ClosesFollowCounts(g, s, steps)
    ensures Run(g, s, steps).slack.uncountedR == s.slack.uncountedR
    ensures Run(g, s, steps).slack.uncountedLosses == s.slack.uncountedLosses
  {
    if steps != [] {
      var front, step := steps[..|steps| - 1], steps[|steps| - 1];
      OnlyUncountedClosesUseIt(g, s, front);
      if IsClose(step) {
        CountedCloseIsCharged(Run(g, s, front), step.m);
      } else {
        OnlyClosesUseSlack(g, Run(g, s, front), step);
      }
    }
  }

  /** When every clustered trade closed only while counted as open, nothing but overshoot exceeds the
      budget. */
  lemma CountedClosesKeepTheBudget(g: CT.Group, day: int, maxOpen: nat, steps: seq<Step>)
    requires CT.ValidGroup(g) && ClosesFollowCounts(g, Start(day, maxOpen), steps)
    ensures var s := Run(g, Start(day, maxOpen), steps);
            && CT.UsedR(s.cluster) <= g.maxLossR + s.slack.overshootR
            && s.cluster.lossCount + CT.Concurrent(s.cluster) <= g.maxLosses + g.maxConcurrent - 1
  {
    ProtocolNeverExceedsTheBudget(g, day, maxOpen, steps);
    OnlyUncountedClosesUseIt(g, Start(day, maxOpen), steps);
  }
}
