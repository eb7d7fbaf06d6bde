/** Submitting an order against whatever the broker answers (src/execution/order_manager.py). Sleeps
    between attempts and log lines are not modelled; an exception's return code is its number. */
module OrderManager {
  import opened Basics
  import opened Products
  import LotSizing
  import Planner

  datatype Tick = Tick(ask: real, bid: real)

  datatype Reply = Accepted(ticket: int, price: real, volume: real) | Rejected(code: int)

  datatype OrderKind = AtMarket | AtLimit | AtStop

  datatype Submission = Submission(
    kind: OrderKind, goodTillCancelled: bool, volume: real, price: real, sl: real, tp: real, reply: Reply)

  datatype ExecConfig = ExecConfig(
    retryCount: nat, maxSlippagePctOfStop: real, closeOnSlippageExceed: bool,
    limitToStopFallback: bool, gtcFallback: bool)

  datatype MarketOutcome =
    | Filled(ticket: int, price: real, volume: real)
    | ClosedForSlippage(ticket: int, closeVolume: real)  // asked to be closed; the broker may refuse
    | Raised(code: int)
    | NoTick

  datatype LimitOutcome = Resting(ticket: int, price: real) | NotPlaced(code: int)

  const INVALID_PRICE := 10015
  const INVALID_STOPS := 10016
  const NO_MONEY := 10019
  const INVALID_EXPIRATION := 10022

  predicate Retryable(code: int) {
    code == 10004 || code == 10006 || code == 10007 || code == INVALID_STOPS || code == 10018
  }

  function WidenStops(side: Side, entry: real, sl: real, tp: real, minDist: real): (real, real) {
    match side
    case Buy => (Min(sl, entry - minDist), Max(tp, entry + minDist))
    case Sell => (Max(sl, entry + minDist), Min(tp, entry - minDist))
  }

  function Halved(volume: real, si: LotSizing.SymbolInfo): real
    requires si.lotStep > 0.0
  {
    LotSizing.NormaliseLots(volume / 2.0, si.lotStep, si.lotMin, si.lotMax)
  }

  predicate IsBetterPrice(side: Side, executed: real, planned: real) {
    match side case Buy => executed < planned case Sell => executed > planned
  }

  // ---------- What a log of submissions may look like ----------

  predicate RejectedWith(s: Submission, code: int) {
    s.reply == Rejected(code)
  }

  /** The retry that answers the rejection of `s`: only a margin rejection changes the volume, only a
      stops rejection changes the stops. */
  predicate Answers(side: Side, si: LotSizing.SymbolInfo, s: Submission, volume: real, sl: real, tp: real)
    requires si.lotStep > 0.0
  {
    && s.reply.Rejected? && (s.reply.code == NO_MONEY || Retryable(s.reply.code))
    && volume == (if s.reply.code == NO_MONEY then Halved(s.volume, si) else s.volume)
    && (sl, tp) == (if s.reply.code == INVALID_STOPS
                    then WidenStops(side, s.price, s.sl, s.tp, Times(si.stopsLevel as real, si.point))
                    else (s.sl, s.tp))
  }

  /** Every retry answers the rejection before it, and the volume is halved at most once. */
  ghost predicate Chain(side: Side, si: LotSizing.SymbolInfo, log: seq<Submission>)
    requires si.lotStep > 0.0
  {
    && (forall i :: 0 < i < |log| ==> Answers(side, si, log[i - 1], log[i].volume, log[i].sl, log[i].tp))
    && (forall i, j :: 0 <= i < j < |log| - 1 && RejectedWith(log[i], NO_MONEY) ==> !RejectedWith(log[j], NO_MONEY))
  }

  predicate StartsAs(s: Submission, plan: Planner.TradePlan, tp: Option<real>) {
    s.volume == plan.lotSize && s.sl == plan.stopLoss && s.tp == tp.GetOr(plan.tp2)
  }

  ghost predicate MarginRejectedBefore(log: seq<Submission>, i: nat)
    requires i <= |log|
  {
    exists k :: 0 <= k < i && RejectedWith(log[k], NO_MONEY)
  }

  /** The last rejection is one the loop gives up on. */
  ghost predicate GivesUp(log: seq<Submission>, maxAttempts: nat, code: int) {
    && log != [] && RejectedWith(log[|log| - 1], code)
    && (|| |log| == maxAttempts
        || (code != NO_MONEY && !Retryable(code))
        || (code == NO_MONEY && MarginRejectedBefore(log, |log| - 1)))
  }

  /** Stops and targets as far out as before, or further. */
  predicate NoCloser(side: Side, a: Submission, b: Submission) {
    match side
    case Buy => b.sl <= a.sl && a.tp <= b.tp
    case Sell => a.sl <= b.sl && b.tp <= a.tp
  }

  /** A log the loop may still extend, with the next submission's volume and stops at hand. */
  ghost predicate InProgress(
    side: Side, si: LotSizing.SymbolInfo, log: seq<Submission>, volume: real, sl: real, tp: real, marginHalved: bool)
    requires si.lotStep > 0.0
  {
    && Chain(side, si, log)
    && (log != [] ==> Answers(side, si, log[|log| - 1], volume, sl, tp))
    && (marginHalved <==> MarginRejectedBefore(log, |log|))
    && (forall i, j :: 0 <= i < j < |log| && RejectedWith(log[i], NO_MONEY) ==> !RejectedWith(log[j], NO_MONEY))
  }

  lemma LogGrows(side: Side, si: LotSizing.SymbolInfo, log: seq<Submission>, marginHalved: bool, s: Submission)
    requires si.lotStep > 0.0 && InProgress(side, si, log, s.volume, s.sl, s.tp, marginHalved)
    ensures Chain(side, si, log + [s])
    ensures marginHalved ==> MarginRejectedBefore(log + [s], |log|)
  {
    if marginHalved {
      var k :| 0 <= k < |log| && RejectedWith(log[k], NO_MONEY);
      assert RejectedWith((log + [s])[k], NO_MONEY);
    }
  }

  lemma LogProgresses(
    side: Side, si: LotSizing.SymbolInfo, log: seq<Submission>, marginHalved: bool, s: Submission, volume: real, sl: real, tp: real)
    requires si.lotStep > 0.0 && InProgress(side, si, log, s.volume, s.sl, s.tp, marginHalved)
    requires Answers(side, si, s, volume, sl, tp) && !(marginHalved && RejectedWith(s, NO_MONEY))
    ensures InProgress(side, si, log + [s], volume, sl, tp, marginHalved || RejectedWith(s, NO_MONEY))
  {
    var longer := log + [s];
    LogGrows(side, si, log, marginHalved, s);
    if RejectedWith(s, NO_MONEY) {
      assert RejectedWith(longer[|log|], NO_MONEY);
    }
  }

  // ---------- What follows for every log ----------

  /** At most one submission is ever accepted, and it is the last. */
  lemma OnlyTheLastIsAccepted(side: Side, si: LotSizing.SymbolInfo, log: seq<Submission>, i: nat)
    requires si.lotStep > 0.0 && Chain(side, si, log) && i < |log| - 1
    ensures log[i].reply.Rejected?
  {
    var next := log[i + 1];
    assert Answers(side, si, log[i + 1 - 1], next.volume, next.sl, next.tp);
  }

  lemma {:induction false} StopsOnlyMoveOutward(side: Side, si: LotSizing.SymbolInfo, log: seq<Submission>, i: nat, j: nat)
    requires si.lotStep > 0.0 && Chain(side, si, log) && i <= j < |log|
    ensures NoCloser(side, log[i], log[j])
  {
    if i < j {
      StopsOnlyMoveOutward(side, si, log, i, j - 1);
      assert Answers(side, si, log[j - 1], log[j].volume, log[j].sl, log[j].tp);
    }
  }

  /** The volume is the planned one until a margin rejection and its half ever after. */
  lemma {:induction false} VolumeIsHalvedOnce(side: Side, si: LotSizing.SymbolInfo, log: seq<Submission>, i: nat)
    requires si.lotStep > 0.0 && Chain(side, si, log) && i < |log|
    ensures log[i].volume == if MarginRejectedBefore(log, i) then Halved(log[0].volume, si) else log[0].volume
  {
    if i > 0 {
      VolumeIsHalvedOnce(side, si, log, i - 1);
      assert Answers(side, si, log[i - 1], log[i].volume, log[i].sl, log[i].tp);
      if RejectedWith(log[i - 1], NO_MONEY) {
        assert !MarginRejectedBefore(log, i - 1);
        assert MarginRejectedBefore(log, i);
      } else if MarginRejectedBefore(log, i - 1) {
        assert MarginRejectedBefore(log, i);
      } else {
        assert !MarginRejectedBefore(log, i);
      }
    }
  }

  /** The half asked for is the largest whole number of steps within half the planned volume, kept between
      the broker's bounds. */
  lemma HalfIsWhole(volume: real, si: LotSizing.SymbolInfo) returns (n: int)
    requires si.lotStep > 0.0
    ensures Times(n as real, si.lotStep) <= volume / 2.0 < Times(n as real + 1.0, si.lotStep)
    ensures Halved(volume, si) == if Times(n as real, si.lotStep) < si.lotMin || si.lotMax < si.lotMin then si.lotMin
                                  else if Times(n as real, si.lotStep) > si.lotMax then si.lotMax else Times(n as real, si.lotStep)
  {
    n := LotSizing.NormalisedLotsAreWhole(volume / 2.0, si.lotStep, si.lotMin, si.lotMax);
  }

  /** `next` is `current` where that already lies at least `distance` from the price, and at that distance
      otherwise. */
  predicate AtLeastAway(side: Side, price: real, current: real, next: real, distance: real) {
    var gap := Gain(side, current, price);
    if gap >= distance then next == current else Gain(side, next, price) == distance
  }

  /** After a stops rejection the retry's stop and target lie at least the broker's distance from the price
      of the rejected attempt, moved only as far as needed. */
  lemma StopsMoveAsFarAsNeeded(side: Side, si: LotSizing.SymbolInfo, log: seq<Submission>, i: nat)
    requires si.lotStep > 0.0 && Chain(side, si, log) && i + 1 < |log| && RejectedWith(log[i], 10016)
    ensures var distance := Times(si.stopsLevel as real, si.point);
            && AtLeastAway(side, log[i].price, log[i].sl, log[i + 1].sl, distance)
            && AtLeastAway(if side.Buy? then Sell else Buy, log[i].price, log[i].tp, log[i + 1].tp, distance)
  {
    var next := log[i + 1];
    assert Answers(side, si, log[i + 1 - 1], next.volume, next.sl, next.tp);
  }

  /** Only these rejections are tried again. */
  lemma RetriedCodes(side: Side, si: LotSizing.SymbolInfo, log: seq<Submission>, i: nat)
    requires si.lotStep > 0.0 && Chain(side, si, log) && i + 1 < |log|
    ensures log[i].reply.Rejected? && log[i].reply.code in {10004, 10006, 10007, 10016, 10018, 10019}
  {
    var next := log[i + 1];
    assert Answers(side, si, log[i + 1 - 1], next.volume, next.sl, next.tp);
  }

  /** With attempts left the loop gives up only on another code, or on a second margin rejection. */
  lemma GivesUpOnTheRest(log: seq<Submission>, maxAttempts: nat, code: int)
    requires GivesUp(log, maxAttempts, code) && |log| < maxAttempts
    ensures code !in {10004, 10006, 10007, 10016, 10018}
    ensures code == 10019 ==> exists k :: 0 <= k < |log| - 1 && RejectedWith(log[k], 10019)
  {
  }

  lemma HalvingShrinks(volume: real, si: LotSizing.SymbolInfo)
    requires si.lotStep > 0.0 && 0.0 < si.lotMin <= volume
    ensures si.lotMin <= Halved(volume, si) <= volume
  {
    LotSizing.StepsBelow(volume / 2.0, si.lotStep);
  }

  /** A retry never asks for more than the attempt before it, nor for less than the broker's minimum. */
  lemma VolumeNeverRises(side: Side, si: LotSizing.SymbolInfo, log: seq<Submission>, i: nat, j: nat)
    requires si.lotStep > 0.0 && Chain(side, si, log) && i <= j < |log|
    requires 0.0 < si.lotMin <= log[0].volume
    ensures si.lotMin <= log[j].volume <= log[i].volume
  {
    HalvingShrinks(log[0].volume, si);
    VolumeIsHalvedOnce(side, si, log, i);
    VolumeIsHalvedOnce(side, si, log, j);
    if MarginRejectedBefore(log, i) {
      assert MarginRejectedBefore(log, j);
    }
  }

  // ---------- The market path ----------

  /** The fill ate more of the stop distance than allowed. */
  predicate SlipsTooFar(plan: Planner.TradePlan, cfg: ExecConfig, executed: real) {
    var distance := Abs(plan.entryPrice - plan.stopLoss);
    var raw := Abs(executed - plan.entryPrice);
    && raw > 0.0 && !IsBetterPrice(plan.side, executed, plan.entryPrice)
    && (if distance > 0.0 then raw / distance else 0.0) > cfg.maxSlippagePctOfStop
  }

  /** The slippage check rejects exactly the fills outside the band that sizing assumed, except that a
      plan whose stop is its entry is never checked. */
  lemma SlippageCheckIsTheSizingBand(plan: Planner.TradePlan, cfg: ExecConfig, executed: real)
    requires cfg.maxSlippagePctOfStop >= 0.0
    ensures SlipsTooFar(plan, cfg, executed) <==>
            plan.entryPrice != plan.stopLoss
            && !Planner.WithinSlippage(plan.side, plan.entryPrice, plan.stopLoss, executed, cfg.maxSlippagePctOfStop)
  {
    var distance := Abs(plan.entryPrice - plan.stopLoss);
    if distance > 0.0 {
      QuotientOrder(Abs(executed - plan.entryPrice), distance, cfg.maxSlippagePctOfStop);
      TimesMonotone(0.0, cfg.maxSlippagePctOfStop, distance);
      TimesUnit(distance);
    }
  }

  /** What a finished market order leaves behind, whatever the ticks and replies were. */
  ghost predicate MarketRecord(
    plan: Planner.TradePlan, si: LotSizing.SymbolInfo, cfg: ExecConfig, tpOverride: Option<real>,
    outcome: MarketOutcome, log: seq<Submission>)
    requires si.lotStep > 0.0
  {
    && |log| <= 1 + cfg.retryCount && Chain(plan.side, si, log)
    && (log != [] ==> StartsAs(log[0], plan, tpOverride))
    && (outcome.Filled? || outcome.ClosedForSlippage? <==> log != [] && log[|log| - 1].reply.Accepted?)
    && (outcome.Filled? ==>
        && log[|log| - 1].reply == Accepted(outcome.ticket, outcome.price, outcome.volume)
        && (cfg.closeOnSlippageExceed ==> !SlipsTooFar(plan, cfg, outcome.price)))
    && (outcome.ClosedForSlippage? ==>
        && cfg.closeOnSlippageExceed && SlipsTooFar(plan, cfg, log[|log| - 1].reply.price)
        && outcome.ticket == log[|log| - 1].reply.ticket && outcome.closeVolume == plan.lotSize)
    && (outcome.Raised? ==> GivesUp(log, 1 + cfg.retryCount, outcome.code))
  }

  /** An accepted order is closed again exactly when closing is on and its fill lies further on the losing
      side of the planned entry than the allowed share of the stop distance; otherwise it is the fill. */
  lemma SlippedFillsAreClosedIff(
    plan: Planner.TradePlan, si: LotSizing.SymbolInfo, cfg: ExecConfig, tpOverride: Option<real>,
    outcome: MarketOutcome, log: seq<Submission>)
    requires si.lotStep > 0.0 && MarketRecord(plan, si, cfg, tpOverride, outcome, log)
    requires log != [] && log[|log| - 1].reply.Accepted? && cfg.maxSlippagePctOfStop >= 0.0 && plan.entryPrice != plan.stopLoss
    ensures var fill := log[|log| - 1].reply;
            var slipped := Gain(plan.side, plan.entryPrice, fill.price) > Times(cfg.maxSlippagePctOfStop, Abs(plan.entryPrice - plan.stopLoss));
            outcome == if cfg.closeOnSlippageExceed && slipped then ClosedForSlippage(fill.ticket, plan.lotSize)
                       else Filled(fill.ticket, fill.price, fill.volume)
  {
    SlippageCheckIsTheSizingBand(plan, cfg, log[|log| - 1].reply.price);
  }

  // ---------- The emergency close ----------

  /** The emergency close asks for the size that was submitted exactly when no margin rejection halved
      it, or halving changed nothing. */
  lemma EmergencyCloseFitsOrderIff(
    plan: Planner.TradePlan, si: LotSizing.SymbolInfo, cfg: ExecConfig, tpOverride: Option<real>,
    outcome: MarketOutcome, log: seq<Submission>)
    requires si.lotStep > 0.0 && MarketRecord(plan, si, cfg, tpOverride, outcome, log) && outcome.ClosedForSlippage?
    ensures outcome.closeVolume == log[|log| - 1].volume <==>
            !MarginRejectedBefore(log, |log| - 1) || Halved(plan.lotSize, si) == plan.lotSize
  {
    VolumeIsHalvedOnce(plan.side, si, log, |log| - 1);
  }

  /** It asks for the size the broker filled exactly when, besides, the order was filled whole; it never
      asks for less. */
  lemma EmergencyCloseFitsFillIff(
    plan: Planner.TradePlan, si: LotSizing.SymbolInfo, cfg: ExecConfig, tpOverride: Option<real>,
    outcome: MarketOutcome, log: seq<Submission>)
    requires si.lotStep > 0.0 && MarketRecord(plan, si, cfg, tpOverride, outcome, log) && outcome.ClosedForSlippage?
    requires 0.0 < si.lotMin <= plan.lotSize && log[|log| - 1].reply.volume <= log[|log| - 1].volume
    ensures var last := log[|log| - 1];
            && outcome.closeVolume >= last.reply.volume
            && (outcome.closeVolume == last.reply.volume <==>
                last.reply.volume == last.volume
                && (!MarginRejectedBefore(log, |log| - 1) || Halved(plan.lotSize, si) == plan.lotSize))
  {
    EmergencyCloseFitsOrderIff(plan, si, cfg, tpOverride, outcome, log);
    VolumeNeverRises(plan.side, si, log, 0, |log| - 1);
  }

  /** The broker first refuses for lack of margin, then fills the halved order at a slipped price: the
      close asks for the whole planned size. */
  lemma HalvedFillIsOverClosed(
    plan: Planner.TradePlan, si: LotSizing.SymbolInfo, cfg: ExecConfig, tpOverride: Option<real>,
    outcome: MarketOutcome, log: seq<Submission>, ticket: int, price: real)
    requires si.lotStep > 0.0 && MarketRecord(plan, si, cfg, tpOverride, outcome, log) && !outcome.NoTick?
    requires cfg.retryCount >= 1 && cfg.closeOnSlippageExceed && SlipsTooFar(plan, cfg, price)
    requires Halved(plan.lotSize, si) != plan.lotSize
    requires forall i :: 0 <= i < |log| ==>
      log[i].reply == if i == 0 then Rejected(NO_MONEY) else Accepted(ticket, price, Halved(plan.lotSize, si))
    ensures outcome == ClosedForSlippage(ticket, plan.lotSize) && log[|log| - 1].volume == Halved(plan.lotSize, si)
  {
    assert log != [] && !MarginRejectedBefore(log, 0);
    if |log| == 1 {
      assert false;
    }
    if |log| > 2 {
      OnlyTheLastIsAccepted(plan.side, si, log, 1);
      assert false;
    }
    assert RejectedWith(log[0], NO_MONEY);
    VolumeIsHalvedOnce(plan.side, si, log, 1);
  }

  lemma {:induction false} StopsStayUnlessRejected(side: Side, si: LotSizing.SymbolInfo, log: seq<Submission>, i: nat)
    requires si.lotStep > 0.0 && Chain(side, si, log) && i < |log|
    requires forall s :: s in log ==> !RejectedWith(s, INVALID_STOPS)
    ensures log[i].sl == log[0].sl && log[i].tp == log[0].tp
  {
    if i > 0 {
      StopsStayUnlessRejected(side, si, log, i - 1);
      assert log[i - 1] in log && Answers(side, si, log[i - 1], log[i].volume, log[i].sl, log[i].tp);
    }
  }

  /** A returned fill is no larger than planned and no worse than sizing assumed, provided the broker
      fills at most what was asked. */
  lemma ReturnedFillIsCovered(
    plan: Planner.TradePlan, si: LotSizing.SymbolInfo, cfg: ExecConfig, tpOverride: Option<real>,
    outcome: MarketOutcome, log: seq<Submission>)
    requires si.lotStep > 0.0 && MarketRecord(plan, si, cfg, tpOverride, outcome, log) && outcome.Filled?
    requires cfg.closeOnSlippageExceed && cfg.maxSlippagePctOfStop >= 0.0 && plan.entryPrice != plan.stopLoss
    requires 0.0 < si.lotMin <= plan.lotSize && outcome.volume <= log[|log| - 1].volume
    ensures outcome.volume <= plan.lotSize
    ensures Planner.WithinSlippage(plan.side, plan.entryPrice, plan.stopLoss, outcome.price, cfg.maxSlippagePctOfStop)
  {
    VolumeNeverRises(plan.side, si, log, 0, |log| - 1);
    SlippageCheckIsTheSizingBand(plan, cfg, outcome.price);
  }

  /** The k-th attempt sees tick `ticks(k)` and gets reply `broker(k)`; both are arbitrary. */
  method ExecuteMarketOrder(
    plan: Planner.TradePlan, si: LotSizing.SymbolInfo, cfg: ExecConfig, tpOverride: Option<real>,
    ticks: nat -> Option<Tick>, broker: nat -> Reply) returns (outcome: MarketOutcome, log: seq<Submission>)
    requires si.lotStep > 0.0
    ensures MarketRecord(plan, si, cfg, tpOverride, outcome, log)
    ensures forall i :: 0 <= i < |log| ==>
      log[i].reply == broker(i) && log[i].kind == AtMarket && !log[i].goodTillCancelled && ticks(i).Some?
      && log[i].price == (if plan.side.Buy? then ticks(i).value.ask else ticks(i).value.bid)
    ensures log != [] ==>
      log[0].volume == plan.lotSize && log[0].sl == plan.stopLoss && log[0].tp == if tpOverride.Some? then tpOverride.value else plan.tp2
    ensures outcome.NoTick? ==> |log| < 1 + cfg.retryCount && ticks(|log|).None?
  {
    var sl, tp, volume := plan.stopLoss, tpOverride.GetOr(plan.tp2), plan.lotSize;
    var marginHalved, lastCode := false, -1;
    log := [];
    while |log| < 1 + cfg.retryCount
      invariant |log| <= 1 + cfg.retryCount && InProgress(plan.side, si, log, volume, sl, tp, marginHalved)
      invariant log == [] ==> sl == plan.stopLoss && tp == tpOverride.GetOr(plan.tp2) && volume == plan.lotSize
      invariant log != [] ==> StartsAs(log[0], plan, tpOverride) && RejectedWith(log[|log| - 1], lastCode)
      invariant forall i :: 0 <= i < |log| ==>
        log[i].reply == broker(i) && log[i].kind == AtMarket && !log[i].goodTillCancelled && ticks(i).Some?
        && log[i].price == (if plan.side.Buy? then ticks(i).value.ask else ticks(i).value.bid)
      decreases 1 + cfg.retryCount - |log|
    {
      var tick := ticks(|log|);
      if tick.None? {
        return NoTick, log;
      }
      var price := if plan.side.Buy? then tick.value.ask else tick.value.bid;
      var reply := broker(|log|);
      var submitted := Submission(AtMarket, false, volume, price, sl, tp, reply);
      LogGrows(plan.side, si, log, marginHalved, submitted);
      ghost var earlier, halvedEarlier := log, marginHalved;
      log := log + [submitted];
      if reply.Accepted? {
        if cfg.closeOnSlippageExceed && SlipsTooFar(plan, cfg, reply.price) {
          return ClosedForSlippage(reply.ticket, plan.lotSize), log;
        }
        return Filled(reply.ticket, reply.price, reply.volume), log;
      }
      lastCode := reply.code;
      if lastCode == NO_MONEY {
        if marginHalved {
          return Raised(lastCode), log;
        }
        volume, marginHalved := Halved(volume, si), true;
      } else {
        if !Retryable(lastCode) || |log| >= 1 + cfg.retryCount {
          return Raised(lastCode), log;
        }
        if lastCode == INVALID_STOPS {
          var widened := WidenStops(plan.side, price, sl, tp, Times(si.stopsLevel as real, si.point));
          sl, tp := widened.0, widened.1;
        }
      }
      LogProgresses(plan.side, si, earlier, halvedEarlier, submitted, volume, sl, tp);
    }
    return Raised(lastCode), log;
  }

  // ---------- The limit path ----------

  predicate WantsFallback(last: Submission, cfg: ExecConfig) {
    (RejectedWith(last, INVALID_PRICE) && cfg.limitToStopFallback)
    || (RejectedWith(last, INVALID_EXPIRATION) && cfg.gtcFallback)
  }

  method ExecuteLimitOrder(
    plan: Planner.TradePlan, si: LotSizing.SymbolInfo, cfg: ExecConfig, tpOverride: Option<real>, broker: nat -> Reply)
    returns (outcome: LimitOutcome, log: seq<Submission>, fallback: Option<Submission>)
    requires si.lotStep > 0.0
    ensures 0 < |log| <= 1 + cfg.retryCount && Chain(plan.side, si, log)
    ensures log[0].volume == plan.lotSize && log[0].sl == plan.stopLoss
            && log[0].tp == if tpOverride.Some? then tpOverride.value else plan.tp2
    ensures forall i :: 0 <= i < |log| ==>
      log[i].reply == broker(i) && log[i].kind == AtLimit && !log[i].goodTillCancelled && log[i].price == plan.entryPrice
    ensures fallback.Some? <==>
      var last := log[|log| - 1];
      (RejectedWith(last, 10015) && cfg.limitToStopFallback) || (RejectedWith(last, 10022) && cfg.gtcFallback)
    ensures fallback.Some? ==>
      var last := log[|log| - 1];
      fallback.value == if last.reply.code == 10015 then last.(kind := AtStop, reply := broker(|log|))
                        else last.(goodTillCancelled := true, reply := broker(|log|))
    ensures outcome.Resting? <==> log[|log| - 1].reply.Accepted? || (fallback.Some? && fallback.value.reply.Accepted?)
    ensures outcome.Resting? ==>
      var accepted := if fallback.Some? then fallback.value.reply else log[|log| - 1].reply;
      accepted.Accepted? && outcome == Resting(accepted.ticket, accepted.price)
    ensures outcome.NotPlaced? ==> GivesUp(log, 1 + cfg.retryCount, outcome.code)
  {
    var sl, tp, volume := plan.stopLoss, tpOverride.GetOr(plan.tp2), plan.lotSize;
    var marginHalved, lastCode := false, -1;
    log, fallback := [], None;
    while |log| < 1 + cfg.retryCount
      invariant |log| <= 1 + cfg.retryCount && InProgress(plan.side, si, log, volume, sl, tp, marginHalved)
      invariant fallback.None?
      invariant log == [] ==> sl == plan.stopLoss && tp == tpOverride.GetOr(plan.tp2) && volume == plan.lotSize
      invariant log != [] ==>
        StartsAs(log[0], plan, tpOverride) && RejectedWith(log[|log| - 1], lastCode) && !WantsFallback(log[|log| - 1], cfg)
      invariant forall i :: 0 <= i < |log| ==>
        log[i].reply == broker(i) && log[i].kind == AtLimit && !log[i].goodTillCancelled && log[i].price == plan.entryPrice
      decreases 1 + cfg.retryCount - |log|
    {
      var reply := broker(|log|);
      var submitted := Submission(AtLimit, false, volume, plan.entryPrice, sl, tp, reply);
      LogGrows(plan.side, si, log, marginHalved, submitted);
      ghost var earlier, halvedEarlier := log, marginHalved;
      log := log + [submitted];
      if reply.Accepted? {
        return Resting(reply.ticket, reply.price), log, None;
      }
      lastCode := reply.code;
      if lastCode == NO_MONEY {
        if marginHalved {
          return NotPlaced(lastCode), log, None;
        }
        volume, marginHalved := Halved(volume, si), true;
      } else {
        if !Retryable(lastCode) || |log| >= 1 + cfg.retryCount {
          if lastCode == INVALID_PRICE && cfg.limitToStopFallback {
            fallback := Some(submitted.(kind := AtStop, reply := broker(|log|)));
          } else if lastCode == INVALID_EXPIRATION && cfg.gtcFallback {
            fallback := Some(submitted.(goodTillCancelled := true, reply := broker(|log|)));
          }
          if fallback.Some? && fallback.value.reply.Accepted? {
            return Resting(fallback.value.reply.ticket, fallback.value.reply.price), log, fallback;
          }
          return NotPlaced(lastCode), log, fallback;
        }
        if lastCode == INVALID_STOPS {
          var widened := WidenStops(plan.side, plan.entryPrice, sl, tp, Times(si.stopsLevel as real, si.point));
          sl, tp := widened.0, widened.1;
        }
      }
      LogProgresses(plan.side, si, earlier, halvedEarlier, submitted, volume, sl, tp);
    }
    return NotPlaced(lastCode), log, fallback;
  }
}
