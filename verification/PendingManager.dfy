/** One undisturbed poll over the resting limit orders, as the object performs it
    (src/positions/pending_manager.py, src/positions/pending_store.py). What other threads and the
    broker can do between its steps is the business of OrderProtocol. */
module PendingManager {
  import opened Basics

  type Ticket = nat

  datatype Plan = Plan(
    signalId: string, symbol: string, side: Side, stopLoss: real, tp1: real, tp2: real,
    tp1Lots: real, hasSignal: bool)

  datatype PendingRecord = PendingRecord(ticket: Ticket, plan: Plan, placedAt: int, expiryAt: int)

  datatype Position = Position(openPrice: real, lots: real)

  datatype LimitTrade = LimitTrade(
    plan: Plan, entryTicket: Ticket, entryPrice: real, entryLots: real, currentLots: real,
    tp1Lots: real, stopLoss: real, tp1: real, tp2: real)

  /** A call to the cluster tracker. */
  datatype Call = MarkOpened(ticket: Ticket, signalId: string) | ReleaseSignal(ticket: Ticket, signalId: string)

  /** What the broker would answer during this poll. */
  datatype Replies = Replies(honouredCancels: set<Ticket>, refusedByStore: set<Ticket>)

  function TradeFromFill(r: PendingRecord, p: Position): LimitTrade {
    LimitTrade(r.plan, r.ticket, p.openPrice, p.lots, p.lots, r.plan.tp1Lots, r.plan.stopLoss, r.plan.tp1, r.plan.tp2)
  }

  // What becomes of each record, read off the snapshots alone.

  predicate IsFilled(t: Ticket, positions: map<Ticket, Position>) {
    t in positions
  }

  predicate IsVanished(t: Ticket, pending: set<Ticket>, positions: map<Ticket, Position>) {
    t !in positions && t !in pending
  }

  predicate IsExpired(r: PendingRecord, pending: set<Ticket>, positions: map<Ticket, Position>, now: int, replies: Replies) {
    r.ticket !in positions && r.ticket in pending && now >= r.expiryAt && r.ticket in replies.honouredCancels
  }

  predicate IsResolved(r: PendingRecord, pending: set<Ticket>, positions: map<Ticket, Position>, now: int, replies: Replies) {
    IsFilled(r.ticket, positions) || IsVanished(r.ticket, pending, positions) || IsExpired(r, pending, positions, now, replies)
  }

  class PendingOrderManager {
    var records: map<Ticket, PendingRecord>
    var trades: map<Ticket, LimitTrade>
    var calls: seq<Call>

    ghost predicate Valid()
      reads this
    {
      forall t :: t in records ==> records[t].ticket == t
    }

    constructor ()
      ensures Valid() && records == map[] && trades == map[] && calls == []
    {
      records, trades, calls := map[], map[], [];
    }

    method Track(r: PendingRecord)
      requires Valid()
      modifies this
      ensures Valid() && records == old(records)[r.ticket := r]
      ensures trades == old(trades) && calls == old(calls)
    {
      records := records[r.ticket := r];
    }

    method HandleFill(r: PendingRecord, p: Position, replies: Replies)
      requires Valid()
      modifies this
      ensures Valid() && records == old(records) - {r.ticket}
      ensures r.ticket in replies.refusedByStore ==> trades == old(trades) && calls == old(calls)
      ensures r.ticket !in replies.refusedByStore ==>
                && trades == old(trades)[r.ticket := TradeFromFill(r, p)]
                && calls == old(calls) + [MarkOpened(r.ticket, r.plan.signalId)]
    {
      if r.ticket !in replies.refusedByStore {
        trades := trades[r.ticket := LimitTrade(
                           r.plan, r.ticket, p.openPrice, p.lots, p.lots,
                           r.plan.tp1Lots, r.plan.stopLoss, r.plan.tp1, r.plan.tp2)];
        calls := calls + [MarkOpened(r.ticket, r.plan.signalId)];
      }
      records := records - {r.ticket};
    }

    method Drop(r: PendingRecord)
      requires Valid()
      modifies this
      ensures Valid() && records == old(records) - {r.ticket} && trades == old(trades)
      ensures calls == if r.plan.hasSignal then old(calls) + [ReleaseSignal(r.ticket, r.plan.signalId)] else old(calls)
    {
      records := records - {r.ticket};
      if r.plan.hasSignal {
        calls := calls + [ReleaseSignal(r.ticket, r.plan.signalId)];
      }
    }

    /** One turn of the loop: fill, our own expiry, vanished, or still resting. */
    method HandleRecord(r: PendingRecord, pending: set<Ticket>, positions: map<Ticket, Position>, now: int, replies: Replies)
      requires Valid()
      modifies this
      ensures Valid()
      ensures records == if IsResolved(r, pending, positions, now, replies) then old(records) - {r.ticket} else old(records)
      ensures trades == if BecomesTrade(r.ticket, positions, replies)
                        then old(trades)[r.ticket := TradeFromFill(r, positions[r.ticket])] else old(trades)
      ensures var call := CallFor(r, pending, positions, now, replies);
              calls == if call.Some? then old(calls) + [call.value] else old(calls)
    {
      if r.ticket in positions {
        HandleFill(r, positions[r.ticket], replies);
      } else if r.ticket in pending {
        if now >= r.expiryAt && r.ticket in replies.honouredCancels {
          Drop(r);
        }
      } else {
        Drop(r);
      }
    }

    /** A poll changes nothing when a fetch fails. Otherwise it removes exactly the resolved records,
        turns every filled one into its trade, and makes one tracker call per resolution. */
    method Poll(pendingFetch: Option<set<Ticket>>, positionFetch: Option<map<Ticket, Position>>, now: int, replies: Replies)
      requires Valid()
      modifies this
      ensures Valid()
      ensures pendingFetch.None? || positionFetch.None? ==>
                records == old(records) && trades == old(trades) && calls == old(calls)
      ensures pendingFetch.Some? && positionFetch.Some? ==>
                var pending, positions := pendingFetch.value, positionFetch.value;
                && records == Surviving(old(records), {}, pending, positions, now, replies)
                && trades == WithFills(old(trades), old(records), {}, positions, replies)
                && old(calls) <= calls
                && ExactCalls(old(records), calls[|old(calls)|..], pending, positions, now, replies)
    {
      if records == map[] || pendingFetch.None? || positionFetch.None? {
        return;
      }
      var pending, positions := pendingFetch.value, positionFetch.value;
      ghost var before, tradesBefore, callsBefore := records, trades, calls;
      var todo := records.Keys;
      assert before - todo == map[];
      assert trades == WithFills(tradesBefore, before, todo, positions, replies);
      while todo != {}
        invariant Valid() && todo <= before.Keys
        invariant records == Surviving(before, todo, pending, positions, now, replies)
        invariant trades == WithFills(tradesBefore, before, todo, positions, replies)
        invariant callsBefore <= calls
        invariant ExactCalls(before - todo, calls[|callsBefore|..], pending, positions, now, replies)
        decreases |todo|
      {
        var t :| t in todo;
        var r := records[t];
        ghost var made := calls[|callsBefore|..];
        HandleRecord(r, pending, positions, now, replies);
        OneMoreHandled(before - todo, r, made, calls[|callsBefore|..], pending, positions, now, replies);
        FillsStep(tradesBefore, before, todo, t, positions, replies);
        SnapshotStep(before, todo, t, pending, positions, now, replies);
        todo := todo - {t};
      }
      assert before - {} == before;
    }
  }

  // How the views of the work done change when one more record is looked at.
  lemma SnapshotStep(
    before: map<Ticket, PendingRecord>, todo: set<Ticket>, t: Ticket, pending: set<Ticket>, positions: map<Ticket, Position>,
    now: int, replies: Replies)
    requires t in todo && t in before && before[t].ticket == t
    ensures Surviving(before, todo - {t}, pending, positions, now, replies)
         == if IsResolved(before[t], pending, positions, now, replies)
            then Surviving(before, todo, pending, positions, now, replies) - {t}
            else Surviving(before, todo, pending, positions, now, replies)
    ensures before - (todo - {t}) == (before - todo)[t := before[t]]
  {
  }

  lemma FillsStep(
    trades: map<Ticket, LimitTrade>, before: map<Ticket, PendingRecord>, todo: set<Ticket>, t: Ticket,
    positions: map<Ticket, Position>, replies: Replies)
    requires t in todo && t in before
    ensures WithFills(trades, before, todo - {t}, positions, replies)
         == if BecomesTrade(t, positions, replies)
            then WithFills(trades, before, todo, positions, replies)[t := TradeFromFill(before[t], positions[t])]
            else WithFills(trades, before, todo, positions, replies)
  {
  }

  predicate BecomesTrade(t: Ticket, positions: map<Ticket, Position>, replies: Replies) {
    IsFilled(t, positions) && t !in replies.refusedByStore
  }

  /** The records left once all but `todo` have been looked at. */
  function Surviving(
    before: map<Ticket, PendingRecord>, todo: set<Ticket>, pending: set<Ticket>, positions: map<Ticket, Position>,
    now: int, replies: Replies): map<Ticket, PendingRecord>
  {
    map t | t in before && (t in todo || !IsResolved(before[t], pending, positions, now, replies)) :: before[t]
  }

  /** The store with the trades of the filled records outside `todo` added. */
  function WithFills(
    trades: map<Ticket, LimitTrade>, before: map<Ticket, PendingRecord>, todo: set<Ticket>,
    positions: map<Ticket, Position>, replies: Replies): map<Ticket, LimitTrade>
  {
    trades + map t | t in before && t !in todo && BecomesTrade(t, positions, replies) :: TradeFromFill(before[t], positions[t])
  }

  /** The call a resolved record deserves. A hydrated stub has no signal to release. */
  function CallFor(r: PendingRecord, pending: set<Ticket>, positions: map<Ticket, Position>, now: int, replies: Replies): Option<Call> {
    if IsFilled(r.ticket, positions) then
      if r.ticket in replies.refusedByStore then None else Some(MarkOpened(r.ticket, r.plan.signalId))
    else if IsVanished(r.ticket, pending, positions) || IsExpired(r, pending, positions, now, replies) then
      if r.plan.hasSignal then Some(ReleaseSignal(r.ticket, r.plan.signalId)) else None
    else None
  }

  /** The calls made are one per record that deserves one, in some order, and nothing else. */
  ghost predicate ExactCalls(
    handled: map<Ticket, PendingRecord>, made: seq<Call>, pending: set<Ticket>, positions: map<Ticket, Position>,
    now: int, replies: Replies)
  {
    && (forall i, j :: 0 <= i < j < |made| ==> made[i].ticket != made[j].ticket)
    && (forall c :: c in made ==> c.ticket in handled && CallFor(handled[c.ticket], pending, positions, now, replies) == Some(c))
    && (forall t :: t in handled && CallFor(handled[t], pending, positions, now, replies).Some? ==>
          CallFor(handled[t], pending, positions, now, replies).value in made)
  }

  lemma OneMoreHandled(
    handled: map<Ticket, PendingRecord>, r: PendingRecord, made: seq<Call>, made': seq<Call>,
    pending: set<Ticket>, positions: map<Ticket, Position>, now: int, replies: Replies)
    requires ExactCalls(handled, made, pending, positions, now, replies)
    requires r.ticket !in handled
    requires var call := CallFor(r, pending, positions, now, replies);
             made' == if call.Some? then made + [call.value] else made
    ensures ExactCalls(handled[r.ticket := r], made', pending, positions, now, replies)
  {
  }

  /** A poll stores the trade of every filled record that the store takes, at the broker's price and volume
      and with the plan's levels, and leaves the rest of the store alone. */
  lemma FillsAreStoredAsFilled(
    trades: map<Ticket, LimitTrade>, before: map<Ticket, PendingRecord>, positions: map<Ticket, Position>, replies: Replies, t: Ticket)
    ensures var after := WithFills(trades, before, {}, positions, replies);
            if t in before && t in positions && t !in replies.refusedByStore then
              && t in after && after[t].entryTicket == before[t].ticket && after[t].plan == before[t].plan
              && after[t].entryPrice == positions[t].openPrice && after[t].entryLots == after[t].currentLots == positions[t].lots
              && after[t].stopLoss == before[t].plan.stopLoss && after[t].tp1 == before[t].plan.tp1
              && after[t].tp2 == before[t].plan.tp2 && after[t].tp1Lots == before[t].plan.tp1Lots
            else (t in after <==> t in trades) && (t in trades ==> after[t] == trades[t])
  {
  }

  /** A record is counted as open exactly when it was filled and stored, and releases its reservation exactly
      when it goes unfilled and its signal is known; there is no other call. */
  lemma CallsIff(r: PendingRecord, pending: set<Ticket>, positions: map<Ticket, Position>, now: int, replies: Replies)
    ensures var call, goes := CallFor(r, pending, positions, now, replies),
                              r.ticket in pending ==> now >= r.expiryAt && r.ticket in replies.honouredCancels;
            && (call == Some(MarkOpened(r.ticket, r.plan.signalId)) <==> r.ticket in positions && r.ticket !in replies.refusedByStore)
            && (call == Some(ReleaseSignal(r.ticket, r.plan.signalId)) <==> r.ticket !in positions && goes && r.plan.hasSignal)
            && (call.Some? ==> call.value.ticket == r.ticket && call.value.signalId == r.plan.signalId)
  {
  }
}
