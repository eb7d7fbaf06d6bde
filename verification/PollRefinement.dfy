/** The poll that the object performs against the order protocol (src/positions/pending_manager.py:166-304):
    an undisturbed poll is a run of the protocol's poller, record by record, and judges every order by
    what became of it at the broker. */
module PollRefinement {
  import opened Basics
  import opened OrderProtocol
  import opened OrderSafety
  import Exposure
  import CT = ClusterTracker
  import PM = PendingManager

  // ---------- Judged by what became of the order ----------

  /** What the broker can have done to an order between two instants. */
  predicate MayBecome(before: OrderStatus, after: OrderStatus) {
    before == after || (before.Resting? && !after.Resting?) || (before.Filled? && after.Closed?)
  }

  predicate Progressed(earlier: map<Ticket, OrderStatus>, later: map<Ticket, OrderStatus>) {
    forall t :: t in earlier ==> t in later && MayBecome(earlier[t], later[t])
  }

  /** Whatever the broker does between and after the two reads, a poll drops a record exactly when its
      order was seen filled, was over between the reads, or had rested past its expiry and its
      cancellation was honoured. A record whose order was seen resting before its expiry stays, and so does one
      whose cancellation failed. */
  lemma RecordStaysIff(
    atPending: map<Ticket, OrderStatus>, atPositions: map<Ticket, OrderStatus>, before: map<Ticket, PM.PendingRecord>,
    positions: map<Ticket, PM.Position>, now: int, replies: PM.Replies, t: Ticket)
    requires Progressed(atPending, atPositions) && positions.Keys == TicketsAt(atPositions, Filled)
    requires t in before && before[t].ticket == t && t in atPending
    ensures t in PM.Surviving(before, {}, TicketsAt(atPending, Resting), positions, now, replies) <==>
            atPending[t] == Resting && atPositions[t] != Filled && (now < before[t].expiryAt || t !in replies.honouredCancels)
    ensures t !in PM.Surviving(before, {}, TicketsAt(atPending, Resting), positions, now, replies) ==>
            atPositions[t] == Filled || Done(atPositions, t) || (now >= before[t].expiryAt && t in replies.honouredCancels)
  {
    assert t in TicketsAt(atPending, Resting) <==> atPending[t] == Resting;
    assert t in positions <==> t in TicketsAt(atPositions, Filled);
  }

  // ---------- One turn ----------

  /** The record of the protocol and the record of the object are the same. */
  predicate SameRecord(rec: Record, r: PM.PendingRecord) {
    && rec.ticket == r.ticket && rec.sig.id == r.plan.signalId && rec.sig.symbol == r.plan.symbol
    && rec.expiryAt == r.expiryAt && r.plan.hasSignal
  }

  lemma PollStepRuns(g: CT.Group, s: Sys, steps: seq<Step>, q: PollStep)
    ensures Run(g, s, steps + [Poll(q)]) == ApplyPoll(Run(g, s, steps), q)
  {
    RunExtends(g, s, steps, Poll(q));
  }

  function AfterDecision(s: Sys): Sys {
    DoReleaseRecord(DoDropRecord(DoDropFilled(DoCountFill(s))))
  }

  // The steps that follow a decision; those that do not apply change nothing.
  lemma FollowingRuns(g: CT.Group, s: Sys, steps: seq<Step>) returns (all: seq<Step>)
    ensures Run(g, s, all) == AfterDecision(Run(g, s, steps))
  {
    PollStepRuns(g, s, steps, CountFill);
    all := steps + [Poll(CountFill)];
    PollStepRuns(g, s, all, DropFilled);
    all := all + [Poll(DropFilled)];
    PollStepRuns(g, s, all, DropRecord);
    all := all + [Poll(DropRecord)];
    PollStepRuns(g, s, all, ReleaseRecord);
    all := all + [Poll(ReleaseRecord)];
  }

  lemma RefusalRuns(g: CT.Group, s: Sys) returns (steps: seq<Step>)
    ensures Run(g, s, steps) == DoStoreFails(s)
  {
    PollStepRuns(g, s, [], StoreFails);
    steps := [] + [Poll(StoreFails)];
  }

  lemma DecisionRuns(g: CT.Group, s: Sys, tradeId: string, honours: bool) returns (steps: seq<Step>)
    ensures Run(g, s, steps) == DoDecide(s, tradeId, honours)
  {
    PollStepRuns(g, s, [], Decide(tradeId, honours));
    steps := [] + [Poll(Decide(tradeId, honours))];
  }

  /** The entry a tracker call leaves in the protocol's log. */
  function Logged(call: Option<PM.Call>): seq<Resolution> {
    match call
    case None => []
    case Some(MarkOpened(_, id)) => [Resolution(id, true)]
    case Some(ReleaseSignal(_, id)) => [Resolution(id, false)]
  }

  /** What the protocol's poller works with is what the object's poll was given. */
  predicate SameView(view: View, pending: set<Ticket>, positions: map<Ticket, PM.Position>, now: int) {
    view.resting == pending && view.open == positions.Keys && view.now == now
  }

  /** The effects of a turn, as the object has them. */
  predicate TurnMatches(
    s: Sys, s': Sys, rec: Record, r: PM.PendingRecord, tradeId: string,
    pending: set<Ticket>, positions: map<Ticket, PM.Position>, now: int, replies: PM.Replies)
  {
    && s'.records == (if PM.IsResolved(r, pending, positions, now, replies) then s.records - {r.ticket} else s.records)
    && s'.store == (if PM.BecomesTrade(r.ticket, positions, replies) then s.store[tradeId := StoredTrade(r.ticket, rec.sig)] else s.store)
    && s'.log == s.log + Logged(PM.CallFor(r, pending, positions, now, replies))
    && s'.orders == (if PM.IsExpired(r, pending, positions, now, replies) then s.orders[r.ticket := Cancelled] else s.orders)
    && (forall k :: k in s'.issued ==> k in s.issued || k == tradeId)
  }

  lemma RefusedTurn(
    s: Sys, r: PM.PendingRecord, tradeId: string, pending: set<Ticket>, positions: map<Ticket, PM.Position>, now: int, replies: PM.Replies)
    requires s.poller.AtLoop? && s.poller.view.todo != [] && SameRecord(s.poller.view.todo[0], r)
    requires SameView(s.poller.view, pending, positions, now)
    requires r.ticket in positions && r.ticket in replies.refusedByStore
    ensures TurnMatches(s, DoStoreFails(s), s.poller.view.todo[0], r, tradeId, pending, positions, now, replies)
    ensures DoStoreFails(s).poller == AtLoop(s.poller.view.(todo := s.poller.view.todo[1..]))
  {
  }

  lemma FilledTurn(
    s: Sys, r: PM.PendingRecord, tradeId: string, honours: bool,
    pending: set<Ticket>, positions: map<Ticket, PM.Position>, now: int, replies: PM.Replies)
    requires s.poller.AtLoop? && s.poller.view.todo != [] && SameRecord(s.poller.view.todo[0], r) && IsNew(s, tradeId)
    requires SameView(s.poller.view, pending, positions, now)
    requires r.ticket in positions && r.ticket !in replies.refusedByStore
    ensures var s' := AfterDecision(DoDecide(s, tradeId, honours));
            && TurnMatches(s, s', s.poller.view.todo[0], r, tradeId, pending, positions, now, replies)
            && s'.poller == AtLoop(s.poller.view.(todo := s.poller.view.todo[1..]))
  {
    var rec, rest := s.poller.view.todo[0], s.poller.view.(todo := s.poller.view.todo[1..]);
    var decided := DoDecide(s, tradeId, honours);
    assert decided == HandleFill(s, rec, rest, tradeId);
    var dropped := DoDropFilled(DoCountFill(decided));
    assert dropped.poller == AtLoop(rest);
    assert AfterDecision(decided) == dropped;
  }

  lemma VanishedTurn(
    s: Sys, r: PM.PendingRecord, tradeId: string, honours: bool,
    pending: set<Ticket>, positions: map<Ticket, PM.Position>, now: int, replies: PM.Replies)
    requires s.poller.AtLoop? && s.poller.view.todo != [] && SameRecord(s.poller.view.todo[0], r)
    requires SameView(s.poller.view, pending, positions, now)
    requires r.ticket !in positions && r.ticket !in pending
    ensures var s' := AfterDecision(DoDecide(s, tradeId, honours));
            && TurnMatches(s, s', s.poller.view.todo[0], r, tradeId, pending, positions, now, replies)
            && s'.poller == AtLoop(s.poller.view.(todo := s.poller.view.todo[1..]))
  {
    var rec, rest := s.poller.view.todo[0], s.poller.view.(todo := s.poller.view.todo[1..]);
    var decided := DoDecide(s, tradeId, honours);
    assert decided == HandleVanished(s, rec, rest);
    DroppedTurn(decided, rec, rest);
  }

  // A record on its way out goes with its reservation.
  lemma DroppedTurn(s: Sys, rec: Record, rest: View)
    requires s.poller == Dropping(rec, rest)
    ensures var s' := AfterDecision(s);
            && s' == s.(records := s.records - {rec.ticket}, poller := AtLoop(rest), cluster := s'.cluster, custody := s'.custody,
                        log := s.log + [Resolution(rec.sig.id, false)])
  {
    assert DoDropFilled(DoCountFill(s)) == s;
  }

  lemma ExpiredTurn(
    s: Sys, r: PM.PendingRecord, tradeId: string, honours: bool,
    pending: set<Ticket>, positions: map<Ticket, PM.Position>, now: int, replies: PM.Replies)
    requires s.poller.AtLoop? && s.poller.view.todo != [] && SameRecord(s.poller.view.todo[0], r)
    requires SameView(s.poller.view, pending, positions, now)
    requires r.ticket !in positions && r.ticket in pending && r.ticket in s.orders && s.orders[r.ticket] == Resting
    requires honours && r.ticket in replies.honouredCancels && now >= r.expiryAt
    ensures var s' := AfterDecision(DoDecide(s, tradeId, honours));
            && TurnMatches(s, s', s.poller.view.todo[0], r, tradeId, pending, positions, now, replies)
            && s'.poller == AtLoop(s.poller.view.(todo := s.poller.view.todo[1..]))
  {
    var rec, rest := s.poller.view.todo[0], s.poller.view.(todo := s.poller.view.todo[1..]);
    var decided := DoDecide(s, tradeId, honours);
    assert decided == s.(orders := s.orders[r.ticket := Cancelled], poller := Dropping(rec, rest));
    DroppedTurn(decided, rec, rest);
  }

  lemma DecidedKeeps(s: Sys, tradeId: string, honours: bool)
    requires s.poller.AtLoop? && s.poller.view.todo != []
    requires var view, t := s.poller.view, s.poller.view.todo[0].ticket;
             t !in view.open && t in view.resting && (view.now < view.todo[0].expiryAt || !honours)
    ensures DoDecide(s, tradeId, honours) == s.(poller := AtLoop(s.poller.view.(todo := s.poller.view.todo[1..])))
  {
  }

  lemma KeptTurn(
    s: Sys, r: PM.PendingRecord, tradeId: string, honours: bool,
    pending: set<Ticket>, positions: map<Ticket, PM.Position>, now: int, replies: PM.Replies)
    requires s.poller.AtLoop? && s.poller.view.todo != [] && SameRecord(s.poller.view.todo[0], r)
    requires SameView(s.poller.view, pending, positions, now)
    requires r.ticket !in positions && r.ticket in pending && honours == (r.ticket in replies.honouredCancels)
    requires now < r.expiryAt || !honours
    ensures var s' := AfterDecision(DoDecide(s, tradeId, honours));
            && TurnMatches(s, s', s.poller.view.todo[0], r, tradeId, pending, positions, now, replies)
            && s'.poller == AtLoop(s.poller.view.(todo := s.poller.view.todo[1..]))
  {
    DecidedKeeps(s, tradeId, honours);
    var decided := DoDecide(s, tradeId, honours);
    assert AfterDecision(decided) == decided;
  }

  // A turn over a record whose order still rests in the snapshot.
  lemma RestingTurn(
    s: Sys, r: PM.PendingRecord, tradeId: string, honours: bool,
    pending: set<Ticket>, positions: map<Ticket, PM.Position>, now: int, replies: PM.Replies)
    requires s.poller.AtLoop? && s.poller.view.todo != [] && SameRecord(s.poller.view.todo[0], r)
    requires SameView(s.poller.view, pending, positions, now)
    requires r.ticket !in positions && r.ticket in pending && r.ticket in s.orders && s.orders[r.ticket] == Resting
    requires honours == (r.ticket in replies.honouredCancels)
    ensures var s' := AfterDecision(DoDecide(s, tradeId, honours));
            && TurnMatches(s, s', s.poller.view.todo[0], r, tradeId, pending, positions, now, replies)
            && s'.poller == AtLoop(s.poller.view.(todo := s.poller.view.todo[1..]))
  {
    if now >= r.expiryAt && honours {
      ExpiredTurn(s, r, tradeId, honours, pending, positions, now, replies);
    } else {
      KeptTurn(s, r, tradeId, honours, pending, positions, now, replies);
    }
  }

  /** One turn of the object's loop is a turn of the protocol's poller: the same record goes or stays, the
      same trade is stored, the same call is made, and the same order is cancelled. */
  lemma TurnIsATurn(
    g: CT.Group, s: Sys, r: PM.PendingRecord, tradeId: string,
    pending: set<Ticket>, positions: map<Ticket, PM.Position>, now: int, replies: PM.Replies) returns (steps: seq<Step>)
    requires s.poller.AtLoop? && s.poller.view.todo != [] && SameRecord(s.poller.view.todo[0], r) && IsNew(s, tradeId)
    requires SameView(s.poller.view, pending, positions, now)
    requires r.ticket in pending ==> r.ticket in s.orders && s.orders[r.ticket] == Resting
    ensures TurnMatches(s, Run(g, s, steps), s.poller.view.todo[0], r, tradeId, pending, positions, now, replies)
    ensures Run(g, s, steps).poller == AtLoop(s.poller.view.(todo := s.poller.view.todo[1..]))
  {
    var refused, honours := r.ticket in positions && r.ticket in replies.refusedByStore, r.ticket in replies.honouredCancels;
    if refused {
      steps := RefusalRuns(g, s);
      RefusedTurn(s, r, tradeId, pending, positions, now, replies);
      return;
    }
    var decision := DecisionRuns(g, s, tradeId, honours);
    steps := FollowingRuns(g, s, decision);
    if r.ticket in positions {
      FilledTurn(s, r, tradeId, honours, pending, positions, now, replies);
    } else if r.ticket in pending {
      RestingTurn(s, r, tradeId, honours, pending, positions, now, replies);
    } else {
      VanishedTurn(s, r, tradeId, honours, pending, positions, now, replies);
    }
  }

  // ---------- The whole poll ----------

  function Tickets(todo: seq<Record>): set<Ticket> {
    set r | r in todo :: r.ticket
  }

  /** The log entries of the records in `todo`, in their order. */
  function LogOf(
    todo: seq<Record>, before: map<Ticket, PM.PendingRecord>, pending: set<Ticket>, positions: map<Ticket, PM.Position>,
    now: int, replies: PM.Replies): seq<Resolution>
    requires forall r :: r in todo ==> r.ticket in before
  {
    if todo == [] then []
    else Logged(PM.CallFor(before[todo[0].ticket], pending, positions, now, replies))
         + LogOf(todo[1..], before, pending, positions, now, replies)
  }

  /** The store with the trades of the filled records in `todo`. */
  function StoreOf(
    store: map<string, StoredTrade>, todo: seq<Record>, positions: map<Ticket, PM.Position>, replies: PM.Replies,
    ids: Ticket -> string): map<string, StoredTrade>
    decreases todo
  {
    if todo == [] then store
    else
      var r := todo[0];
      StoreOf(if PM.BecomesTrade(r.ticket, positions, replies) then store[ids(r.ticket) := StoredTrade(r.ticket, r.sig)] else store,
              todo[1..], positions, replies, ids)
  }

  /** The record is the object's, its trade would get a new id, and an order seen resting still rests. */
  predicate Ready(s: Sys, r: Record, before: map<Ticket, PM.PendingRecord>, pending: set<Ticket>, ids: Ticket -> string) {
    && r.ticket in before && SameRecord(r, before[r.ticket]) && IsNew(s, ids(r.ticket))
    && (r.ticket in pending ==> r.ticket in s.orders && s.orders[r.ticket] == Resting)
  }

  /** A turn over one record leaves the others ready. */
  lemma StaysReady(
    s: Sys, s': Sys, rec: Record, other: Record, before: map<Ticket, PM.PendingRecord>, pending: set<Ticket>,
    positions: map<Ticket, PM.Position>, now: int, replies: PM.Replies, ids: Ticket -> string)
    requires rec.ticket in before && before[rec.ticket].ticket == rec.ticket
    requires Ready(s, other, before, pending, ids) && other.ticket != rec.ticket && ids(other.ticket) != ids(rec.ticket)
    requires TurnMatches(s, s', rec, before[rec.ticket], ids(rec.ticket), pending, positions, now, replies)
    ensures Ready(s', other, before, pending, ids)
  {
    assert forall k :: k in s'.store ==> k in s.store || k == ids(rec.ticket);
  }

  /** The poller is at its loop with these records, of the object's, still to handle. */
  predicate AtRecords(
    s: Sys, before: map<Ticket, PM.PendingRecord>, pending: set<Ticket>, positions: map<Ticket, PM.Position>,
    now: int, replies: PM.Replies, ids: Ticket -> string)
  {
    && s.poller.AtLoop? && SameView(s.poller.view, pending, positions, now)
    && var todo := s.poller.view.todo;
    && DistinctTickets(todo) && (forall t :: t in before ==> before[t].ticket == t)
    && (forall r :: r in todo ==> Ready(s, r, before, pending, ids))
    && s.records.Keys == PM.Surviving(before, Tickets(todo), pending, positions, now, replies).Keys
  }

  lemma HeadLeaves(todo: seq<Record>)
    requires todo != [] && DistinctTickets(todo)
    ensures Tickets(todo[1..]) == Tickets(todo) - {todo[0].ticket} && DistinctTickets(todo[1..])
    ensures forall r :: r in todo[1..] ==> r in todo && r.ticket != todo[0].ticket
  {
    assert todo == [todo[0]] + todo[1..];
    forall r | r in todo[1..] ensures r in todo && r.ticket != todo[0].ticket {
      var i :| 0 <= i < |todo[1..]| && todo[1..][i] == r;
      assert todo[i + 1] == r;
    }
  }

  lemma OneTurnOn(
    s: Sys, s': Sys, before: map<Ticket, PM.PendingRecord>, pending: set<Ticket>, positions: map<Ticket, PM.Position>,
    now: int, replies: PM.Replies, ids: Ticket -> string)
    requires AtRecords(s, before, pending, positions, now, replies, ids) && s.poller.view.todo != []
    requires forall a, b :: ids(a) == ids(b) ==> a == b
    requires var rec := s.poller.view.todo[0];
             && rec.ticket in before && TurnMatches(s, s', rec, before[rec.ticket], ids(rec.ticket), pending, positions, now, replies)
             && s'.poller == AtLoop(s.poller.view.(todo := s.poller.view.todo[1..]))
    ensures AtRecords(s', before, pending, positions, now, replies, ids)
  {
    var todo := s.poller.view.todo;
    var t := todo[0].ticket;
    HeadLeaves(todo);
    assert todo[0] in todo && t in Tickets(todo);
    forall r | r in todo[1..] ensures Ready(s', r, before, pending, ids) {
      StaysReady(s, s', todo[0], r, before, pending, positions, now, replies, ids);
    }
    OneTicketLess(s, s', before, Tickets(todo), t, pending, positions, now, replies);
  }

  lemma OneTicketLess(
    s: Sys, s': Sys, before: map<Ticket, PM.PendingRecord>, todo: set<Ticket>, t: Ticket, pending: set<Ticket>,
    positions: map<Ticket, PM.Position>, now: int, replies: PM.Replies)
    requires t in todo && t in before && before[t].ticket == t
    requires s.records.Keys == PM.Surviving(before, todo, pending, positions, now, replies).Keys
    requires s'.records == if PM.IsResolved(before[t], pending, positions, now, replies) then s.records - {t} else s.records
    ensures s'.records.Keys == PM.Surviving(before, todo - {t}, pending, positions, now, replies).Keys
  {
    PM.SnapshotStep(before, todo, t, pending, positions, now, replies);
  }

  /** The loop has come to its end, with everything in `todo` handled. */
  predicate LoopDone(
    s: Sys, s': Sys, todo: seq<Record>, before: map<Ticket, PM.PendingRecord>, pending: set<Ticket>,
    positions: map<Ticket, PM.Position>, now: int, replies: PM.Replies, ids: Ticket -> string)
    requires forall r :: r in todo ==> r.ticket in before
  {
    && s'.poller == Idle && s'.records.Keys == PM.Surviving(before, {}, pending, positions, now, replies).Keys
    && s'.log == s.log + LogOf(todo, before, pending, positions, now, replies)
    && s'.store == StoreOf(s.store, todo, positions, replies, ids)
  }

  lemma TurnThenLoop(
    s: Sys, s1: Sys, s': Sys, todo: seq<Record>, before: map<Ticket, PM.PendingRecord>, pending: set<Ticket>,
    positions: map<Ticket, PM.Position>, now: int, replies: PM.Replies, ids: Ticket -> string)
    requires todo != [] && (forall r :: r in todo ==> r.ticket in before) && (forall t :: t in before ==> before[t].ticket == t)
    requires TurnMatches(s, s1, todo[0], before[todo[0].ticket], ids(todo[0].ticket), pending, positions, now, replies)
    requires (forall r :: r in todo[1..] ==> r in todo) && LoopDone(s1, s', todo[1..], before, pending, positions, now, replies, ids)
    ensures LoopDone(s, s', todo, before, pending, positions, now, replies, ids)
  {
  }

  lemma {:induction false} LoopIsARun(
    g: CT.Group, s: Sys, before: map<Ticket, PM.PendingRecord>, pending: set<Ticket>, positions: map<Ticket, PM.Position>,
    now: int, replies: PM.Replies, ids: Ticket -> string) returns (steps: seq<Step>)
    requires AtRecords(s, before, pending, positions, now, replies, ids)
    requires forall a, b :: ids(a) == ids(b) ==> a == b
    ensures LoopDone(s, Run(g, s, steps), s.poller.view.todo, before, pending, positions, now, replies, ids)
    decreases |s.poller.view.todo|
  {
    var todo := s.poller.view.todo;
    if todo == [] {
      PollStepRuns(g, s, [], Decide("", false));
      steps := [] + [Poll(Decide("", false))];
      assert Tickets(todo) == {};
    } else {
      assert todo[0] in todo;
      var r := before[todo[0].ticket];
      var turn := TurnIsATurn(g, s, r, ids(r.ticket), pending, positions, now, replies);
      var s1 := Run(g, s, turn);
      OneTurnOn(s, s1, before, pending, positions, now, replies, ids);
      var rest := LoopIsARun(g, s1, before, pending, positions, now, replies, ids);
      Exposure.RunInTwo(g, s, turn, rest);
      HeadLeaves(todo);
      TurnThenLoop(s, s1, Run(g, s1, rest), todo, before, pending, positions, now, replies, ids);
      steps := turn + rest;
    }
  }

  /** The poller finds the object's records, and the broker as the two fetches show it. */
  predicate BeforePoll(
    s: Sys, todo: seq<Record>, before: map<Ticket, PM.PendingRecord>, positions: map<Ticket, PM.Position>, ids: Ticket -> string)
  {
    && s.poller == Idle && todo != [] && Enumerates(todo, s.records) && before.Keys == s.records.Keys
    && (forall t :: t in before ==> before[t].ticket == t && SameRecord(s.records[t], before[t]) && IsNew(s, ids(t)))
    && positions.Keys == TicketsAt(s.orders, Filled)
  }

  lemma SnapshotsTaken(g: CT.Group, s: Sys, todo: seq<Record>, now: int) returns (steps: seq<Step>)
    requires s.poller == Idle && todo != [] && Enumerates(todo, s.records)
    ensures Run(g, s, steps) == s.(poller := AtLoop(View(todo, TicketsAt(s.orders, Resting), TicketsAt(s.orders, Filled), now)))
  {
    PollStepRuns(g, s, [], ReadRecords(todo));
    steps := [] + [Poll(ReadRecords(todo))];
    PollStepRuns(g, s, steps, ReadResting);
    steps := steps + [Poll(ReadResting)];
    PollStepRuns(g, s, steps, ReadPositions(now));
    steps := steps + [Poll(ReadPositions(now))];
  }

  lemma TodoIsAll(s: Sys, todo: seq<Record>, before: map<Ticket, PM.PendingRecord>)
    requires Enumerates(todo, s.records) && before.Keys == s.records.Keys
    requires forall t :: t in before ==> before[t].ticket == t && SameRecord(s.records[t], before[t])
    ensures Tickets(todo) == before.Keys
  {
    forall t | t in before ensures t in Tickets(todo) {
      assert s.records[t] in todo && s.records[t].ticket == t;
    }
  }

  lemma LoopBegins(
    s: Sys, s1: Sys, todo: seq<Record>, before: map<Ticket, PM.PendingRecord>, positions: map<Ticket, PM.Position>,
    now: int, replies: PM.Replies, ids: Ticket -> string)
    requires BeforePoll(s, todo, before, positions, ids)
    requires s1 == s.(poller := AtLoop(View(todo, TicketsAt(s.orders, Resting), TicketsAt(s.orders, Filled), now)))
    ensures AtRecords(s1, before, TicketsAt(s.orders, Resting), positions, now, replies, ids)
  {
    TodoIsAll(s, todo, before);
    assert PM.Surviving(before, Tickets(todo), TicketsAt(s.orders, Resting), positions, now, replies).Keys == before.Keys;
    forall r | r in todo ensures Ready(s1, r, before, TicketsAt(s.orders, Resting), ids) {
      assert s.records[r.ticket] == r;
    }
  }

  /** An undisturbed poll of the object is a run of the protocol: the records left, the trades stored and
      the reservations resolved are those that the object's poll computes. */
  lemma PollIsARun(
    g: CT.Group, s: Sys, todo: seq<Record>, before: map<Ticket, PM.PendingRecord>, positions: map<Ticket, PM.Position>,
    now: int, replies: PM.Replies, ids: Ticket -> string) returns (steps: seq<Step>)
    requires BeforePoll(s, todo, before, positions, ids) && forall a, b :: ids(a) == ids(b) ==> a == b
    ensures (forall r :: r in todo ==> r.ticket in before)
            && LoopDone(s, Run(g, s, steps), todo, before, TicketsAt(s.orders, Resting), positions, now, replies, ids)
  {
    var looks := SnapshotsTaken(g, s, todo, now);
    var s1, pending := Run(g, s, looks), TicketsAt(s.orders, Resting);
    LoopBegins(s, s1, todo, before, positions, now, replies, ids);
    var loop := LoopIsARun(g, s1, before, pending, positions, now, replies, ids);
    Exposure.RunInTwo(g, s, looks, loop);
    steps := looks + loop;
  }
}
