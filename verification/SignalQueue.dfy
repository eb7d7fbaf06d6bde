/** The bounded queue between the socket thread and the execution worker (src/signals/queue.py), as
    the interleaved micro-steps of a producer, the worker and the controls. `put` holds the symbols lock
    across its two steps; the worker's release of a symbol needs the same lock. */
module SignalQueue {
  import opened Basics

  const MAX_QUEUE_SIZE := 50

  datatype Signal = Signal(id: string, symbol: string)

  datatype Item = Job(signal: Signal) | Sentinel

  datatype Producer = Idle | Inside(signal: Signal)

  /** Where the worker is with the signal in its hands. */
  datatype Worker =
    | Waiting | Holding(signal: Signal) | Released(signal: Signal)
    | Executing(signal: Signal) | Done(signal: Signal) | Exited(dropped: Option<Signal>)

  datatype State = State(
    queue: seq<Item>, queuedSymbols: set<string>, paused: bool, stopped: bool,
    producer: Producer, worker: Worker, accepted: seq<Signal>, started: seq<Signal>)

  const START := State([], {}, false, false, Idle, Waiting, [], [])

  // ---------- Micro-steps; a step that is not enabled leaves the state alone ----------

  datatype Event =
    | PutBegin(signal: Signal) | PutEnd
    | Get | SeeUnpaused | StartOrAbandon | Return | Discard | Quit
    | Pause | Resume | StopFlag | StopSentinel

  /** Lock taken, symbol checked, `put_nowait` tried; a dropped signal releases the lock at once. */
  function BeginPut(s: State, signal: Signal): State {
    if s.producer != Idle || signal.symbol in s.queuedSymbols || |s.queue| >= MAX_QUEUE_SIZE then s
    else s.(queue := s.queue + [Job(signal)], producer := Inside(signal), accepted := s.accepted + [signal])
  }

  function EndPut(s: State): State {
    match s.producer
    case Idle => s
    case Inside(signal) => s.(queuedSymbols := s.queuedSymbols + {signal.symbol}, producer := Idle)
  }

  function DoGet(s: State): State {
    if s.worker != Waiting || s.queue == [] then s
    else match s.queue[0]
      case Job(signal) => s.(queue := s.queue[1..], worker := Holding(signal))
      case Sentinel => s.(queue := s.queue[1..], worker := Exited(None))
  }

  function DoSeeUnpaused(s: State): State {
    if s.worker.Holding? && (!s.paused || s.stopped) then s.(worker := Released(s.worker.signal)) else s
  }

  function DoStartOrAbandon(s: State): State {
    if !s.worker.Released? then s
    else if s.stopped then s.(worker := Exited(Some(s.worker.signal)))
    else s.(worker := Executing(s.worker.signal), started := s.started + [s.worker.signal])
  }

  // The handler returned or raised.
  function DoReturn(s: State): State {
    if s.worker.Executing? then s.(worker := Done(s.worker.signal)) else s
  }

  function DoDiscard(s: State): State {
    if s.worker.Done? && s.producer == Idle
    then s.(queuedSymbols := s.queuedSymbols - {s.worker.signal.symbol}, worker := Waiting) else s
  }

  function DoQuit(s: State): State {
    if s.worker == Waiting && s.stopped then s.(worker := Exited(None)) else s
  }

  function DoStopSentinel(s: State): State {
    if s.stopped && |s.queue| < MAX_QUEUE_SIZE then s.(queue := s.queue + [Sentinel]) else s
  }

  function Step(s: State, e: Event): State {
    match e
    case PutBegin(signal) => BeginPut(s, signal)
    case PutEnd => EndPut(s)
    case Get => DoGet(s)
    case SeeUnpaused => DoSeeUnpaused(s)
    case StartOrAbandon => DoStartOrAbandon(s)
    case Return => DoReturn(s)
    case Discard => DoDiscard(s)
    case Quit => DoQuit(s)
    case Pause => s.(paused := true)
    case Resume => s.(paused := false)
    case StopFlag => s.(stopped := true)
    case StopSentinel => DoStopSentinel(s)
  }

  function Run(events: seq<Event>): State {
    if events == [] then START else Step(Run(events[..|events| - 1]), events[|events| - 1])
  }

  /** The worker's steps in a row, the handler returning at once. */
  function UndisturbedTurn(s: State): State {
    if s.stopped then DoQuit(s) else DoDiscard(DoReturn(DoStartOrAbandon(DoSeeUnpaused(DoGet(s)))))
  }

  // ---------- The queue object, used without interference ----------

  class Queue {
    var queue: seq<Item>
    var queuedSymbols: set<string>
    var paused: bool
    var stopped: bool
    ghost var accepted: seq<Signal>
    ghost var started: seq<Signal>

    ghost function Now(worker: Worker): State
      reads this
    {
      State(queue, queuedSymbols, paused, stopped, Idle, worker, accepted, started)
    }

    constructor ()
      ensures Now(Waiting) == START
    {
      queue, queuedSymbols, paused, stopped := [], {}, false, false;
      accepted, started := [], [];
    }

    method Put(signal: Signal)
      modifies this
      ensures Now(Waiting) == EndPut(BeginPut(old(Now(Waiting)), signal))
    {
      if signal.symbol in queuedSymbols {
        return;
      }
      if |queue| < MAX_QUEUE_SIZE {
        queue := queue + [Job(signal)];
        queuedSymbols := queuedSymbols + {signal.symbol};
        accepted := accepted + [signal];
      }
    }

    method Stop()
      modifies this
      ensures Now(Waiting) == DoStopSentinel(old(Now(Waiting)).(stopped := true))
    {
      stopped := true;
      if |queue| < MAX_QUEUE_SIZE {
        queue := queue + [Sentinel];
      }
    }

    /** One turn of the worker, undisturbed: stopped it leaves, with nothing queued it keeps waiting,
        paused it keeps what it took, otherwise it takes, executes and releases the symbol. */
    method WorkOnce() returns (worker: Worker)
      modifies this
      ensures Now(worker) == UndisturbedTurn(old(Now(Waiting)))
    {
      if stopped {
        return Exited(None);
      }
      if queue == [] {
        return Waiting;
      }
      var item := queue[0];
      queue := queue[1..];
      if item.Sentinel? {
        return Exited(None);
      }
      if paused {
        return Holding(item.signal);
      }
      started := started + [item.signal];
      queuedSymbols := queuedSymbols - {item.signal.symbol};
      return Waiting;
    }
  }

  // ---------- Invariants ----------

  function Jobs(queue: seq<Item>): seq<Signal> {
    if queue == [] then []
    else match queue[0] case Job(signal) => [signal] + Jobs(queue[1..]) case Sentinel => Jobs(queue[1..])
  }

  function Before(first: Option<Signal>, rest: seq<Signal>): seq<Signal> {
    match first case None => rest case Some(signal) => [signal] + rest
  }

  /** What the worker holds, executed or not. */
  function InHand(w: Worker): Option<Signal> {
    match w
    case Waiting => None
    case Holding(signal) => Some(signal)
    case Released(signal) => Some(signal)
    case Executing(signal) => Some(signal)
    case Done(signal) => Some(signal)
    case Exited(dropped) => dropped
  }

  function NotStarted(w: Worker): Option<Signal> {
    if w.Executing? || w.Done? then None else InHand(w)
  }

  function Live(s: State): seq<Signal> {
    Before(InHand(s.worker), Jobs(s.queue))
  }

  /** Accepted but not started, in order. */
  function Ahead(s: State): seq<Signal> {
    Before(NotStarted(s.worker), Jobs(s.queue))
  }

  function Symbols(signals: seq<Signal>): set<string> {
    set x | x in signals :: x.symbol
  }

  ghost predicate DistinctSymbols(signals: seq<Signal>) {
    forall i, j :: 0 <= i < j < |signals| ==> signals[i].symbol != signals[j].symbol
  }

  ghost predicate Inv(s: State) {
    && |s.queue| <= MAX_QUEUE_SIZE
    && DistinctSymbols(Live(s))
    && (s.producer.Inside? ==> s.producer.signal in Live(s) && s.producer.signal.symbol !in s.queuedSymbols)
    && Symbols(Live(s)) == s.queuedSymbols + (if s.producer.Inside? then {s.producer.signal.symbol} else {})
    && s.accepted == s.started + Ahead(s)
  }

  lemma {:induction false} JobsAppend(queue: seq<Item>, item: Item)
    ensures Jobs(queue + [item]) == match item case Job(signal) => Jobs(queue) + [signal] case Sentinel => Jobs(queue)
  {
    if queue == [] {
      assert queue + [item] == [item];
    } else {
      assert (queue + [item])[1..] == queue[1..] + [item];
      JobsAppend(queue[1..], item);
    }
  }

  lemma SymbolsOfConcat(a: seq<Signal>, b: seq<Signal>)
    ensures Symbols(a + b) == Symbols(a) + Symbols(b)
  {
  }

  lemma SymbolsAreThoseOfSomeSignal(signals: seq<Signal>, symbol: string)
    ensures symbol in Symbols(signals) <==> exists i :: 0 <= i < |signals| && signals[i].symbol == symbol
  {
    if i :| 0 <= i < |signals| && signals[i].symbol == symbol {
      assert signals[i] in signals;
    }
  }

  lemma FreeSymbolIsNotLive(s: State, symbol: string)
    requires Inv(s) && s.producer == Idle
    ensures symbol in s.queuedSymbols <==> exists i :: 0 <= i < |Live(s)| && Live(s)[i].symbol == symbol
  {
    SymbolsAreThoseOfSomeSignal(Live(s), symbol);
  }

  lemma DistinctExtends(signals: seq<Signal>, signal: Signal)
    requires DistinctSymbols(signals) && forall i :: 0 <= i < |signals| ==> signals[i].symbol != signal.symbol
    ensures DistinctSymbols(signals + [signal]) && Symbols(signals + [signal]) == Symbols(signals) + {signal.symbol}
  {
    SymbolsOfConcat(signals, [signal]);
    assert Symbols([signal]) == {signal.symbol};
  }

  lemma BeginPutKeepsInv(s: State, signal: Signal)
    requires Inv(s)
    ensures Inv(BeginPut(s, signal))
  {
    var after := BeginPut(s, signal);
    if after != s {
      JobsAppend(s.queue, Job(signal));
      assert Live(after) == Live(s) + [signal];
      assert Ahead(after) == Ahead(s) + [signal];
      FreeSymbolIsNotLive(s, signal.symbol);
      DistinctExtends(Live(s), signal);
      assert s.started + Ahead(s) + [signal] == s.started + (Ahead(s) + [signal]);
      assert Live(after)[|Live(s)|] == signal;
    }
  }

  // Taking the head only moves it from the queue into the worker's hands.
  lemma GetKeepsInv(s: State)
    requires Inv(s)
    ensures Inv(DoGet(s))
  {
    assert Live(DoGet(s)) == Live(s) && Ahead(DoGet(s)) == Ahead(s);
  }

  lemma DiscardKeepsInv(s: State)
    requires Inv(s)
    ensures Inv(DoDiscard(s))
  {
    if s.worker.Done? && s.producer == Idle {
      var signal, after := s.worker.signal, DoDiscard(s);
      assert Live(s) == [signal] + Live(after);
      SymbolsOfConcat([signal], Live(after));
      assert Symbols([signal]) == {signal.symbol};
      forall x | x in Live(after) ensures x.symbol != signal.symbol {
        var j :| 0 <= j < |Live(after)| && Live(after)[j] == x;
        assert Live(s)[0] == signal && Live(s)[j + 1] == x;
      }
      assert signal.symbol !in Symbols(Live(after));
      forall i, j | 0 <= i < j < |Live(after)| ensures Live(after)[i].symbol != Live(after)[j].symbol {
        assert Live(s)[i + 1] == Live(after)[i] && Live(s)[j + 1] == Live(after)[j];
      }
    }
  }

  lemma StartKeepsInv(s: State)
    requires Inv(s)
    ensures Inv(DoStartOrAbandon(s))
  {
    var after := DoStartOrAbandon(s);
    if s.worker.Released? && !s.stopped {
      assert Live(after) == Live(s);
      assert after.started + Jobs(s.queue) == s.started + ([s.worker.signal] + Jobs(s.queue));
    } else if s.worker.Released? {
      assert Live(after) == Live(s) && Ahead(after) == Ahead(s);
    }
  }

  lemma SentinelKeepsInv(s: State)
    requires Inv(s)
    ensures Inv(DoStopSentinel(s))
  {
    if s.stopped && |s.queue| < MAX_QUEUE_SIZE {
      JobsAppend(s.queue, Sentinel);
    }
  }

  lemma StepKeepsInv(s: State, e: Event)
    requires Inv(s)
    ensures Inv(Step(s, e))
  {
    match e
    case PutBegin(signal) => BeginPutKeepsInv(s, signal);
    case PutEnd =>
    case Get => GetKeepsInv(s);
    case SeeUnpaused => assert Live(DoSeeUnpaused(s)) == Live(s) && Ahead(DoSeeUnpaused(s)) == Ahead(s);
    case StartOrAbandon => StartKeepsInv(s);
    case Return => assert Live(DoReturn(s)) == Live(s) && Ahead(DoReturn(s)) == Ahead(s);
    case Discard => DiscardKeepsInv(s);
    case Quit => assert Live(DoQuit(s)) == Live(s) && Ahead(DoQuit(s)) == Ahead(s);
    case Pause =>
    case Resume =>
    case StopFlag =>
    case StopSentinel => SentinelKeepsInv(s);
  }

  lemma {:induction false} EveryRunKeepsInv(events: seq<Event>)
    ensures Inv(Run(events))
  {
    if events != [] {
      EveryRunKeepsInv(events[..|events| - 1]);
      StepKeepsInv(Run(events[..|events| - 1]), events[|events| - 1]);
    } else {
      assert Live(START) == [];
    }
  }

  // ---------- What every interleaving guarantees ----------

  /** At most one signal per symbol is queued, held or being executed, and the queue stays bounded. */
  lemma OneSignalPerSymbol(events: seq<Event>)
    ensures |Run(events).queue| <= 50 && DistinctSymbols(Live(Run(events)))
  {
    EveryRunKeepsInv(events);
  }

  /** Signals are started in the order they were accepted, each exactly once: what was accepted is what
      was started, then the one the worker holds, then the queue. Nothing is lost before a stop. */
  lemma StartedInOrderExactlyOnce(events: seq<Event>)
    ensures var s := Run(events);
            && s.started <= s.accepted
            && s.accepted[|s.started|..] == Ahead(s)
            && (!s.stopped ==> !(s.worker.Exited? && s.worker.dropped.Some?))
  {
    var s := Run(events);
    EveryRunKeepsInv(events);
    DropsNeedAStop(events);
  }

  lemma {:induction false} DropsNeedAStop(events: seq<Event>)
    ensures Run(events).worker.Exited? && Run(events).worker.dropped.Some? ==> Run(events).stopped
  {
    if events != [] {
      DropsNeedAStop(events[..|events| - 1]);
    }
  }

  /** A signal is taken exactly when no live signal shares its symbol and there is room. */
  lemma AcceptedIff(events: seq<Event>, signal: Signal)
    requires Run(events).producer == Idle
    ensures var s := Run(events);
            BeginPut(s, signal) != s <==>
            |s.queue| < 50 && forall i :: 0 <= i < |Live(s)| ==> Live(s)[i].symbol != signal.symbol
  {
    EveryRunKeepsInv(events);
    FreeSymbolIsNotLive(Run(events), signal.symbol);
  }

  /** An undisturbed worker serves the head of the queue: it starts it, and its symbol is free again. */
  lemma HeadIsServed(events: seq<Event>)
    requires var s := Run(events);
             s.worker == Waiting && s.producer == Idle && !s.paused && !s.stopped && s.queue != [] && s.queue[0].Job?
    ensures var s := Run(events);
            var signal, after := s.queue[0].signal, UndisturbedTurn(s);
            && after.started == s.started + [signal] && after.queue == s.queue[1..] && after.worker == Waiting
            && after.queuedSymbols == s.queuedSymbols - {signal.symbol} && signal.symbol in s.queuedSymbols
  {
    var s := Run(events);
    EveryRunKeepsInv(events);
    assert Live(s)[0] == s.queue[0].signal;
    assert s.queue[0].signal.symbol in Symbols(Live(s));
  }

  /** An undisturbed turn is one of the interleavings: some of the worker's own steps in a row. */
  lemma TurnIsARun(events: seq<Event>) returns (steps: seq<Event>)
    ensures Run(events + steps) == UndisturbedTurn(Run(events))
    ensures forall e :: e in steps ==> e in [Get, SeeUnpaused, StartOrAbandon, Return, Discard, Quit]
  {
    if Run(events).stopped {
      RunExtends(events, Quit);
      steps := [Quit];
    } else {
      RunExtends(events, Get);
      RunExtends(events + [Get], SeeUnpaused);
      RunExtends(events + [Get] + [SeeUnpaused], StartOrAbandon);
      RunExtends(events + [Get] + [SeeUnpaused] + [StartOrAbandon], Return);
      RunExtends(events + [Get] + [SeeUnpaused] + [StartOrAbandon] + [Return], Discard);
      steps := [Get, SeeUnpaused, StartOrAbandon, Return, Discard];
      assert events + steps == events + [Get] + [SeeUnpaused] + [StartOrAbandon] + [Return] + [Discard];
    }
  }

  /** What it comes to besides serving the head: a stopped worker leaves with everything still queued, an
      idle one keeps waiting, a sentinel ends it, and a pause leaves the head in its hands, unstarted. */
  lemma TurnsThatServeNothing(s: State)
    requires s.worker == Waiting
    ensures var after := UndisturbedTurn(s);
            && (s.stopped ==> after == s.(worker := Exited(None)))
            && (!s.stopped && s.queue == [] ==> after == s)
            && (!s.stopped && s.queue != [] && s.queue[0].Sentinel? ==> after == s.(queue := s.queue[1..], worker := Exited(None)))
            && (!s.stopped && s.queue != [] && s.queue[0].Job? && s.paused ==>
                  after == s.(queue := s.queue[1..], worker := Holding(s.queue[0].signal)))
  {
  }

  predicate AtThePause(s: State) {
    s.paused && !s.stopped && (s.worker.Waiting? || s.worker.Holding? || s.worker.Exited?)
  }

  lemma PausedStepStartsNothing(s: State, e: Event)
    requires AtThePause(s) && !e.Resume? && !e.StopFlag?
    ensures AtThePause(Step(s, e)) && Step(s, e).started == s.started
  {
  }

  lemma StoppedStepStartsNothing(s: State, e: Event)
    requires s.stopped
    ensures Step(s, e).stopped && Step(s, e).started == s.started
  {
  }

  predicate KeepsPausing(events: seq<Event>) {
    forall e :: e in events ==> !e.Resume? && !e.StopFlag?
  }

  /** While the queue is paused nothing is started, except a signal that had passed the pause before. */
  lemma {:induction false} NothingStartsWhilePaused(events: seq<Event>, more: seq<Event>)
    requires AtThePause(Run(events)) && KeepsPausing(more)
    ensures AtThePause(Run(events + more)) && Run(events + more).started == Run(events).started
  {
    if more == [] {
      assert events + more == events;
    } else {
      var front, last := more[..|more| - 1], more[|more| - 1];
      assert last in more && forall e :: e in front ==> e in more;
      NothingStartsWhilePaused(events, front);
      PausedStepStartsNothing(Run(events + front), last);
      RunExtends(events + front, last);
      assert events + more == events + front + [last];
    }
  }

  /** After a stop nothing is started any more. */
  lemma {:induction false} NothingStartsAfterAStop(events: seq<Event>, more: seq<Event>)
    requires Run(events).stopped
    ensures Run(events + more).stopped && Run(events + more).started == Run(events).started
  {
    if more == [] {
      assert events + more == events;
    } else {
      var front, last := more[..|more| - 1], more[|more| - 1];
      NothingStartsAfterAStop(events, front);
      StoppedStepStartsNothing(Run(events + front), last);
      RunExtends(events + front, last);
      assert events + more == events + front + [last];
    }
  }

  /** A stopped worker leaves: at once when it waits, and giving up what it holds when it holds a signal,
      paused or not. */
  lemma StoppedWorkerLeaves(events: seq<Event>)
    requires Run(events).stopped
    ensures Run(events).worker.Waiting? ==> Run(events + [Quit]).worker == Exited(None)
    ensures Run(events).worker.Holding? ==>
              Run(events + [SeeUnpaused] + [StartOrAbandon]).worker == Exited(Some(Run(events).worker.signal))
  {
    RunExtends(events, Quit);
    RunExtends(events, SeeUnpaused);
    RunExtends(events + [SeeUnpaused], StartOrAbandon);
  }

  /** The sentinel of a stop reaches a worker that would otherwise wait on an empty queue, behind everything
      queued, and leaves what is queued alone. */
  lemma SentinelWakesTheWorker(events: seq<Event>)
    requires Run(events).stopped && |Run(events).queue| < 50
    ensures Run(events + [StopSentinel]).queue == Run(events).queue + [Sentinel]
    ensures Run(events).queue == [] && Run(events).worker == Waiting ==>
              Run(events + [Get]).worker == Waiting && Run(events + [StopSentinel] + [Get]).worker == Exited(None)
  {
    RunExtends(events, StopSentinel);
    RunExtends(events, Get);
    RunExtends(events + [StopSentinel], Get);
  }

  /** The worker may finish a signal before `put` has noted its symbol; the lock then delays the release
      until it is noted, so no symbol is left behind. */
  lemma EarlyFinishLeavesNoSymbol(events: seq<Event>, signal: Signal)
    requires Run(events).producer == Idle && Run(events).worker == Waiting && Run(events).queue == []
    requires !Run(events).paused && !Run(events).stopped
    ensures var finished := DoReturn(DoStartOrAbandon(DoSeeUnpaused(DoGet(BeginPut(Run(events), signal)))));
            && finished.worker == Done(signal) && DoDiscard(finished) == finished
            && DoDiscard(EndPut(finished)).queuedSymbols == {} && DoDiscard(EndPut(finished)).worker == Waiting
  {
    var s := Run(events);
    EveryRunKeepsInv(events);
    assert Live(s) == [];
    assert s.queuedSymbols == {};
    assert BeginPut(s, signal).queue[1..] == [];
  }

  /** A signal given up because of a stop keeps its symbol: later signals on it are refused. */
  lemma DroppedSignalBlocksItsSymbol(events: seq<Event>, later: Signal)
    requires Run(events).worker.Exited? && Run(events).worker.dropped.Some?
    requires later.symbol == Run(events).worker.dropped.value.symbol && Run(events).producer == Idle
    ensures BeginPut(Run(events), later) == Run(events)
  {
    var s := Run(events);
    EveryRunKeepsInv(events);
    FreeSymbolIsNotLive(s, later.symbol);
    assert Live(s)[0] == s.worker.dropped.value;
  }

  // The signal is put, taken, and held when the stop arrives.
  lemma HeldAtTheStop(signal: Signal)
    ensures var put := EndPut(BeginPut(START, signal));
            && put == START.(queue := [Job(signal)], queuedSymbols := {signal.symbol}, accepted := [signal])
            && DoGet(put) == put.(queue := [], worker := Holding(signal))
  {
    assert [Job(signal)][1..] == [];
  }

  lemma GivenUpAfterTheStop(held: State, signal: Signal)
    requires held.worker == Holding(signal)
    ensures var s := DoStartOrAbandon(DoSeeUnpaused(held.(stopped := true)));
            s.worker == Exited(Some(signal)) && s.producer == held.producer
            && s.queuedSymbols == held.queuedSymbols && s.queue == held.queue
  {
  }

  /** That state is reachable: the stop arrives while the worker holds a signal. */
  lemma DropIsReachable(signal: Signal) returns (events: seq<Event>)
    ensures var s := Run(events);
            s.worker == Exited(Some(signal)) && s.producer == Idle && s.queuedSymbols == {signal.symbol} && s.queue == []
  {
    HeldAtTheStop(signal);
    GivenUpAfterTheStop(DoGet(EndPut(BeginPut(START, signal))), signal);
    events := RunsThrough([PutBegin(signal), PutEnd, Get, StopFlag, SeeUnpaused, StartOrAbandon]);
  }

  // Six steps from the start.
  lemma RunsThrough(e: seq<Event>) returns (events: seq<Event>)
    requires |e| == 6
    ensures Run(events) == Step(Step(Step(Step(Step(Step(START, e[0]), e[1]), e[2]), e[3]), e[4]), e[5])
  {
    RunExtends([], e[0]);
    RunExtends([] + [e[0]], e[1]);
    RunExtends([] + [e[0]] + [e[1]], e[2]);
    RunExtends([] + [e[0]] + [e[1]] + [e[2]], e[3]);
    RunExtends([] + [e[0]] + [e[1]] + [e[2]] + [e[3]], e[4]);
    events := [] + [e[0]] + [e[1]] + [e[2]] + [e[3]] + [e[4]];
    RunExtends(events, e[5]);
    events := events + [e[5]];
  }

  lemma RunExtends(events: seq<Event>, e: Event)
    ensures Run(events + [e]) == Step(Run(events), e)
  {
    assert (events + [e])[..|events + [e]| - 1] == events;
  }
}
