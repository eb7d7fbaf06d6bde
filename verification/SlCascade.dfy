/** Tightening the stops of stacked positions when a new one fills (src/positions/sl_cascade.py). */
module SlCascade {
  import opened Basics

  datatype Trade = Trade(id: string, symbol: string, side: Side, ticket: Option<int>, stop: real, tp2: real)

  datatype Levels = Levels(stop: real, target: real)

  /** The open trades in the order they opened, and the levels the broker holds per ticket. */
  datatype Book = Book(open: seq<Trade>, broker: map<int, Levels>)

  const EMPTY := Book([], map[])

  predicate IsMoreFavorable(side: Side, candidate: real, current: real) {
    match side case Buy => candidate > current case Sell => candidate < current
  }

  predicate Related(a: Trade, b: Trade) {
    a.symbol == b.symbol && a.side == b.side
  }

  // ---------- Specification ----------

  predicate Moves(existing: Trade, newer: Trade, accepts: string -> bool) {
    && existing.id != newer.id && Related(existing, newer) && existing.ticket.Some?
    && IsMoreFavorable(existing.side, newer.stop, existing.stop) && accepts(existing.id)
  }

  function Moved(existing: Trade, newer: Trade, accepts: string -> bool): Trade {
    if Moves(existing, newer, accepts) then existing.(stop := newer.stop) else existing
  }

  function BrokerAfter(broker: map<int, Levels>, existing: Trade, newer: Trade, accepts: string -> bool): map<int, Levels> {
    if Moves(existing, newer, accepts) then broker[existing.ticket.value := Levels(newer.stop, existing.tp2)] else broker
  }

  /** The book after the new trade has been offered to all of its trades in turn. */
  function Cascaded(book: Book, newer: Trade, accepts: string -> bool): Book
    ensures |Cascaded(book, newer, accepts).open| == |book.open|
    decreases |book.open|
  {
    if book.open == [] then book
    else
      var last := book.open[|book.open| - 1];
      var earlier := Cascaded(Book(book.open[..|book.open| - 1], book.broker), newer, accepts);
      Book(earlier.open + [Moved(last, newer, accepts)], BrokerAfter(earlier.broker, last, newer, accepts))
  }

  function Filled(book: Book, newer: Trade): Book {
    Book(book.open + [newer],
         match newer.ticket case None => book.broker case Some(k) => book.broker[k := Levels(newer.stop, newer.tp2)])
  }

  // ---------- The cascade ----------

  class PositionBook {
    var open: seq<Trade>
    var broker: map<int, Levels>

    ghost function Now(): Book
      reads this
    {
      Book(open, broker)
    }

    constructor ()
      ensures Now() == EMPTY
    {
      open, broker := [], map[];
    }

    /** `accepts` tells for each trade whether the broker takes its modification. */
    method CascadeStops(newer: Trade, accepts: string -> bool)
      modifies this
      ensures Now() == Cascaded(old(Now()), newer, accepts)
    {
      ghost var start := Now();
      var existing := open;
      for i := 0 to |existing|
        invariant |open| == |existing| && forall j :: i <= j < |existing| ==> open[j] == existing[j]
        invariant Book(open[..i], broker) == Cascaded(Book(existing[..i], start.broker), newer, accepts)
      {
        assert existing[..i + 1][..i] == existing[..i];
        var t := existing[i];
        ghost var done := open[..i];
        if t.id != newer.id && t.symbol == newer.symbol && t.side == newer.side && t.ticket.Some?
           && IsMoreFavorable(t.side, newer.stop, t.stop) && accepts(t.id) {
          broker := broker[t.ticket.value := Levels(newer.stop, t.tp2)];
          open := open[i := t.(stop := newer.stop)];
        }
        assert open[..i + 1] == done + [Moved(t, newer, accepts)];
      }
      assert existing[..|existing|] == existing && open[..|existing|] == open;
    }

    method RecordFill(newer: Trade, accepts: string -> bool)
      modifies this
      ensures Now() == Cascaded(Filled(old(Now()), newer), newer, accepts)
    {
      open := open + [newer];
      if newer.ticket.Some? {
        broker := broker[newer.ticket.value := Levels(newer.stop, newer.tp2)];
      }
      CascadeStops(newer, accepts);
    }
  }

  // ---------- One fill ----------

  lemma {:induction false} CascadedAt(book: Book, newer: Trade, accepts: string -> bool, i: nat)
    requires i < |book.open|
    ensures Cascaded(book, newer, accepts).open[i] == Moved(book.open[i], newer, accepts)
    decreases |book.open|
  {
    if i < |book.open| - 1 {
      CascadedAt(Book(book.open[..|book.open| - 1], book.broker), newer, accepts, i);
    }
  }

  /** Whatever the broker refuses: stops only ever tighten, everything but the stop stays, and trades on
      another symbol or side are untouched. */
  lemma CascadeOnlyTightens(book: Book, newer: Trade, accepts: string -> bool, i: nat)
    requires i < |book.open|
    ensures var before, after := book.open[i], Cascaded(book, newer, accepts).open[i];
            && after == before.(stop := after.stop)
            && Gain(before.side, before.stop, after.stop) >= 0.0
            && (before.symbol != newer.symbol || before.side != newer.side ==> after == before)
  {
    CascadedAt(book, newer, accepts, i);
  }

  /** A trade takes the newer stop exactly when it is another trade on the same symbol and side with a
      ticket, the newer stop lies on the profitable side of its own, and the broker accepts. */
  lemma StopMovesIff(book: Book, newer: Trade, accepts: string -> bool, i: nat)
    requires i < |book.open|
    ensures var before, after := book.open[i], Cascaded(book, newer, accepts).open[i];
            && (after.stop != before.stop <==>
                && before.id != newer.id && before.symbol == newer.symbol && before.side == newer.side && before.ticket.Some?
                && Gain(before.side, before.stop, newer.stop) > 0.0 && accepts(before.id))
            && (after.stop != before.stop ==> after.stop == newer.stop)
  {
    CascadedAt(book, newer, accepts, i);
  }

  /** What the store says of a trade is what the broker holds for it. */
  ghost predicate Agrees(book: Book) {
    && (forall i :: 0 <= i < |book.open| && book.open[i].ticket.Some? ==>
          && book.open[i].ticket.value in book.broker
          && book.broker[book.open[i].ticket.value] == Levels(book.open[i].stop, book.open[i].tp2))
    && DistinctTickets(book.open)
  }

  ghost predicate DistinctTickets(open: seq<Trade>) {
    forall i, j :: 0 <= i < j < |open| && open[i].ticket.Some? ==> open[i].ticket != open[j].ticket
  }

  lemma AgreementExtends(book: Book, t: Trade, broker: map<int, Levels>)
    requires Agrees(book)
    requires forall k: int :: t.ticket != Some(k) ==> (k in broker <==> k in book.broker) && (k in broker ==> broker[k] == book.broker[k])
    requires t.ticket.Some? ==>
      && (forall i :: 0 <= i < |book.open| ==> book.open[i].ticket != t.ticket)
      && t.ticket.value in broker && broker[t.ticket.value] == Levels(t.stop, t.tp2)
    ensures Agrees(Book(book.open + [t], broker))
  {
    var open := book.open + [t];
    forall i | 0 <= i < |open| && open[i].ticket.Some?
      ensures open[i].ticket.value in broker && broker[open[i].ticket.value] == Levels(open[i].stop, open[i].tp2)
    {
      if i < |book.open| {
        var k := book.open[i].ticket.value;
        assert open[i] == book.open[i] && book.open[i].ticket == Some(k);
        assert k in book.broker && k in broker && broker[k] == book.broker[k];
      } else {
        assert open[i] == t;
      }
    }
  }

  lemma {:induction false} OthersKeepTheirLevels(book: Book, newer: Trade, accepts: string -> bool, ticket: int)
    requires forall t :: t in book.open ==> t.ticket != Some(ticket)
    ensures ticket in Cascaded(book, newer, accepts).broker <==> ticket in book.broker
    ensures ticket in book.broker ==> Cascaded(book, newer, accepts).broker[ticket] == book.broker[ticket]
    decreases |book.open|
  {
    if book.open != [] {
      var front := book.open[..|book.open| - 1];
      assert book.open[|book.open| - 1] in book.open && forall t :: t in front ==> t in book.open;
      OthersKeepTheirLevels(Book(front, book.broker), newer, accepts, ticket);
    }
  }

  lemma {:induction false} CascadeKeepsAgreement(book: Book, newer: Trade, accepts: string -> bool)
    requires Agrees(book)
    ensures Agrees(Cascaded(book, newer, accepts))
    decreases |book.open|
  {
    if book.open != [] {
      var front, last := book.open[..|book.open| - 1], book.open[|book.open| - 1];
      var earlier := Cascaded(Book(front, book.broker), newer, accepts);
      CascadeKeepsAgreement(Book(front, book.broker), newer, accepts);
      if last.ticket.Some? {
        OthersKeepTheirLevels(Book(front, book.broker), newer, accepts, last.ticket.value);
      }
      forall i | 0 <= i < |front| ensures earlier.open[i].ticket == book.open[i].ticket {
        CascadedAt(Book(front, book.broker), newer, accepts, i);
      }
      AgreementExtends(earlier, Moved(last, newer, accepts), BrokerAfter(earlier.broker, last, newer, accepts));
    }
  }

  // ---------- Runs of fills ----------

  datatype Fill = Fill(trade: Trade, accepts: string -> bool)

  function Run(fills: seq<Fill>): Book {
    if fills == [] then EMPTY
    else
      var f := fills[|fills| - 1];
      Cascaded(Filled(Run(fills[..|fills| - 1]), f.trade), f.trade, f.accepts)
  }

  ghost predicate FreshTrades(fills: seq<Fill>) {
    forall i, j :: 0 <= i < j < |fills| ==>
      fills[i].trade.id != fills[j].trade.id
      && (fills[i].trade.ticket.Some? ==> fills[i].trade.ticket != fills[j].trade.ticket)
  }

  lemma {:induction false} RunLength(fills: seq<Fill>)
    ensures |Run(fills).open| == |fills|
  {
    if fills != [] {
      RunLength(fills[..|fills| - 1]);
    }
  }

  lemma RunAt(fills: seq<Fill>, i: nat)
    requires i < |fills|
    ensures |Run(fills).open| == |fills| && |Run(fills[..|fills| - 1]).open| == |fills| - 1
    ensures var front, last := fills[..|fills| - 1], fills[|fills| - 1];
            Run(fills).open[i] == Moved(if i < |front| then Run(front).open[i] else last.trade, last.trade, last.accepts)
  {
    var front, last := fills[..|fills| - 1], fills[|fills| - 1];
    RunLength(fills);
    RunLength(front);
    CascadedAt(Filled(Run(front), last.trade), last.trade, last.accepts, i);
  }

  /** Trades keep everything but their stop. */
  lemma {:induction false} RunKeepsTrades(fills: seq<Fill>, i: nat)
    requires i < |fills|
    ensures |Run(fills).open| == |fills| && Run(fills).open[i] == fills[i].trade.(stop := Run(fills).open[i].stop)
  {
    RunAt(fills, i);
    if i < |fills| - 1 {
      RunKeepsTrades(fills[..|fills| - 1], i);
    }
  }

  /** Store and broker agree after any run of fills, whichever modifications fail. */
  lemma {:induction false} StoreAndBrokerAgree(fills: seq<Fill>)
    requires FreshTrades(fills)
    ensures Agrees(Run(fills))
  {
    if fills != [] {
      var front, last := fills[..|fills| - 1], fills[|fills| - 1];
      StoreAndBrokerAgree(front);
      RunLength(front);
      forall i | 0 <= i < |front| ensures Run(front).open[i].ticket == fills[i].trade.ticket {
        RunKeepsTrades(front, i);
      }
      AgreementExtends(Run(front), last.trade, Filled(Run(front), last.trade).broker);
      CascadeKeepsAgreement(Filled(Run(front), last.trade), last.trade, last.accepts);
    }
  }

  /** A later fill, or the fill itself, on the same symbol and side. */
  predicate Stacked(fills: seq<Fill>, i: nat, j: nat)
    requires i < |fills| && j < |fills|
  {
    i <= j && fills[i].trade.symbol == fills[j].trade.symbol && fills[i].trade.side == fills[j].trade.side
  }

  /** `stop` is the tightest among the stops of fill `i` and of all later fills on its symbol and side:
      the highest for a buy, the lowest for a sell. */
  ghost predicate TightestFrom(fills: seq<Fill>, i: nat, stop: real)
    requires i < |fills|
  {
    && (exists j :: 0 <= j < |fills| && Stacked(fills, i, j) && stop == fills[j].trade.stop)
    && (forall j :: 0 <= j < |fills| && Stacked(fills, i, j) ==>
          if fills[i].trade.side.Buy? then fills[j].trade.stop <= stop else stop <= fills[j].trade.stop)
  }

  /** Every modification succeeds and every trade has a ticket. */
  ghost predicate AllSucceed(fills: seq<Fill>) {
    forall i :: 0 <= i < |fills| ==> fills[i].trade.ticket.Some? && forall id: string :: fills[i].accepts(id)
  }

  lemma TightestExtends(fills: seq<Fill>, i: nat, stop: real, now: real)
    requires i < |fills| - 1 && TightestFrom(fills[..|fills| - 1], i, stop)
    requires var last := fills[|fills| - 1].trade;
             now == if Related(fills[i].trade, last) && IsMoreFavorable(fills[i].trade.side, last.stop, stop) then last.stop else stop
    ensures TightestFrom(fills, i, now)
  {
    var front, last := fills[..|fills| - 1], |fills| - 1;
    var j :| 0 <= j < |front| && Stacked(front, i, j) && stop == front[j].trade.stop;
    assert Stacked(fills, i, j) && stop == fills[j].trade.stop;
    if now != stop {
      assert Stacked(fills, i, last);
    }
    forall k | 0 <= k < |fills| && Stacked(fills, i, k)
      ensures if fills[i].trade.side.Buy? then fills[k].trade.stop <= now else now <= fills[k].trade.stop
    {
      if k < |front| {
        assert Stacked(front, i, k);
      }
    }
  }

  /** The cascade is a suffix maximum (minimum for sells): after any sequence of fills whose
      modifications all succeed, each trade's stop is the tightest of its own and all later ones on its
      symbol and side. */
  lemma {:induction false} StopsAreSuffixExtremes(fills: seq<Fill>, i: nat)
    requires FreshTrades(fills) && AllSucceed(fills) && i < |fills|
    ensures |Run(fills).open| == |fills| && TightestFrom(fills, i, Run(fills).open[i].stop)
  {
    var front, last := fills[..|fills| - 1], fills[|fills| - 1];
    RunAt(fills, i);
    if i < |front| {
      StopsAreSuffixExtremes(front, i);
      RunKeepsTrades(front, i);
      TightestExtends(fills, i, Run(front).open[i].stop, Run(fills).open[i].stop);
    } else {
      assert Stacked(fills, i, i);
    }
  }

  /** With any failures, a stop is still no looser than the one the trade opened with. */
  lemma {:induction false} StopsNeverLoosen(fills: seq<Fill>, i: nat)
    requires i < |fills|
    ensures |Run(fills).open| == |fills|
    ensures Gain(fills[i].trade.side, fills[i].trade.stop, Run(fills).open[i].stop) >= 0.0
  {
    RunAt(fills, i);
    RunKeepsTrades(fills, i);
    if i < |fills| - 1 {
      StopsNeverLoosen(fills[..|fills| - 1], i);
      RunKeepsTrades(fills[..|fills| - 1], i);
    }
  }
}
