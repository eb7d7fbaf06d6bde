/** The engine's in-flight bookkeeping: how many admitted signals each symbol has, and which ids
    (src/execution/engine.py). */
module EngineSlots {

  datatype Slots = Slots(counts: map<string, nat>, ids: set<string>)

  const FREE := Slots(map[], {})

  function CountOf(counts: map<string, nat>, symbol: string): nat {
    if symbol in counts then counts[symbol] else 0
  }

  function Reserve(s: Slots, symbol: string, id: string): Slots {
    Slots(s.counts[symbol := CountOf(s.counts, symbol) + 1], s.ids + {id})
  }

  function Release(s: Slots, symbol: string, id: string): Slots {
    var n := CountOf(s.counts, symbol);
    Slots(if n <= 1 then s.counts - {symbol} else s.counts[symbol := n - 1], s.ids - {id})
  }

  /** All slots held, over all symbols. */
  ghost function PendingTotal(counts: map<string, nat>): nat
    decreases |counts|
  {
    if counts == map[] then 0
    else
      var symbol :| symbol in counts;
      counts[symbol] + PendingTotal(counts - {symbol})
  }

  /** The total does not depend on which symbol is counted first. */
  lemma {:induction false} TotalWithout(counts: map<string, nat>, symbol: string)
    requires symbol in counts
    ensures PendingTotal(counts) == counts[symbol] + PendingTotal(counts - {symbol})
    decreases |counts|
  {
    var other :| other in counts && PendingTotal(counts) == counts[other] + PendingTotal(counts - {other});
    if other != symbol {
      TotalWithout(counts - {other}, symbol);
      TotalWithout(counts - {symbol}, other);
      assert counts - {other} - {symbol} == counts - {symbol} - {other};
    }
  }

  /** One symbol's count and what the others hold. */
  lemma TotalSplits(counts: map<string, nat>, symbol: string)
    ensures PendingTotal(counts) == CountOf(counts, symbol) + PendingTotal(counts - {symbol})
  {
    if symbol in counts {
      TotalWithout(counts, symbol);
    } else {
      assert counts - {symbol} == counts;
    }
  }

  lemma ReserveAddsOne(s: Slots, symbol: string, id: string)
    ensures PendingTotal(Reserve(s, symbol, id).counts) == PendingTotal(s.counts) + 1
  {
    var counts := Reserve(s, symbol, id).counts;
    TotalSplits(s.counts, symbol);
    TotalSplits(counts, symbol);
    assert counts - {symbol} == s.counts - {symbol};
  }

  lemma ReleaseTakesOne(s: Slots, symbol: string, id: string)
    requires CountOf(s.counts, symbol) > 0
    ensures PendingTotal(Release(s, symbol, id).counts) == PendingTotal(s.counts) - 1
  {
    var counts := Release(s, symbol, id).counts;
    TotalSplits(s.counts, symbol);
    TotalSplits(counts, symbol);
    assert counts - {symbol} == s.counts - {symbol};
  }

  class SlotTable {
    var pending: map<string, nat>
    var pendingSignalIds: set<string>

    ghost function State(): Slots
      reads this
    {
      Slots(pending, pendingSignalIds)
    }

    constructor ()
      ensures State() == FREE
    {
      pending, pendingSignalIds := map[], {};
    }

    method ReserveSlot(symbol: string, signalId: string)
      modifies this
      ensures State() == Reserve(old(State()), symbol, signalId)
    {
      pending := pending[symbol := CountOf(pending, symbol) + 1];
      pendingSignalIds := pendingSignalIds + {signalId};
    }

    method ReleaseSlot(symbol: string, signalId: string)
      modifies this
      ensures State() == Release(old(State()), symbol, signalId)
    {
      var n := CountOf(pending, symbol);
      pending := pending[symbol := if n == 0 then 0 else n - 1];
      if pending[symbol] == 0 {
        pending := pending - {symbol};
      }
      pendingSignalIds := pendingSignalIds - {signalId};
    }
  }
}
