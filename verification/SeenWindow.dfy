/** The bounded duplicate filter in front of the signal pipeline (src/signals/consumer.py). */
module SeenWindow {
  import opened Basics

  const SEEN_IDS_MAX := 10_000

  /** A payload's `id`, or its `signal_id` when that is missing or empty. */
  datatype Payload = Payload(id: Option<string>, signalId: Option<string>)

  datatype Message = Message(event: string, payload: Payload)

  type Key = (string, string)

  function OrElse(a: Option<string>, b: string): string {
    if a.Some? && a.value != "" then a.value else b
  }

  function IdOf(p: Payload): string {
    OrElse(p.id, OrElse(p.signalId, ""))
  }

  predicate Keyed(m: Message) {
    IdOf(m.payload) != ""
  }

  function KeyOf(m: Message): Key {
    (m.event, IdOf(m.payload))
  }

  // ---------- What the filter means ----------

  /** The last `n` entries. */
  function Last(keys: seq<Key>, n: nat): seq<Key> {
    if |keys| <= n then keys else keys[|keys| - n..]
  }

  /** The keys that have passed so far: each passed because it was not among the `SEEN_IDS_MAX` that
      passed before it. */
  function Passed(history: seq<Message>): seq<Key> {
    if history == [] then []
    else
      var before, m := Passed(history[..|history| - 1]), history[|history| - 1];
      if Keyed(m) && KeyOf(m) !in Last(before, SEEN_IDS_MAX) then before + [KeyOf(m)] else before
  }

  predicate Passes(history: seq<Message>, m: Message) {
    Keyed(m) ==> KeyOf(m) !in Last(Passed(history), SEEN_IDS_MAX)
  }

  predicate Distinct(keys: seq<Key>) {
    forall i, j :: 0 <= i < j < |keys| ==> keys[i] != keys[j]
  }

  // One more key pushes out the oldest of a full window.
  lemma LastAppend(keys: seq<Key>, key: Key, n: nat)
    requires n > 0
    ensures var window := Last(keys, n);
            Last(keys + [key], n) == (if |window| >= n then window[1..] else window) + [key]
  {
  }

  // ---------- The filter ----------

  class SignalConsumer {
    var seenIds: seq<Key>            // oldest first
    ghost var history: seq<Message>

    /** The bounded map is exactly the last entries of the unbounded record. */
    ghost predicate Valid()
      reads this
    {
      seenIds == Last(Passed(history), SEEN_IDS_MAX)
    }

    constructor ()
      ensures Valid() && history == []
    {
      seenIds, history := [], [];
    }

    method Process(m: Message) returns (passes: bool)
      requires Valid()
      modifies this
      ensures Valid() && history == old(history) + [m]
      ensures passes <==> Passes(old(history), m)
    {
      ghost var before := history;
      history := history + [m];
      assert history[..|history| - 1] == before;
      if !Keyed(m) {
        return true;
      }
      var key := KeyOf(m);
      if key in seenIds {
        return false;
      }
      if |seenIds| >= SEEN_IDS_MAX {
        seenIds := seenIds[1..];
      }
      seenIds := seenIds + [key];
      LastAppend(Passed(before), key, SEEN_IDS_MAX);
      return true;
    }
  }

  // ---------- Consequences ----------

  lemma {:induction false} WindowIsDistinct(history: seq<Message>)
    ensures Distinct(Last(Passed(history), SEEN_IDS_MAX))
  {
    if history != [] {
      var before, m := Passed(history[..|history| - 1]), history[|history| - 1];
      WindowIsDistinct(history[..|history| - 1]);
      var earlier, now := Last(before, SEEN_IDS_MAX), Last(Passed(history), SEEN_IDS_MAX);
      if Passed(history) != before {
        assert now[|now| - 1] == KeyOf(m);
        var shift := if |before| >= SEEN_IDS_MAX then 1 else 0;
        assert forall i :: 0 <= i < |now| - 1 ==> now[i] == earlier[i + shift];
      }
    }
  }

  /** Positions at which a key passed. */
  predicate PassedAt(history: seq<Message>, i: nat)
    requires i < |history|
  {
    Keyed(history[i]) && Passes(history[..i], history[i])
  }

  /** How many keyed messages passed from position `i` up to, but not including, position `j`. */
  function PassedFrom(history: seq<Message>, i: nat, j: nat): int
    requires i <= j <= |history|
  {
    |Passed(history[..j])| - |Passed(history[..i])|
  }

  lemma {:induction false} PassedGrows(history: seq<Message>, i: nat)
    requires i <= |history|
    ensures Passed(history[..i]) <= Passed(history)
  {
    if i < |history| {
      var front := history[..|history| - 1];
      assert front[..i] == history[..i];
      PassedGrows(front, i);
    } else {
      assert history[..i] == history;
    }
  }

  lemma RecentKeysAreRemembered(keys: seq<Key>, n: nat, k: nat)
    requires k < |keys|
    ensures |keys| - k <= n ==> keys[k] in Last(keys, n)
  {
    if n < |keys| && |keys| - k <= n {
      assert Last(keys, n)[k - (|keys| - n)] == keys[k];
    }
  }

  /** A repeated key only passes again after its own earlier pass and at least `SEEN_IDS_MAX` more. */
  lemma RepeatsNeedAFullWindow(history: seq<Message>, i: nat, j: nat)
    requires i < j < |history| && PassedAt(history, i) && PassedAt(history, j) && KeyOf(history[i]) == KeyOf(history[j])
    ensures PassedFrom(history, i, j) >= 10_001
  {
    var a, b := Passed(history[..i]), Passed(history[..j]);
    assert history[..i + 1][..i] == history[..i];
    assert Passed(history[..i + 1]) == a + [KeyOf(history[i])];
    assert history[..j][..i + 1] == history[..i + 1];
    PassedGrows(history[..j], i + 1);
    assert b[|a|] == KeyOf(history[i]);
    RecentKeysAreRemembered(b, SEEN_IDS_MAX, |a|);
  }

  // One more message: either nothing is added, or its own key at the end.
  lemma PassedStep(history: seq<Message>, j: nat)
    requires 0 < j <= |history|
    ensures Passed(history[..j]) == if PassedAt(history, j - 1) then Passed(history[..j - 1]) + [KeyOf(history[j - 1])]
                                    else Passed(history[..j - 1])
  {
    assert history[..j][..j - 1] == history[..j - 1] && history[..j][j - 1] == history[j - 1];
  }

  ghost predicate PassedBetween(history: seq<Message>, i: nat, j: nat, key: Key)
    requires j <= |history|
  {
    exists p :: i < p < j && PassedAt(history, p) && KeyOf(history[p]) == key
  }

  lemma BetweenGrows(history: seq<Message>, i: nat, j: nat, key: Key)
    requires 0 < j <= |history| && PassedBetween(history, i, j - 1, key)
    ensures PassedBetween(history, i, j, key)
  {
  }

  /** What is recorded after the passes up to `i` passed after `i`. */
  lemma {:induction false} LaterEntriesPassedLater(history: seq<Message>, i: nat, j: nat, k: nat)
    requires i < j <= |history| && |Passed(history[..i + 1])| <= k < |Passed(history[..j])|
    ensures PassedBetween(history, i, j, Passed(history[..j])[k])
  {
    if j > i + 1 {
      PassedStep(history, j);
      if k < |Passed(history[..j - 1])| {
        LaterEntriesPassedLater(history, i, j - 1, k);
        BetweenGrows(history, i, j, Passed(history[..j - 1])[k]);
      } else {
        assert PassedAt(history, j - 1);
      }
    }
  }

  /** A key that passed at `i` and not since passes again at `j` exactly when at least 10,001 passes lie in
      between, its own included. */
  lemma RepeatPassesIff(history: seq<Message>, i: nat, j: nat)
    requires i < j < |history| && PassedAt(history, i) && Keyed(history[j]) && KeyOf(history[i]) == KeyOf(history[j])
    requires forall p :: i < p < j && PassedAt(history, p) ==> KeyOf(history[p]) != KeyOf(history[i])
    ensures PassedAt(history, j) <==> PassedFrom(history, i, j) >= 10_001
  {
    var a, b, key := Passed(history[..i]), Passed(history[..j]), KeyOf(history[i]);
    assert history[..i + 1][..i] == history[..i];
    assert Passed(history[..i + 1]) == a + [key];
    if PassedAt(history, j) {
      RepeatsNeedAFullWindow(history, i, j);
    } else if PassedFrom(history, i, j) >= 10_001 {
      var last := Last(b, SEEN_IDS_MAX);
      var n :| 0 <= n < |last| && last[n] == key;
      var k := |b| - |last| + n;
      assert b[k] == key && k > |a|;
      LaterEntriesPassedLater(history, i, j, k);
    }
  }

  /** A message is told by its event and its id, or by its signal id when the id is missing or empty; one
      with neither always passes. */
  lemma KeyIsTheFirstId(m: Message)
    ensures m.payload.id.Some? && m.payload.id.value != "" ==> Keyed(m) && KeyOf(m) == (m.event, m.payload.id.value)
    ensures (m.payload.id.None? || m.payload.id.value == "") && m.payload.signalId.Some? && m.payload.signalId.value != "" ==>
              Keyed(m) && KeyOf(m) == (m.event, m.payload.signalId.value)
    ensures (m.payload.id.None? || m.payload.id.value == "") && (m.payload.signalId.None? || m.payload.signalId.value == "") ==>
              forall history :: Passes(history, m)
  {
  }
}
