/** The balance-tiered risk ceiling: the cap halves with every doubling of the balance past a
    threshold, down to a floor (src/risk/loss_tracker.py). */
module TierCap {
  import opened Basics
  import opened Products

  function Pow2(n: nat): (p: real)
    ensures p >= 1.0
  {
    if n == 0 then 1.0 else 2.0 * Pow2(n - 1)
  }

  /** How often `x` can be halved before it drops below two. */
  function Doublings(x: real): nat
    requires x >= 1.0
    decreases x.Floor
  {
    if x < 2.0 then 0 else 1 + Doublings(x / 2.0)
  }

  lemma {:induction false} DoublingsBracket(x: real)
    requires x >= 1.0
    ensures Pow2(Doublings(x)) <= x < Pow2(Doublings(x) + 1)
    decreases x.Floor
  {
    if x >= 2.0 {
      DoublingsBracket(x / 2.0);
    } else {
      assert Pow2(1) == 2.0 * Pow2(0);
    }
  }

  lemma {:induction false} Pow2Monotone(a: nat, b: nat)
    requires a <= b
    ensures Pow2(a) <= Pow2(b)
  {
    if a < b {
      Pow2Monotone(a, b - 1);
    }
  }

  /** The floor of the logarithm is the only integer that brackets its argument. */
  lemma DoublingsIsUnique(x: real, d: nat)
    requires x >= 1.0
    ensures Pow2(d) <= x < Pow2(d + 1) <==> d == Doublings(x)
  {
    DoublingsBracket(x);
    if d < Doublings(x) {
      Pow2Monotone(d + 1, Doublings(x));
    } else if d > Doublings(x) {
      Pow2Monotone(Doublings(x) + 1, d);
    }
  }

  function HalvedCap(x: real, basePct: real, floorPct: real): real
    requires x >= 1.0
  {
    Max(floorPct, basePct / Pow2(Doublings(x)))
  }

  lemma TiersPastThreshold(balance: real, threshold: real)
    requires threshold > 0.0 && balance > threshold
    ensures balance / threshold >= 1.0
  {
    TimesUnit(threshold);
    QuotientOrder(balance, threshold, 1.0);
  }

  function TierCapPct(balance: real, threshold: real, basePct: real, floorPct: real): real {
    if balance <= 0.0 || threshold <= 0.0 || balance <= threshold then basePct
    else
      TiersPastThreshold(balance, threshold);
      HalvedCap(balance / threshold, basePct, floorPct)
  }

  function TierCapAmount(balance: real, threshold: real, basePct: real, floorPct: real): real {
    if balance <= 0.0 then 0.0 else Times(balance, TierCapPct(balance, threshold, basePct, floorPct) / 100.0)
  }

  /** The ranges that configuration loading accepts. */
  predicate ValidTiers(threshold: real, basePct: real, floorPct: real) {
    threshold > 0.0 && 0.0 < floorPct <= basePct
  }

  lemma DivideByMore(a: real, p: real, q: real)
    requires a > 0.0 && 0.0 < p <= q
    ensures 0.0 < a / q <= a / p
  {
    QuotientOrder(a, q, 0.0);
    TimesUnit(q);
    TimesQuotient(a, q);
    TimesMonotone(p, q, a / q);
    QuotientOrder(a, p, a / q);
  }

  lemma CapUpToThreshold(balance: real, threshold: real, basePct: real, floorPct: real)
    requires balance <= threshold
    ensures TierCapPct(balance, threshold, basePct, floorPct) == basePct
  {
  }

  lemma CapPastThreshold(balance: real, threshold: real, basePct: real, floorPct: real)
    requires ValidTiers(threshold, basePct, floorPct) && balance > threshold
    ensures balance / threshold >= 1.0
    ensures TierCapPct(balance, threshold, basePct, floorPct) == HalvedCap(balance / threshold, basePct, floorPct)
  {
    TiersPastThreshold(balance, threshold);
  }

  lemma CapStaysInRange(balance: real, threshold: real, basePct: real, floorPct: real)
    requires ValidTiers(threshold, basePct, floorPct)
    ensures floorPct <= TierCapPct(balance, threshold, basePct, floorPct) <= basePct
  {
    if balance > threshold {
      CapPastThreshold(balance, threshold, basePct, floorPct);
      DivideByMore(basePct, 1.0, Pow2(Doublings(balance / threshold)));
    }
  }

  lemma DoublingsMonotone(x: real, y: real)
    requires 1.0 <= x <= y
    ensures Doublings(x) <= Doublings(y)
  {
    DoublingsBracket(x);
    DoublingsBracket(y);
    if Doublings(y) < Doublings(x) {
      Pow2Monotone(Doublings(y) + 1, Doublings(x));
    }
  }

  lemma HalvedCapIsAntitone(x: real, y: real, basePct: real, floorPct: real)
    requires 1.0 <= x <= y && basePct > 0.0
    ensures HalvedCap(y, basePct, floorPct) <= HalvedCap(x, basePct, floorPct)
  {
    DoublingsMonotone(x, y);
    Pow2Monotone(Doublings(x), Doublings(y));
    DivideByMore(basePct, Pow2(Doublings(x)), Pow2(Doublings(y)));
  }

  /** A larger balance never gets a larger percentage. */
  lemma CapIsAntitone(smaller: real, larger: real, threshold: real, basePct: real, floorPct: real)
    requires ValidTiers(threshold, basePct, floorPct) && smaller <= larger
    ensures TierCapPct(larger, threshold, basePct, floorPct) <= TierCapPct(smaller, threshold, basePct, floorPct)
  {
    if smaller <= threshold {
      CapStaysInRange(larger, threshold, basePct, floorPct);
      CapUpToThreshold(smaller, threshold, basePct, floorPct);
    } else {
      CapPastThreshold(smaller, threshold, basePct, floorPct);
      CapPastThreshold(larger, threshold, basePct, floorPct);
      TimesQuotient(smaller, threshold);
      QuotientOrder(larger, threshold, smaller / threshold);
      HalvedCapIsAntitone(smaller / threshold, larger / threshold, basePct, floorPct);
    }
  }

  /** The dollar ceiling: between one and two base ceilings of the threshold while the floor does not
      bind, and the floor percentage of the balance once it does. */
  lemma DollarCapBand(balance: real, threshold: real, basePct: real, floorPct: real)
    requires ValidTiers(threshold, basePct, floorPct) && balance > threshold
    ensures balance / threshold >= 1.0
    ensures var amount := TierCapAmount(balance, threshold, basePct, floorPct);
            var atBase := Times(threshold, basePct / 100.0);
            if floorPct <= basePct / Pow2(Doublings(balance / threshold))
            then atBase <= amount < 2.0 * atBase
            else amount == Times(balance, floorPct / 100.0)
  {
    CapPastThreshold(balance, threshold, basePct, floorPct);
    var x := balance / threshold;
    var p := Pow2(Doublings(x));
    DoublingsBracket(x);
    TimesQuotient(balance, threshold);
    TimesMonotone(p, x, threshold);
    TimesStrict(x, 2.0 * p, threshold);
    var unit := basePct / p / 100.0;
    DivideByMore(basePct, p, p);
    TimesQuotient(basePct, p);
    assert Times(p, unit) == basePct / 100.0;
    TimesMonotone(Times(p, threshold), balance, unit);
    TimesStrict(balance, Times(2.0 * p, threshold), unit);
    assert Times(2.0 * p, threshold) == 2.0 * Times(p, threshold);
    assert Times(2.0 * Times(p, threshold), unit) == 2.0 * Times(Times(p, threshold), unit);
    TimesCommutes(p, threshold);
    TimesAssociates(threshold, p, unit);
  }

  /** Up to the threshold the dollar ceiling is the base percentage of the balance, and nothing without one. */
  lemma DollarCapUpToThreshold(balance: real, threshold: real, basePct: real, floorPct: real)
    requires balance <= threshold
    ensures Times(TierCapAmount(balance, threshold, basePct, floorPct), 100.0) == Times(Max(0.0, balance), basePct)
  {
    CapUpToThreshold(balance, threshold, basePct, floorPct);
    TimesUnit(basePct);
    TimesAssociates(balance, basePct / 100.0, 100.0);
    assert Times(basePct / 100.0, 100.0) == basePct;
  }
}
