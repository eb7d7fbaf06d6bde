/** Products of reals under a name, so that proofs cite the law they use instead of leaving the
    solver to search nonlinear arithmetic. */
module Products {

  function Times(a: real, b: real): real {
    a * b
  }

  lemma TimesCommutes(a: real, b: real)
    ensures Times(a, b) == Times(b, a)
  {
  }

  lemma TimesAssociates(a: real, b: real, c: real)
    ensures Times(a, Times(b, c)) == Times(Times(a, b), c)
  {
  }

  lemma TimesDistributes(a: real, b: real, c: real)
    ensures Times(a + b, c) == Times(a, c) + Times(b, c)
    ensures Times(a - b, c) == Times(a, c) - Times(b, c)
    ensures Times(c, a + b) == Times(c, a) + Times(c, b)
    ensures Times(c, a - b) == Times(c, a) - Times(c, b)
  {
  }

  lemma TimesUnit(a: real)
    ensures Times(1.0, a) == a == Times(a, 1.0)
    ensures Times(0.0, a) == 0.0 == Times(a, 0.0)
  {
  }

  lemma TimesPositive(a: real, b: real)
    requires a > 0.0 && b > 0.0
    ensures Times(a, b) > 0.0
  {
  }

  lemma TimesNonZero(a: real, b: real)
    requires a != 0.0 && b != 0.0
    ensures Times(a, b) != 0.0
  {
  }

  lemma TimesMonotone(a: real, b: real, c: real)
    requires a <= b && c >= 0.0
    ensures Times(a, c) <= Times(b, c) && Times(c, a) <= Times(c, b)
  {
  }

  lemma TimesStrict(a: real, b: real, c: real)
    requires a < b && c > 0.0
    ensures Times(a, c) < Times(b, c) && Times(c, a) < Times(c, b)
  {
    TimesDistributes(b, a, c);
    TimesPositive(b - a, c);
    TimesCommutes(b - a, c);
  }

  lemma TimesQuotient(a: real, b: real)
    requires b != 0.0
    ensures Times(a / b, b) == a == Times(b, a / b)
  {
  }

  lemma TimesCancels(a: real, b: real, c: real)
    requires Times(a, c) == Times(b, c) && c > 0.0
    ensures a == b
  {
    if a < b {
      TimesStrict(a, b, c);
    } else if b < a {
      TimesStrict(b, a, c);
    }
  }

  lemma QuotientOrder(a: real, b: real, q: real)
    requires b > 0.0
    ensures q <= a / b <==> Times(q, b) <= a
    ensures a / b < q <==> a < Times(q, b)
    ensures a / b <= q <==> a <= Times(q, b)
  {
    TimesQuotient(a, b);
    if q < a / b {
      TimesStrict(q, a / b, b);
    } else if q > a / b {
      TimesStrict(a / b, q, b);
    }
  }
}
