/** Vocabulary shared by the model: optional values, sides and exact arithmetic.

    Prices, lots, money and R are `real`; times are `int` milliseconds since the epoch. */
module Basics {

  datatype Option<+T> = None | Some(value: T) {
    function GetOr(default: T): T {
      match this
      case Some(v) => v
      case None => default
    }
  }

  datatype Side = Buy | Sell

  /** How far `price` lies on the profitable side of `from`. */
  function Gain(side: Side, from: real, price: real): real {
    match side case Buy => price - from case Sell => from - price
  }

  const DAY_MS: int := 86_400_000

  function Max(a: real, b: real): real {
    if a < b then b else a
  }

  function Min(a: real, b: real): real {
    if b < a then b else a
  }

  function Abs(a: real): real {
    if a < 0.0 then -a else a
  }

  /** The sum of a series, oldest entry first. */
  function Total(s: seq<real>): real {
    if s == [] then 0.0 else Total(s[..|s| - 1]) + s[|s| - 1]
  }

  lemma {:induction false} TotalConcat(a: seq<real>, b: seq<real>)
    ensures Total(a + b) == Total(a) + Total(b)
  {
    if b == [] {
      assert a + b == a;
    } else {
      TotalConcat(a, b[..|b| - 1]);
      assert (a + b)[..|a + b| - 1] == a + b[..|b| - 1];
    }
  }

  // Steps of nonlinear arithmetic the solver is given by name.

  lemma Distribute(a: real, b: real, c: real)
    ensures (a + b) * c == a * c + b * c
    ensures (a - b) * c == a * c - b * c
  {
  }

  lemma Cancel(a: real, b: real, c: real)
    requires c != 0.0 && a * c == b * c
    ensures a == b
  {
    Distribute(a, b, c);
    assert (a - b) * c == 0.0;
  }
}
