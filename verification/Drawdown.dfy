/** The drawdown fold of src/risk/equity_throttle.py and the algebra behind it. */
module DrawdownFold {
  import opened Basics

  /** Drawdown by recursion on the newest entry: what one more contribution does to it. */
  function Drawdown(s: seq<real>): real {
    if s == [] then 0.0 else Max(0.0, Drawdown(s[..|s| - 1]) - s[|s| - 1])
  }

  /** The independent reading: the largest loss over all suffixes, the empty one included. */
  ghost predicate IsLargestSuffixLoss(s: seq<real>, dd: real) {
    && (forall i :: 0 <= i <= |s| ==> -Total(s[i..]) <= dd)
    && (exists i :: 0 <= i <= |s| && dd == -Total(s[i..]))
  }

  lemma {:induction false} DrawdownIsLargestSuffixLoss(s: seq<real>)
    ensures IsLargestSuffixLoss(s, Drawdown(s))
  {
    if s == [] {
      assert s[0..] == [];
    } else {
      var front, c := s[..|s| - 1], s[|s| - 1];
      DrawdownIsLargestSuffixLoss(front);
      assert Total(s[|s|..]) == 0.0;
      forall i | 0 <= i < |s|
        ensures Total(s[i..]) == Total(front[i..]) + c
      {
        assert s[i..][..|s[i..]| - 1] == front[i..];
      }
      if Drawdown(s) == 0.0 {
        assert Drawdown(s) == -Total(s[|s|..]);
      } else {
        var i :| 0 <= i <= |front| && Drawdown(front) == -Total(front[i..]);
        assert Drawdown(s) == -Total(s[i..]);
      }
    }
  }

  lemma DrawdownAppend(s: seq<real>, c: real)
    ensures Drawdown(s + [c]) == Max(0.0, Drawdown(s) - c)
  {
    assert (s + [c])[..|s + [c]| - 1] == s;
  }

  /** Forgetting old entries never deepens the drawdown. */
  lemma PruningNeverDeepens(s: seq<real>, k: nat)
    requires k <= |s|
    ensures Drawdown(s[k..]) <= Drawdown(s)
  {
    DrawdownIsLargestSuffixLoss(s);
    DrawdownIsLargestSuffixLoss(s[k..]);
    var i :| 0 <= i <= |s[k..]| && Drawdown(s[k..]) == -Total(s[k..][i..]);
    assert s[k..][i..] == s[k + i..];
  }

  /** The one pass over the contributions: a running total and its running peak. */
  method ComputeDrawdownR(contributions: seq<real>) returns (dd: real)
    ensures IsLargestSuffixLoss(contributions, dd)
    ensures dd == Drawdown(contributions)
  {
    var total, peak := 0.0, 0.0;
    for i := 0 to |contributions|
      invariant total <= peak
      invariant peak - total == Drawdown(contributions[..i])
    {
      total := total + contributions[i];
      if total > peak {
        peak := total;
      }
      assert contributions[..i + 1][..i] == contributions[..i];
    }
    assert contributions[..|contributions|] == contributions;
    DrawdownIsLargestSuffixLoss(contributions);
    dd := Max(0.0, peak - total);
  }
}
