/** The arithmetic mean that pandas' `.mean()` computes, both across the
    columns of one row (`.mean(axis=1)`) and down one column of a group.
    The columns it is applied to never hold a missing value, so the
    skip-missing rule of `.mean()` never applies. */
module Stats {

  function Sum(xs: seq<real>): real {
    if xs == [] then 0.0 else xs[0] + Sum(xs[1..])
  }

  function Mean(xs: seq<real>): real
    requires |xs| > 0
  {
    Sum(xs) / |xs| as real
  }

  /** Every entry lies in [0, 1]. */
  predicate AllShares(xs: seq<real>) {
    forall i :: 0 <= i < |xs| ==> 0.0 <= xs[i] <= 1.0
  }

  lemma {:induction false} SumBounds(xs: seq<real>)
    requires AllShares(xs)
    ensures 0.0 <= Sum(xs) <= |xs| as real
  {
    if xs != [] {
      assert AllShares(xs[1..]) by {
        forall i | 0 <= i < |xs[1..]| ensures 0.0 <= xs[1..][i] <= 1.0 {
          assert xs[1..][i] == xs[i + 1];
        }
      }
      SumBounds(xs[1..]);
    }
  }

  /** The mean of values in [0, 1] lies in [0, 1]. */
  lemma MeanBounds(xs: seq<real>)
    requires |xs| > 0 && AllShares(xs)
    ensures 0.0 <= Mean(xs) <= 1.0
  {
    SumBounds(xs);
    var n := |xs| as real;
    assert Sum(xs) / n <= n / n;
  }
}
