/** The sum and the arithmetic mean of a list of exact reals, with their bounds. */
module Stats {

  function Sum(xs: seq<real>): real {
    if xs == [] then 0.0 else xs[0] + Sum(xs[1..])
  }

  function Mean(xs: seq<real>): real
    requires |xs| > 0
  {
    Sum(xs) / |xs| as real
  }

  lemma {:induction false} SumAtLeast(xs: seq<real>, lo: real)
    requires forall i :: 0 <= i < |xs| ==> lo <= xs[i]
    ensures |xs| as real * lo <= Sum(xs)
  {
    if xs != [] {
      SumAtLeast(xs[1..], lo);
    }
  }

  lemma {:induction false} SumAtMost(xs: seq<real>, hi: real)
    requires forall i :: 0 <= i < |xs| ==> xs[i] <= hi
    ensures Sum(xs) <= |xs| as real * hi
  {
    if xs != [] {
      SumAtMost(xs[1..], hi);
    }
  }

  lemma {:induction false} SumBelow(xs: seq<real>, b: real)
    requires |xs| > 0
    requires forall i :: 0 <= i < |xs| ==> xs[i] < b
    ensures Sum(xs) < |xs| as real * b
  {
    if |xs| > 1 {
      SumBelow(xs[1..], b);
    }
  }

  /** The mean is at least any lower bound of the values. */
  lemma MeanAtLeast(xs: seq<real>, lo: real)
    requires |xs| > 0
    requires forall i :: 0 <= i < |xs| ==> lo <= xs[i]
    ensures lo <= Mean(xs)
  {
    SumAtLeast(xs, lo);
    var n := |xs| as real;
    assert Mean(xs) * n == Sum(xs);
  }

  /** The mean is at most any upper bound of the values. */
  lemma MeanAtMost(xs: seq<real>, hi: real)
    requires |xs| > 0
    requires forall i :: 0 <= i < |xs| ==> xs[i] <= hi
    ensures Mean(xs) <= hi
  {
    SumAtMost(xs, hi);
    var n := |xs| as real;
    assert Mean(xs) * n == Sum(xs);
  }

  /** The mean is strictly below a strict upper bound of the values. */
  lemma MeanBelow(xs: seq<real>, b: real)
    requires |xs| > 0
    requires forall i :: 0 <= i < |xs| ==> xs[i] < b
    ensures Mean(xs) < b
  {
    SumBelow(xs, b);
    var n := |xs| as real;
    assert Mean(xs) * n == Sum(xs);
  }

  /** The mean has the sign of the sum. */
  lemma MeanSign(xs: seq<real>)
    requires |xs| > 0
    ensures Mean(xs) >= 0.0 <==> Sum(xs) >= 0.0
  {
  }
}
