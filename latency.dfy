/**
 * The latency log kept by every decoder object: one elapsed time per
 * single-shot decode, and its arithmetic mean.
 */
module Latency {

  function Sum(s: seq<real>): real
  {
    if s == [] then 0.0 else Sum(s[..|s| - 1]) + s[|s| - 1]
  }

  /** get_average_latency: the mean of the log, 0.0 when the log is empty. */
  function Average(s: seq<real>): (r: real)
    ensures s == [] ==> r == 0.0
  {
    if s == [] then 0.0 else Sum(s) / (|s| as real)
  }

  lemma {:induction false} SumBounds(s: seq<real>, lo: real, hi: real)
    requires forall i :: 0 <= i < |s| ==> lo <= s[i] <= hi
    ensures lo * (|s| as real) <= Sum(s) <= hi * (|s| as real)
  {
    if s != [] {
      var n := |s| - 1;
      SumBounds(s[..n], lo, hi);
      assert lo * (|s| as real) == lo * (n as real) + lo;
      assert hi * (|s| as real) == hi * (n as real) + hi;
    }
  }

  /** The mean of a non-empty log lies between any lower and upper bound of its entries. */
  lemma AverageBounds(s: seq<real>, lo: real, hi: real)
    requires s != []
    requires forall i :: 0 <= i < |s| ==> lo <= s[i] <= hi
    ensures lo <= Average(s) <= hi
  {
    SumBounds(s, lo, hi);
    var n := |s| as real;
    assert Average(s) * n == Sum(s);
  }

  /** A log of one repeated time has that time as its mean. */
  lemma AverageOfConstant(s: seq<real>, t: real)
    requires s != []
    requires forall i :: 0 <= i < |s| ==> s[i] == t
    ensures Average(s) == t
  {
    AverageBounds(s, t, t);
  }
}
