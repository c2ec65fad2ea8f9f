/** Sums of natural-number sequences, added up from the front the way the
    source's accumulator loops add them. */
module Sums {

  /** The sum of all elements of `s`. */
  function Sum(s: seq<nat>): nat
  {
    if s == [] then 0 else Sum(s[..|s| - 1]) + s[|s| - 1]
  }

  /** Extending a prefix by one element adds that element to its sum. */
  lemma SumPrefixStep(s: seq<nat>, m: nat)
    requires m < |s|
    ensures Sum(s[..m + 1]) == Sum(s[..m]) + s[m]
  {
    assert s[..m + 1][..m] == s[..m];
  }

  /** Summing two sequences element by element sums their sums. */
  lemma {:induction false} SumPointwise(a: seq<nat>, d: seq<nat>, b: seq<nat>)
    requires |a| == |d| == |b|
    requires forall k :: 0 <= k < |b| ==> a[k] + d[k] == b[k]
    ensures Sum(a) + Sum(d) == Sum(b)
  {
    if b != [] {
      var n := |b| - 1;
      SumPointwise(a[..n], d[..n], b[..n]);
    }
  }

  /** Zeroing one element lowers the sum by exactly that element. */
  lemma {:induction false} SumZeroAt(s: seq<nat>, k: nat)
    requires k < |s|
    ensures Sum(s[k := 0]) + s[k] == Sum(s)
  {
    var n := |s| - 1;
    if k == n {
      assert s[k := 0][..n] == s[..n];
    } else {
      assert s[k := 0][..n] == s[..n][k := 0];
      SumZeroAt(s[..n], k);
    }
  }

  /** A sequence of zeros sums to zero. */
  lemma {:induction false} SumOfZeros(s: seq<nat>)
    requires forall k :: 0 <= k < |s| ==> s[k] == 0
    ensures Sum(s) == 0
  {
    if s != [] {
      SumOfZeros(s[..|s| - 1]);
    }
  }
}
