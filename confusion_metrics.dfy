/** Per-class precision, recall and F1 computed from a confusion matrix, as
    `custom_precision_recall` and `f1_score` in svm_classifier.py compute them.

    Entry `c[i][j]` counts the test observations whose true class is `i` and
    whose predicted class is `j`. Metrics are exact rationals (`real`); a
    division whose denominator is zero, which NumPy turns into NaN, is the
    value `Undefined`. `f1_score` works on Python floats instead, where 0.0/0.0
    raises ZeroDivisionError. */
module ConfusionMetrics {
  import opened Sums

  type Matrix = seq<seq<nat>>

  /** Every row of `c` has `w` entries. */
  predicate Rectangular(c: Matrix, w: nat)
  {
    forall i :: 0 <= i < |c| ==> |c[i]| == w
  }

  /** A confusion matrix has one row and one column per class. */
  predicate Square(c: Matrix)
  {
    Rectangular(c, |c|)
  }

  /** Column `k` of `c`: for every true class, how often class `k` was predicted. */
  function Column(c: Matrix, k: nat): (col: seq<nat>)
    requires forall i :: 0 <= i < |c| ==> k < |c[i]|
    ensures |col| == |c|
  {
    seq(|c|, i requires 0 <= i < |c| => c[i][k])
  }

  /** Number of observations whose true class is `i`. */
  function RowTotal(c: Matrix, i: nat): nat
    requires i < |c|
  {
    Sum(c[i])
  }

  /** Number of observations predicted to be of class `k`. */
  function ColumnTotal(c: Matrix, k: nat): nat
    requires Square(c) && k < |c|
  {
    Sum(Column(c, k))
  }

  /** Observations wrongly predicted as class `k`: column `k` off the diagonal. */
  function FalsePositive(c: Matrix, k: nat): nat
    requires Square(c) && k < |c|
  {
    Sum(Column(c, k)[k := 0])
  }

  /** Observations of class `k` predicted as something else: row `k` off the diagonal. */
  function FalseNegative(c: Matrix, k: nat): nat
    requires Square(c) && k < |c|
  {
    Sum(c[k][k := 0])
  }

  /** True positives per class: the diagonal. */
  function Diagonal(c: Matrix): (d: seq<nat>)
    requires Square(c)
    ensures |d| == |c|
  {
    seq(|c|, k requires 0 <= k < |c| => c[k][k])
  }

  function FalsePositives(c: Matrix): (fp: seq<nat>)
    requires Square(c)
    ensures |fp| == |c|
  {
    seq(|c|, k requires 0 <= k < |c| => FalsePositive(c, k))
  }

  function FalseNegatives(c: Matrix): (fn: seq<nat>)
    requires Square(c)
    ensures |fn| == |c|
  {
    seq(|c|, k requires 0 <= k < |c| => FalseNegative(c, k))
  }

  function RowTotals(c: Matrix): (t: seq<nat>)
    ensures |t| == |c|
  {
    seq(|c|, i requires 0 <= i < |c| => Sum(c[i]))
  }

  function ColumnTotals(c: Matrix, w: nat): (t: seq<nat>)
    requires Rectangular(c, w)
    ensures |t| == w
  {
    seq(w, k requires 0 <= k < w => Sum(Column(c, k)))
  }

  /** Number of observations in the matrix. */
  function Total(c: Matrix): nat
  {
    Sum(RowTotals(c))
  }

  /** Number of correctly classified observations. */
  function Trace(c: Matrix): nat
    requires Square(c)
  {
    Sum(Diagonal(c))
  }

  /** A metric value: a rational, or the NaN that 0/0 produces. */
  datatype Metric = Defined(value: real) | Undefined

  function Quotient(num: real, den: real): Metric
  {
    if den == 0.0 then Undefined else Defined(num / den)
  }

  /** Standard precision of class `k`: TP / (number predicted as `k`). */
  function Precision(c: Matrix, k: nat): Metric
    requires Square(c) && k < |c|
  {
    Quotient(c[k][k] as real, ColumnTotal(c, k) as real)
  }

  /** Standard recall of class `k`: TP / (number truly of class `k`). */
  function Recall(c: Matrix, k: nat): Metric
    requires Square(c) && k < |c|
  {
    Quotient(c[k][k] as real, RowTotal(c, k) as real)
  }

  /** `f1_score` reads the metrics back as plain Python floats, so a NaN
      operand gives NaN, but 0.0 / 0.0 raises ZeroDivisionError. That happens
      when P + R is zero. */
  predicate RaisesZeroDivision(p: Metric, r: Metric)
  {
    p.Defined? && r.Defined? && p.value + r.value == 0.0
  }

  /** F1 = 2PR / (P + R) for a pair that does not raise. */
  function F1(p: Metric, r: Metric): Metric
    requires !RaisesZeroDivision(p, r)
  {
    if p.Defined? && r.Defined? then Defined(2.0 * p.value * r.value / (p.value + r.value))
    else Undefined
  }

  /** The outcome of `f1_score`: one F1 value per class, or the
      ZeroDivisionError raised by the first class whose P + R is zero. */
  datatype F1Outcome = Scores(f1: seq<Metric>) | ZeroDivisionError

  /** The inner loop of `custom_precision_recall` for class `i`. The
      accumulator the source calls `row_sum` adds `c[j][i]` (column `i`) and
      so counts false positives; `col_sum` adds `c[i][j]` (row `i`) and so
      counts false negatives; the diagonal entry is the true-positive count. */
  method ClassRow(c: Matrix, i: nat) returns (tp: nat, rowSum: nat, colSum: nat)
    requires Square(c) && i < |c|
    ensures tp == c[i][i]
    ensures rowSum == FalsePositive(c, i)
    ensures colSum == FalseNegative(c, i)
  {
    var n := |c|;
    ghost var column := Column(c, i)[i := 0];
    ghost var row := c[i][i := 0];
    tp, rowSum, colSum := 0, 0, 0;
    for j := 0 to n
      invariant rowSum == Sum(column[..j])
      invariant colSum == Sum(row[..j])
      invariant i < j ==> tp == c[i][i]
    {
      SumPrefixStep(column, j);
      SumPrefixStep(row, j);
      if i == j {
        tp := c[i][j];
      } else {
        rowSum := rowSum + c[j][i];
        colSum := colSum + c[i][j];
      }
    }
    assert column[..n] == column;
    assert row[..n] == row;
  }

  /** The first loop of `custom_precision_recall`: true-positive,
      false-positive and false-negative counts of every class. */
  method ClassCounts(c: Matrix) returns (tp: seq<nat>, fp: seq<nat>, fn: seq<nat>)
    requires Square(c)
    ensures tp == Diagonal(c)
    ensures fp == FalsePositives(c)
    ensures fn == FalseNegatives(c)
    ensures forall k :: 0 <= k < |c| ==> tp[k] + fp[k] == ColumnTotal(c, k)
    ensures forall k :: 0 <= k < |c| ==> tp[k] + fn[k] == RowTotal(c, k)
  {
    var n := |c|;
    tp, fp, fn := [], [], [];
    for i := 0 to n
      invariant |tp| == |fp| == |fn| == i
      invariant forall k :: 0 <= k < i ==> tp[k] == c[k][k]
      invariant forall k :: 0 <= k < i ==> fp[k] == FalsePositive(c, k)
      invariant forall k :: 0 <= k < i ==> fn[k] == FalseNegative(c, k)
    {
      var t, rowSum, colSum := ClassRow(c, i);
      tp := tp + [t];
      fp := fp + [rowSum];
      fn := fn + [colSum];
    }
    forall k | 0 <= k < n
      ensures tp[k] + fp[k] == ColumnTotal(c, k) && tp[k] + fn[k] == RowTotal(c, k)
    {
      ClassTotals(c, k);
    }
  }

  /** `custom_precision_recall`: one precision and one recall per class. */
  method CustomPrecisionRecall(c: Matrix) returns (precision: seq<Metric>, recall: seq<Metric>)
    requires Square(c)
    ensures |precision| == |recall| == |c|
    ensures forall k :: 0 <= k < |c| ==> precision[k] == Precision(c, k)
    ensures forall k :: 0 <= k < |c| ==> recall[k] == Recall(c, k)
  {
    var tp, fp, fn := ClassCounts(c);
    precision, recall := [], [];
    for k := 0 to |c|
      invariant |precision| == |recall| == k
      invariant forall m :: 0 <= m < k ==> precision[m] == Precision(c, m)
      invariant forall m :: 0 <= m < k ==> recall[m] == Recall(c, m)
    {
      // precision = tp / (tp + fp), recall = tp / (tp + fn)
      precision := precision + [Quotient(tp[k] as real, (tp[k] + fp[k]) as real)];
      recall := recall + [Quotient(tp[k] as real, (tp[k] + fn[k]) as real)];
    }
  }

  /** `f1_score`: one F1 value per class, from the precision and recall above.
      The source first copies the two metric columns into lists of Python
      floats; that copy keeps the values and is folded into the loop below. */
  method F1Score(c: Matrix) returns (r: F1Outcome)
    requires Square(c)
    ensures r.ZeroDivisionError? <==>
      exists k :: 0 <= k < |c| && RaisesZeroDivision(Precision(c, k), Recall(c, k))
    ensures r.Scores? ==> |r.f1| == |c|
    ensures r.Scores? ==> forall i :: 0 <= i < |c| ==>
      !RaisesZeroDivision(Precision(c, i), Recall(c, i)) && r.f1[i] == F1(Precision(c, i), Recall(c, i))
  {
    var precision, recall := CustomPrecisionRecall(c);
    var f1: seq<Metric> := [];
    for i := 0 to |precision|
      invariant |f1| == i
      invariant forall m :: 0 <= m < i ==>
        !RaisesZeroDivision(Precision(c, m), Recall(c, m)) && f1[m] == F1(Precision(c, m), Recall(c, m))
    {
      if RaisesZeroDivision(precision[i], recall[i]) {
        return ZeroDivisionError;
      }
      f1 := f1 + [F1(precision[i], recall[i])];
    }
    r := Scores(f1);
  }

  /** TP + FP is the column total and TP + FN the row total. */
  lemma ClassTotals(c: Matrix, k: nat)
    requires Square(c) && k < |c|
    ensures c[k][k] + FalsePositive(c, k) == ColumnTotal(c, k)
    ensures c[k][k] + FalseNegative(c, k) == RowTotal(c, k)
  {
    SumZeroAt(Column(c, k), k);
    SumZeroAt(c[k], k);
  }

  /** Adding up the column totals counts every observation once. */
  lemma {:induction false} ColumnTotalsSum(c: Matrix, w: nat)
    requires Rectangular(c, w)
    ensures Sum(ColumnTotals(c, w)) == Total(c)
  {
    if c == [] {
      SumOfZeros(ColumnTotals(c, w));
      assert RowTotals(c) == [];
    } else {
      var n := |c| - 1;
      var prev := c[..n];
      assert Rectangular(prev, w);
      forall k | 0 <= k < w
        ensures ColumnTotals(prev, w)[k] + c[n][k] == ColumnTotals(c, w)[k]
      {
        assert Column(c, k)[..n] == Column(prev, k);
      }
      SumPointwise(ColumnTotals(prev, w), c[n], ColumnTotals(c, w));
      ColumnTotalsSum(prev, w);
      assert RowTotals(c)[..n] == RowTotals(prev);
    }
  }

  /** Summed over classes, false positives and false negatives both count
      every misclassified observation: all off-diagonal entries. */
  lemma ErrorTotalsBalance(c: Matrix)
    requires Square(c)
    ensures Sum(FalsePositives(c)) == Total(c) - Trace(c)
    ensures Sum(FalseNegatives(c)) == Total(c) - Trace(c)
  {
    forall k | 0 <= k < |c|
      ensures FalsePositives(c)[k] + Diagonal(c)[k] == ColumnTotals(c, |c|)[k]
      ensures FalseNegatives(c)[k] + Diagonal(c)[k] == RowTotals(c)[k]
    {
      ClassTotals(c, k);
    }
    SumPointwise(FalsePositives(c), Diagonal(c), ColumnTotals(c, |c|));
    SumPointwise(FalseNegatives(c), Diagonal(c), RowTotals(c));
    ColumnTotalsSum(c, |c|);
  }

  /** Precision is NaN exactly when class `k` is never predicted, and 0/0 is
      the only zero division that can occur; otherwise it is TP / (TP + FP)
      and lies in [0, 1]. */
  lemma PrecisionRange(c: Matrix, k: nat)
    requires Square(c) && k < |c|
    ensures Precision(c, k).Undefined? <==> ColumnTotal(c, k) == 0
    ensures ColumnTotal(c, k) == 0 ==> c[k][k] == 0
    ensures Precision(c, k) == Quotient(c[k][k] as real, (c[k][k] + FalsePositive(c, k)) as real)
    ensures Precision(c, k).Defined? ==> 0.0 <= Precision(c, k).value <= 1.0
  {
    ClassTotals(c, k);
    UnitQuotient(c[k][k], ColumnTotal(c, k));
  }

  /** Recall is NaN exactly when class `k` never occurs; otherwise it is
      TP / (TP + FN) and lies in [0, 1]. */
  lemma RecallRange(c: Matrix, k: nat)
    requires Square(c) && k < |c|
    ensures Recall(c, k).Undefined? <==> RowTotal(c, k) == 0
    ensures RowTotal(c, k) == 0 ==> c[k][k] == 0
    ensures Recall(c, k) == Quotient(c[k][k] as real, (c[k][k] + FalseNegative(c, k)) as real)
    ensures Recall(c, k).Defined? ==> 0.0 <= Recall(c, k).value <= 1.0
  {
    ClassTotals(c, k);
    UnitQuotient(c[k][k], RowTotal(c, k));
  }

  lemma UnitQuotient(part: nat, whole: nat)
    requires part <= whole
    ensures whole > 0 ==> 0.0 <= part as real / whole as real <= 1.0
  {
    if whole > 0 {
      var q := part as real / whole as real;
      assert q * whole as real == part as real;
    }
  }

  /** With t > 0 true positives, `f` false positives and `n` false negatives,
      the harmonic mean of precision and recall is 2t / (2t + f + n). */
  lemma F1OfCounts(t: real, f: real, n: real)
    requires t > 0.0 && f >= 0.0 && n >= 0.0
    ensures !RaisesZeroDivision(Quotient(t, t + f), Quotient(t, t + n))
    ensures F1(Quotient(t, t + f), Quotient(t, t + n)) == Defined(2.0 * t / (2.0 * t + f + n))
  {
    var a, b, s := t + f, t + n, 2.0 * t + f + n;
    var p, r := t / a, t / b;
    assert p * a == t && r * b == t;
    assert p > 0.0 && r > 0.0;
    assert t * p == p * r * b && t * r == p * r * a;
    assert t * (p + r) == p * r * s;
    assert 2.0 * p * r / (p + r) == 2.0 * t / s;
  }

  /** F1 from the counts of one class, in three cases: it raises exactly when
      TP = 0 while FP and FN are both positive (P = R = 0); otherwise it is
      NaN exactly when TP + FP or TP + FN is zero, and a value exactly when
      TP > 0, namely 2TP / (2TP + FP + FN), which lies in (0, 1]. */
  lemma F1FromCounts(tp: nat, fp: nat, fn: nat)
    ensures RaisesZeroDivision(Quotient(tp as real, (tp + fp) as real), Quotient(tp as real, (tp + fn) as real))
      <==> tp == 0 && fp > 0 && fn > 0
    ensures !RaisesZeroDivision(Quotient(tp as real, (tp + fp) as real), Quotient(tp as real, (tp + fn) as real)) ==>
      (F1(Quotient(tp as real, (tp + fp) as real), Quotient(tp as real, (tp + fn) as real)).Undefined? <==>
       tp + fp == 0 || tp + fn == 0)
    ensures !RaisesZeroDivision(Quotient(tp as real, (tp + fp) as real), Quotient(tp as real, (tp + fn) as real)) ==>
      (F1(Quotient(tp as real, (tp + fp) as real), Quotient(tp as real, (tp + fn) as real)).Defined? <==> tp > 0)
    ensures tp > 0 ==>
      !RaisesZeroDivision(Quotient(tp as real, (tp + fp) as real), Quotient(tp as real, (tp + fn) as real)) &&
      F1(Quotient(tp as real, (tp + fp) as real), Quotient(tp as real, (tp + fn) as real))
        == Defined(2.0 * tp as real / (2 * tp + fp + fn) as real)
    ensures tp > 0 ==> 0.0 < 2.0 * tp as real / (2 * tp + fp + fn) as real <= 1.0
  {
    var t, f, n := tp as real, fp as real, fn as real;
    if tp > 0 {
      F1OfCounts(t, f, n);
      UnitQuotient(2 * tp, 2 * tp + fp + fn);
      assert (2 * tp) as real == 2.0 * t;
    } else if tp + fp > 0 && tp + fn > 0 {
      assert Quotient(t, (tp + fp) as real) == Defined(0.0);
      assert Quotient(t, (tp + fn) as real) == Defined(0.0);
    }
  }

  /** F1 of class `k`: `f1_score` raises exactly when the class has no true
      positive yet is both predicted and present (P = R = 0). Otherwise F1 is
      NaN exactly when the row or column total is zero, and a value exactly
      when TP > 0: then 2TP / (2TP + FP + FN), i.e. 2TP over the sum of the
      row and column totals, in (0, 1]. */
  lemma F1Range(c: Matrix, k: nat)
    requires Square(c) && k < |c|
    ensures RaisesZeroDivision(Precision(c, k), Recall(c, k)) <==>
      c[k][k] == 0 && RowTotal(c, k) > 0 && ColumnTotal(c, k) > 0
    ensures !RaisesZeroDivision(Precision(c, k), Recall(c, k)) ==>
      (F1(Precision(c, k), Recall(c, k)).Undefined? <==> RowTotal(c, k) == 0 || ColumnTotal(c, k) == 0)
    ensures !RaisesZeroDivision(Precision(c, k), Recall(c, k)) ==>
      (F1(Precision(c, k), Recall(c, k)).Defined? <==> c[k][k] > 0)
    ensures c[k][k] > 0 ==>
      !RaisesZeroDivision(Precision(c, k), Recall(c, k)) &&
      F1(Precision(c, k), Recall(c, k)).Defined? &&
      F1(Precision(c, k), Recall(c, k)).value
        == 2.0 * c[k][k] as real / (2 * c[k][k] + FalsePositive(c, k) + FalseNegative(c, k)) as real &&
      F1(Precision(c, k), Recall(c, k)).value
        == 2.0 * c[k][k] as real / (RowTotal(c, k) + ColumnTotal(c, k)) as real &&
      0.0 < F1(Precision(c, k), Recall(c, k)).value <= 1.0
  {
    var tp, fp, fn := c[k][k], FalsePositive(c, k), FalseNegative(c, k);
    PrecisionRange(c, k);
    RecallRange(c, k);
    ClassTotals(c, k);
    F1FromCounts(tp, fp, fn);
    var p, r := Precision(c, k), Recall(c, k);
    assert p == Quotient(tp as real, (tp + fp) as real);
    assert r == Quotient(tp as real, (tp + fn) as real);
    assert RowTotal(c, k) == tp + fn && ColumnTotal(c, k) == tp + fp;
  }

  /** The two-class example [[50, 10], [5, 35]]. */
  lemma ExampleTwoClasses()
    ensures Square([[50, 10], [5, 35]])
    ensures Precision([[50, 10], [5, 35]], 0) == Defined(50.0 / 55.0)
    ensures Recall([[50, 10], [5, 35]], 0) == Defined(50.0 / 60.0)
    ensures !RaisesZeroDivision(Precision([[50, 10], [5, 35]], 0), Recall([[50, 10], [5, 35]], 0))
    ensures F1(Precision([[50, 10], [5, 35]], 0), Recall([[50, 10], [5, 35]], 0)) == Defined(20.0 / 23.0)
    ensures Precision([[50, 10], [5, 35]], 1) == Defined(35.0 / 45.0)
    ensures Recall([[50, 10], [5, 35]], 1) == Defined(35.0 / 40.0)
  {
    var c: Matrix := [[50, 10], [5, 35]];
    assert Column(c, 0) == [50, 5];
    assert Column(c, 1) == [10, 35];
    assert Sum([50, 5]) == 55 by { assert [50, 5][..1] == [50]; assert [50][..0] == []; }
    assert Sum([10, 35]) == 45 by { assert [10, 35][..1] == [10]; assert [10][..0] == []; }
    assert Sum(c[0]) == 60 by { assert c[0][..1] == [50]; assert [50][..0] == []; }
    assert Sum(c[1]) == 40 by { assert c[1][..1] == [5]; assert [5][..0] == []; }
    F1Range(c, 0);
    assert FalsePositive(c, 0) == 5 by { SumZeroAt(Column(c, 0), 0); }
    assert FalseNegative(c, 0) == 10 by { SumZeroAt(c[0], 0); }
  }

  /** [[0, 1], [1, 0]]: class 0 is predicted once and present once but never
      correctly, so P = R = 0 and `f1_score` raises. */
  lemma ExampleZeroDivision()
    ensures Square([[0, 1], [1, 0]])
    ensures Precision([[0, 1], [1, 0]], 0) == Defined(0.0)
    ensures Recall([[0, 1], [1, 0]], 0) == Defined(0.0)
    ensures RaisesZeroDivision(Precision([[0, 1], [1, 0]], 0), Recall([[0, 1], [1, 0]], 0))
  {
    var c: Matrix := [[0, 1], [1, 0]];
    assert Column(c, 0) == [0, 1];
    assert Sum([0, 1]) == 1 by { assert [0, 1][..1] == [0]; assert [0][..0] == []; }
    assert Sum(c[0]) == 1 by { assert c[0][..1] == [0]; assert [0][..0] == []; }
  }
}
