/** The evaluation statistics of the tumour classifier: for each class of a
    square confusion matrix, the one-vs-rest split into true/false
    positives/negatives and the four epsilon-guarded ratios derived from it,
    plus the table from image size to downsampling factor. */
module Classifier {
  import opened MatrixSums

  /** Image size -> downsampling factor used when loading the images. */
  const SizeToDf: map<int, int> := map[32 := 16, 64 := 8, 128 := 4]

  /** The table has exactly the sizes 32, 64 and 128, and for each of them
      size * factor == 512. */
  lemma SizeTimesFactor()
    ensures SizeToDf.Keys == {32, 64, 128}
    ensures forall s :: s in SizeToDf ==> s * SizeToDf[s] == 512
  {
  }

  /** One-vs-rest counts of a single class. */
  datatype Counts = Counts(tp: int, fp: int, fn: int, tn: int)
  {
    predicate NonNegative()
    {
      tp >= 0 && fp >= 0 && fn >= 0 && tn >= 0
    }
  }

  /** For a matrix of counts, the diagonal entry is at most its row and
      column sums, and the entries outside row i and column i total at
      least zero. */
  lemma CountsBounded(m: seq<seq<int>>, i: nat)
    requires IsSquare(m, |m|) && i < |m|
    ensures NonNegative(m) ==>
      && ColSum(m, i) >= m[i][i]
      && RowSum(m, i) >= m[i][i]
      && TotalExcept(m, i) >= 0
  {
    if NonNegative(m) {
      forall k | 0 <= k < |m|
        ensures Column(m, i)[k] >= 0
      {
        ColumnAt(m, i, k);
      }
      SumAtLeastEntry(Column(m, i), i);
      ColumnAt(m, i, i);
      SumAtLeastEntry(m[i], i);
      TotalExceptNonNegative(m, i);
    }
  }

  /** The one-vs-rest counts of class i, by definition: tp the diagonal entry,
      fp the rest of column i, fn the rest of row i, tn everything else. */
  function ClassCounts(m: seq<seq<int>>, i: nat): (c: Counts)
    requires IsSquare(m, |m|) && i < |m|
    ensures NonNegative(m) ==> c.NonNegative()
  {
    CountsBounded(m, i);
    Counts(m[i][i], ColSum(m, i) - m[i][i], RowSum(m, i) - m[i][i], TotalExcept(m, i))
  }

  /** The epsilon-guarded ratio num / (den + eps) of two counts. For
      counts 0 <= num <= den it lies in [0, 1), and it is 0 when num is. */
  function Ratio(num: int, den: int, eps: real): (r: real)
    requires den >= 0 && eps > 0.0
    ensures 0 <= num <= den ==> 0.0 <= r < 1.0
    ensures num == 0 ==> r == 0.0
  {
    var d := den as real + eps;
    var q := num as real / d;
    assert q * d == num as real;
    q
  }

  /** (tp + tn) / (tp + fp + tn + fn + eps). */
  function Accuracy(c: Counts, eps: real): (r: real)
    requires c.NonNegative() && eps > 0.0
    ensures 0.0 <= r < 1.0
  {
    Ratio(c.tp + c.tn, c.tp + c.fp + c.tn + c.fn, eps)
  }

  /** tp / (tp + fn + eps), the recall. */
  function Sensitivity(c: Counts, eps: real): (r: real)
    requires c.NonNegative() && eps > 0.0
    ensures 0.0 <= r < 1.0
  {
    Ratio(c.tp, c.tp + c.fn, eps)
  }

  /** tn / (tn + fp + eps). */
  function Specificity(c: Counts, eps: real): (r: real)
    requires c.NonNegative() && eps > 0.0
    ensures 0.0 <= r < 1.0
  {
    Ratio(c.tn, c.tn + c.fp, eps)
  }

  /** tp / (tp + fp + eps). */
  function Precision(c: Counts, eps: real): (r: real)
    requires c.NonNegative() && eps > 0.0
    ensures 0.0 <= r < 1.0
  {
    Ratio(c.tp, c.tp + c.fp, eps)
  }

  /** Row by row: the total of a matrix is what lies outside row i and
      column i, plus column i, plus the rest of row i. */
  lemma {:induction false} TotalSplits(m: seq<seq<int>>, n: nat, i: nat)
    requires Rectangular(m, n) && i < n
    ensures Total(m) == TotalExcept(m, i) + ColSum(m, i) + (if i < |m| then SumExcept(m[i], i) else 0)
  {
    if m != [] {
      var last := |m| - 1;
      var m' := m[..last];
      TotalSplits(m', n, i);
      assert Column(m, i)[..last] == Column(m', i);
      SumExceptIsSumMinusEntry(m[last], i);
      if i < last {
        assert m'[i] == m[i];
      }
    }
  }

  /** The four counts of any class partition the matrix: they add up to the
      total of all entries. */
  lemma CountsPartitionTotal(m: seq<seq<int>>, i: nat)
    requires IsSquare(m, |m|) && i < |m|
    ensures var c := ClassCounts(m, i); c.tp + c.fp + c.fn + c.tn == Total(m)
  {
    TotalSplits(m, |m|, i);
    SumExceptIsSumMinusEntry(m[i], i);
    ColumnAt(m, i, i);
  }

  /** One-vs-rest: fp is column i without its diagonal entry and fn is row i
      without its diagonal entry. */
  lemma CountsOffDiagonal(m: seq<seq<int>>, i: nat)
    requires IsSquare(m, |m|) && i < |m|
    ensures ClassCounts(m, i).tp == m[i][i]
    ensures ClassCounts(m, i).fp == SumExcept(Column(m, i), i)
    ensures ClassCounts(m, i).fn == SumExcept(m[i], i)
  {
    SumExceptIsSumMinusEntry(Column(m, i), i);
    ColumnAt(m, i, i);
    SumExceptIsSumMinusEntry(m[i], i);
  }

  /** The total of an all-zero matrix is zero. */
  lemma {:induction false} TotalZeros(m: seq<seq<int>>)
    requires forall k, j :: 0 <= k < |m| && 0 <= j < |m[k]| ==> m[k][j] == 0
    ensures Total(m) == 0
  {
    if m != [] {
      TotalZeros(m[..|m| - 1]);
      SumZeros(m[|m| - 1]);
    }
  }

  /** An all-zero matrix: every count and every metric is 0, with no
      division by zero thanks to eps. */
  lemma AllZeroMatrix(m: seq<seq<int>>, i: nat, eps: real)
    requires IsSquare(m, |m|) && i < |m| && eps > 0.0
    requires forall k, j :: 0 <= k < |m| && 0 <= j < |m| ==> m[k][j] == 0
    ensures ClassCounts(m, i) == Counts(0, 0, 0, 0)
    ensures Accuracy(ClassCounts(m, i), eps) == 0.0
    ensures Sensitivity(ClassCounts(m, i), eps) == 0.0
    ensures Specificity(ClassCounts(m, i), eps) == 0.0
    ensures Precision(ClassCounts(m, i), eps) == 0.0
  {
    TotalZeros(m);
    CountsPartitionTotal(m, i);
  }

  /** Leaving out entry i of a vector that is zero everywhere else gives 0. */
  lemma {:induction false} SumExceptOffZero(s: seq<int>, i: nat)
    requires forall j :: 0 <= j < |s| && j != i ==> s[j] == 0
    ensures SumExcept(s, i) == 0
  {
    if s != [] {
      SumExceptOffZero(s[..|s| - 1], i);
    }
  }

  /** A matrix with no off-diagonal mass (a perfect classifier) has no
      false positives and no false negatives: every sample is a true
      positive or a true negative of each class. */
  lemma PerfectClassifier(m: seq<seq<int>>, i: nat)
    requires IsSquare(m, |m|) && i < |m|
    requires forall k, j :: 0 <= k < |m| && 0 <= j < |m| && k != j ==> m[k][j] == 0
    ensures var c := ClassCounts(m, i); c.fp == 0 && c.fn == 0 && Total(m) == c.tp + c.tn
  {
    forall k | 0 <= k < |m| && k != i
      ensures Column(m, i)[k] == 0
    {
      ColumnAt(m, i, k);
    }
    SumExceptOffZero(Column(m, i), i);
    SumExceptOffZero(m[i], i);
    CountsOffDiagonal(m, i);
    CountsPartitionTotal(m, i);
  }

  /** A ratio x / (x + eps) of a count x >= 1 to itself is within eps of 1. */
  lemma RatioNearOne(x: int, eps: real)
    requires x >= 1 && eps > 0.0
    ensures 1.0 - eps < Ratio(x, x, eps) < 1.0
  {
    var d := x as real + eps;
    var q := x as real / d;
    assert q * d == x as real;
    var e := eps / d;
    assert e * d == eps;
    assert (q + e - 1.0) * d == 0.0;
    assert q + e == 1.0;
    assert d > 1.0 && e > 0.0;
    var g := e * (d - 1.0);
    ProductPositive(e, d - 1.0);
    assert g == e * d - e;
    assert e < eps;
    assert q == 1.0 - e;
    assert Ratio(x, x, eps) == q;
  }

  /** The product of two positive reals is positive. */
  lemma ProductPositive(a: real, b: real)
    requires a > 0.0 && b > 0.0
    ensures a * b > 0.0
  {
  }

  /** Counts with no false positives and no false negatives (those of a
      perfect classifier) give each metric the form x / (x + eps) for its
      count x: within eps of 1 when x >= 1, and exactly 0 when x = 0 (a class
      with no samples). */
  lemma NoErrorsMetrics(c: Counts, eps: real)
    requires c.NonNegative() && c.fp == 0 && c.fn == 0 && eps > 0.0
    ensures Accuracy(c, eps) == (c.tp + c.tn) as real / ((c.tp + c.tn) as real + eps)
    ensures Sensitivity(c, eps) == c.tp as real / (c.tp as real + eps)
    ensures Precision(c, eps) == c.tp as real / (c.tp as real + eps)
    ensures Specificity(c, eps) == c.tn as real / (c.tn as real + eps)
    ensures c.tp + c.tn >= 1 ==> 1.0 - eps < Accuracy(c, eps)
    ensures c.tp >= 1 ==> 1.0 - eps < Sensitivity(c, eps) && 1.0 - eps < Precision(c, eps)
    ensures c.tn >= 1 ==> 1.0 - eps < Specificity(c, eps)
    ensures c.tp == 0 ==> Sensitivity(c, eps) == 0.0 && Precision(c, eps) == 0.0
    ensures c.tn == 0 ==> Specificity(c, eps) == 0.0
  {
    if c.tp + c.tn >= 1 {
      RatioNearOne(c.tp + c.tn, eps);
    }
    if c.tp >= 1 {
      RatioNearOne(c.tp, eps);
    }
    if c.tn >= 1 {
      RatioNearOne(c.tn, eps);
    }
  }

  /** The true negatives of class i, accumulated entry by entry over every
      (k, j) with k != i and j != i, rows in order and columns in order. */
  method TrueNegatives(confusion: seq<seq<int>>, n: nat, i: nat) returns (tn: int)
    requires IsSquare(confusion, n) && i < n
    ensures tn == ClassCounts(confusion, i).tn
  {
    tn := 0;
    for k := 0 to n
      invariant tn == TotalExcept(confusion[..k], i)
    {
      for j := 0 to n
        invariant tn == TotalExcept(confusion[..k], i) + (if k == i then 0 else SumExcept(confusion[k][..j], i))
      {
        assert confusion[k][..j + 1][..j] == confusion[k][..j];
        if k != i && j != i {
          tn := tn + confusion[k][j];
        }
      }
      assert confusion[k][..n] == confusion[k];
      assert confusion[..k + 1][..k] == confusion[..k];
    }
    assert confusion[..n] == confusion;
  }

  /** One pass of the per-class loop: class i's counts and its four ratios.
      tp is the diagonal entry, fp and fn come from the column and row
      reductions minus tp, tn from the nested accumulation. */
  method ClassMetrics(confusion: seq<seq<int>>, n: nat, i: nat, eps: real)
    returns (accuracy: real, precision: real, specificity: real, sensitivity: real)
    requires IsSquare(confusion, n) && NonNegative(confusion) && i < n && eps > 0.0
    ensures var k := ClassCounts(confusion, i);
      && accuracy == Accuracy(k, eps) && precision == Precision(k, eps)
      && specificity == Specificity(k, eps) && sensitivity == Sensitivity(k, eps)
  {
    var tp := confusion[i][i];
    var fp := ColSum(confusion, i) - tp;
    var fn := RowSum(confusion, i) - tp;
    var tn := TrueNegatives(confusion, n, i);
    accuracy := Ratio(tp + tn, tp + fp + tn + fn, eps);
    sensitivity := Ratio(tp, tp + fn, eps);
    specificity := Ratio(tn, tn + fp, eps);
    precision := Ratio(tp, tp + fp, eps);
  }

  /** The classifier's per-class statistics. Four vectors are preallocated
      as zeros and filled by index, class by class; entry i of every vector
      is written once, in pass i, and depends on class i's counts only. */
  method Stats(confusion: seq<seq<int>>, numClasses: nat, eps: real)
    returns (accuracy: seq<real>, precision: seq<real>, specificity: seq<real>, sensitivity: seq<real>)
    requires IsSquare(confusion, numClasses) && NonNegative(confusion) && eps > 0.0
    ensures |accuracy| == |precision| == |specificity| == |sensitivity| == numClasses
    ensures forall i :: 0 <= i < numClasses ==> var k := ClassCounts(confusion, i);
      && accuracy[i] == Accuracy(k, eps) && precision[i] == Precision(k, eps)
      && specificity[i] == Specificity(k, eps) && sensitivity[i] == Sensitivity(k, eps)
  {
    var n := numClasses;
    var acc := new real[n](_ => 0.0);
    var prec := new real[n](_ => 0.0);
    var spec := new real[n](_ => 0.0);
    var sens := new real[n](_ => 0.0);
    for i := 0 to n
      invariant forall c :: 0 <= c < i ==> var k := ClassCounts(confusion, c);
        && acc[c] == Accuracy(k, eps) && prec[c] == Precision(k, eps)
        && spec[c] == Specificity(k, eps) && sens[c] == Sensitivity(k, eps)
      // entries of classes not yet reached are still the preallocated zeros
      invariant forall c :: i <= c < n ==> acc[c] == prec[c] == spec[c] == sens[c] == 0.0
    {
      var a, p, sp, se := ClassMetrics(confusion, n, i, eps);
      acc[i] := a;
      sens[i] := se;
      spec[i] := sp;
      prec[i] := p;
    }
    accuracy, precision, specificity, sensitivity := acc[..], prec[..], spec[..], sens[..];
  }

  /** The worked example [[5,1,0],[0,4,1],[1,0,3]], class 0: tp = 5, fp = 1,
      fn = 1, tn = 8 out of 15 samples. */
  lemma WorkedExample(eps: real)
    requires eps > 0.0
    ensures var m := [[5, 1, 0], [0, 4, 1], [1, 0, 3]];
      && ClassCounts(m, 0) == Counts(5, 1, 1, 8)
      && Accuracy(ClassCounts(m, 0), eps) == 13.0 / (15.0 + eps)
      && Precision(ClassCounts(m, 0), eps) == 5.0 / (6.0 + eps)
      && Sensitivity(ClassCounts(m, 0), eps) == 5.0 / (6.0 + eps)
      && Specificity(ClassCounts(m, 0), eps) == 8.0 / (9.0 + eps)
  {
    var m := [[5, 1, 0], [0, 4, 1], [1, 0, 3]];
    Triple(5, 1, 0);
    Triple(0, 4, 1);
    Triple(1, 0, 3);
    Triple(5, 0, 1);
    assert Column(m, 0) == [5, 0, 1] by {
      assert m[..2] == [[5, 1, 0], [0, 4, 1]] && m[..2][..1] == [[5, 1, 0]];
    }
    assert TotalExcept(m, 0) == 8 by {
      var m1, m2 := m[..1], m[..2];
      assert m2 == [[5, 1, 0], [0, 4, 1]] && m2[..1] == m1;
      assert m1[..0] == [];
      assert TotalExcept(m1, 0) == 0;
      assert TotalExcept(m2, 0) == 5;
    }
  }

  /** Sums of a literal three-entry vector, unfolded step by step. */
  lemma Triple(a: int, b: int, c: int)
    ensures Sum([a, b, c]) == a + b + c
    ensures SumExcept([a, b, c], 0) == b + c
  {
    assert [a][..0] == [];
    assert Sum([a]) == a && SumExcept([a], 0) == 0;
    assert [a, b][..1] == [a];
    assert Sum([a, b]) == a + b && SumExcept([a, b], 0) == b;
    assert [a, b, c][..2] == [a, b];
  }
}
