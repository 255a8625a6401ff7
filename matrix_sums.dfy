/** Sums over vectors and integer matrices: the reductions that the
    per-class statistics of a confusion matrix are built from. A matrix is a
    sequence of rows; entry m[k][j] counts the samples of true class k that
    were predicted as class j. Every sum peels its last element, so that a
    loop adding s[0], s[1], ... in order keeps `acc == Sum(s[..j])`. */
module MatrixSums {

  /** The sum of a vector. */
  function Sum(s: seq<int>): int
  {
    if s == [] then 0 else Sum(s[..|s| - 1]) + s[|s| - 1]
  }

  /** The sum of the entries s[j] with j != i. */
  function SumExcept(s: seq<int>, i: nat): int
  {
    if s == [] then 0
    else SumExcept(s[..|s| - 1], i) + (if |s| - 1 == i then 0 else s[|s| - 1])
  }

  /** Every row of m has n entries. */
  predicate Rectangular(m: seq<seq<int>>, n: nat)
  {
    forall k :: 0 <= k < |m| ==> |m[k]| == n
  }

  /** m has n rows of n entries each. */
  predicate IsSquare(m: seq<seq<int>>, n: nat)
  {
    |m| == n && Rectangular(m, n)
  }

  /** Every entry of m is a count, that is, non-negative. */
  predicate NonNegative(m: seq<seq<int>>)
  {
    forall k, j :: 0 <= k < |m| && 0 <= j < |m[k]| ==> m[k][j] >= 0
  }

  /** Column c of m: entry k is m[k][c]. */
  function Column(m: seq<seq<int>>, c: nat): (col: seq<int>)
    requires forall k :: 0 <= k < |m| ==> c < |m[k]|
    ensures |col| == |m|
  {
    if m == [] then [] else Column(m[..|m| - 1], c) + [m[|m| - 1][c]]
  }

  /** The sum of row r (the number of samples whose true class is r). */
  function RowSum(m: seq<seq<int>>, r: nat): int
    requires r < |m|
  {
    Sum(m[r])
  }

  /** The sum of column c (the number of samples predicted as class c). */
  function ColSum(m: seq<seq<int>>, c: nat): int
    requires forall k :: 0 <= k < |m| ==> c < |m[k]|
  {
    Sum(Column(m, c))
  }

  /** The total of every entry of m. */
  function Total(m: seq<seq<int>>): int
  {
    if m == [] then 0 else Total(m[..|m| - 1]) + Sum(m[|m| - 1])
  }

  /** The total of the entries m[k][j] with k != i and j != i: everything
      outside row i and column i. */
  function TotalExcept(m: seq<seq<int>>, i: nat): int
  {
    if m == [] then 0
    else TotalExcept(m[..|m| - 1], i) + (if |m| - 1 == i then 0 else SumExcept(m[|m| - 1], i))
  }

  /** Entry k of Column(m, c) is m[k][c]. */
  lemma {:induction false} ColumnAt(m: seq<seq<int>>, c: nat, k: nat)
    requires forall l :: 0 <= l < |m| ==> c < |m[l]|
    requires k < |m|
    ensures Column(m, c)[k] == m[k][c]
  {
    if k < |m| - 1 {
      ColumnAt(m[..|m| - 1], c, k);
    }
  }

  /** Sum distributes over concatenation. */
  lemma {:induction false} SumConcat(a: seq<int>, b: seq<int>)
    ensures Sum(a + b) == Sum(a) + Sum(b)
  {
    if b == [] {
      assert a + b == a;
    } else {
      var b' := b[..|b| - 1];
      assert (a + b)[..|a + b| - 1] == a + b';
      SumConcat(a, b');
    }
  }

  /** Leaving out entry i removes exactly s[i] from the sum, or nothing when
      there is no entry i. */
  lemma {:induction false} SumExceptIsSumMinusEntry(s: seq<int>, i: nat)
    ensures SumExcept(s, i) == Sum(s) - (if i < |s| then s[i] else 0)
  {
    if s != [] {
      SumExceptIsSumMinusEntry(s[..|s| - 1], i);
    }
  }

  /** A vector of zeros sums to zero. */
  lemma {:induction false} SumZeros(s: seq<int>)
    requires forall j :: 0 <= j < |s| ==> s[j] == 0
    ensures Sum(s) == 0
  {
    if s != [] {
      SumZeros(s[..|s| - 1]);
    }
  }

  /** A vector of non-negative entries has a non-negative sum, also when one
      entry is left out. */
  lemma {:induction false} SumNonNegative(s: seq<int>, i: nat)
    requires forall j :: 0 <= j < |s| ==> s[j] >= 0
    ensures Sum(s) >= 0 && SumExcept(s, i) >= 0
  {
    if s != [] {
      SumNonNegative(s[..|s| - 1], i);
    }
  }

  /** With non-negative entries, no single entry exceeds the sum. */
  lemma SumAtLeastEntry(s: seq<int>, j: nat)
    requires j < |s|
    requires forall l :: 0 <= l < |s| ==> s[l] >= 0
    ensures Sum(s) >= s[j]
  {
    SumNonNegative(s, j);
    SumExceptIsSumMinusEntry(s, j);
  }

  /** A non-negative matrix has a non-negative total outside any row and
      column. */
  lemma {:induction false} TotalExceptNonNegative(m: seq<seq<int>>, i: nat)
    requires NonNegative(m)
    ensures TotalExcept(m, i) >= 0
  {
    if m != [] {
      TotalExceptNonNegative(m[..|m| - 1], i);
      SumNonNegative(m[|m| - 1], i);
    }
  }
}
