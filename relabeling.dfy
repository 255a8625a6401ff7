/** Class labels are arbitrary: renaming the classes consistently, that is,
    permuting the rows and the columns of the confusion matrix by the same
    permutation, only renames the per-class statistics. */
module Relabeling {
  import opened MatrixSums
  import opened Classifier

  /** p is a bijection of 0 .. n-1 onto itself. */
  predicate IsPermutation(p: seq<nat>, n: nat)
  {
    && |p| == n
    && (forall a :: 0 <= a < n ==> p[a] < n)
    && (forall a, b :: 0 <= a < b < n ==> p[a] != p[b])
    && (forall x :: 0 <= x < n ==> x in p)
  }

  /** The vector whose entry b is s[p[b]]. */
  function Relabel(s: seq<int>, p: seq<nat>): seq<int>
    requires forall b :: 0 <= b < |p| ==> p[b] < |s|
  {
    seq(|p|, b requires 0 <= b < |p| => s[p[b]])
  }

  /** The matrix whose entry (a, b) is m[p[a]][p[b]]: class a of the new
      labelling is class p[a] of the old one. */
  function RelabelMatrix(m: seq<seq<int>>, p: seq<nat>): (r: seq<seq<int>>)
    requires IsSquare(m, |m|) && IsPermutation(p, |m|)
    ensures IsSquare(r, |m|)
  {
    seq(|p|, a requires 0 <= a < |p| => Relabel(m[p[a]], p))
  }

  /** Removing one position from a permutation of 0 .. n-1 whose entry there
      is n-1 leaves a permutation of 0 .. n-2. */
  lemma RemoveLast(p: seq<nat>, n: nat, j: nat)
    requires n > 0 && IsPermutation(p, n) && j < n && p[j] == n - 1
    ensures IsPermutation(p[..j] + p[j + 1..], n - 1)
  {
    var q := p[..j] + p[j + 1..];
    assert forall b :: 0 <= b < n - 1 ==> q[b] == if b < j then p[b] else p[b + 1];
    forall x | 0 <= x < n - 1
      ensures x in q
    {
      assert x in p;
      var a :| 0 <= a < n && p[a] == x;
      if a < j {
        assert q[a] == x;
      } else {
        assert q[a - 1] == x;
      }
    }
  }

  /** Removing entry j of a vector removes t[j] from its sum. */
  lemma SumWithout(t: seq<int>, j: nat)
    requires j < |t|
    ensures Sum(t[..j] + t[j + 1..]) == Sum(t) - t[j]
  {
    assert t == t[..j] + [t[j]] + t[j + 1..];
    SumConcat(t[..j], t[j + 1..]);
    SumConcat(t[..j] + [t[j]], t[j + 1..]);
    SumConcat(t[..j], [t[j]]);
    assert Sum([t[j]]) == t[j] by { assert [t[j]][..0] == []; }
  }

  /** Relabelling the vector without its last entry by p without the position
      of that entry is relabelling by p and then dropping that position. */
  lemma RelabelWithout(s: seq<int>, p: seq<nat>, j: nat)
    requires |s| > 0 && IsPermutation(p, |s|) && j < |s| && p[j] == |s| - 1
    ensures IsPermutation(p[..j] + p[j + 1..], |s| - 1)
    ensures Relabel(s[..|s| - 1], p[..j] + p[j + 1..]) == Relabel(s, p)[..j] + Relabel(s, p)[j + 1..]
  {
    RemoveLast(p, |s|, j);
  }

  /** Relabelling a vector by a permutation does not change its sum. */
  lemma {:induction false} SumRelabel(s: seq<int>, p: seq<nat>)
    requires IsPermutation(p, |s|)
    ensures Sum(Relabel(s, p)) == Sum(s)
  {
    var n := |s|;
    if n > 0 {
      var last := n - 1;
      assert last in p;
      var j :| 0 <= j < n && p[j] == last;
      RelabelWithout(s, p, j);
      SumRelabel(s[..last], p[..j] + p[j + 1..]);
      SumWithout(Relabel(s, p), j);
    }
  }

  /** The vector of row sums of m. */
  function RowSums(m: seq<seq<int>>): seq<int>
  {
    seq(|m|, k requires 0 <= k < |m| => Sum(m[k]))
  }

  /** The total is the sum of the row sums. */
  lemma {:induction false} TotalIsSumOfRowSums(m: seq<seq<int>>)
    ensures Total(m) == Sum(RowSums(m))
  {
    if m != [] {
      var m' := m[..|m| - 1];
      TotalIsSumOfRowSums(m');
      assert RowSums(m)[..|m| - 1] == RowSums(m');
    }
  }

  /** Relabelling the classes by p turns class p[a]'s counts into class a's:
      tp, fp, fn and tn, and hence all four metrics, are only renamed. */
  lemma RelabelCounts(m: seq<seq<int>>, p: seq<nat>, a: nat)
    requires IsSquare(m, |m|) && IsPermutation(p, |m|) && a < |m|
    ensures ClassCounts(RelabelMatrix(m, p), a) == ClassCounts(m, p[a])
  {
    var n := |m|;
    var r := RelabelMatrix(m, p);
    var c := p[a];
    // row a of r is row c of m, relabelled
    SumRelabel(m[c], p);
    // column a of r is column c of m, relabelled
    forall k | 0 <= k < n
      ensures Column(r, a)[k] == Relabel(Column(m, c), p)[k]
    {
      ColumnAt(r, a, k);
      ColumnAt(m, c, p[k]);
    }
    assert Column(r, a) == Relabel(Column(m, c), p);
    SumRelabel(Column(m, c), p);
    // the total is unchanged
    forall k | 0 <= k < n
      ensures RowSums(r)[k] == Relabel(RowSums(m), p)[k]
    {
      SumRelabel(m[p[k]], p);
    }
    assert RowSums(r) == Relabel(RowSums(m), p);
    SumRelabel(RowSums(m), p);
    TotalIsSumOfRowSums(r);
    TotalIsSumOfRowSums(m);
    // so is tn, the part of the total outside the class's row and column
    CountsPartitionTotal(r, a);
    CountsPartitionTotal(m, c);
  }

  /** A relabelled matrix of counts is still a matrix of counts. */
  lemma RelabelNonNegative(m: seq<seq<int>>, p: seq<nat>)
    requires IsSquare(m, |m|) && IsPermutation(p, |m|) && NonNegative(m)
    ensures NonNegative(RelabelMatrix(m, p))
  {
  }
}
