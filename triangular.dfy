/** The value of an upper-triangular matrix TMatrix<int> and the operations
    that build new values from it: indexing, +, -, * and ==.  A matrix of
    order n is a sequence of n rows; row i is the row vector whose start
    index is i and whose length is n - i, so it stores columns i..n-1 and
    the cell (i, j) lives at position j - i of row i. */
module Triangular {
  import opened Failures

  /** The largest order a matrix may have.  The constant's value is not in
      the source files modelled here; 10000 is an assumed value. */
  const MaxMatrixSize: int := 10000

  /** The three ways the matrix throws. */
  datatype MatrixError =
    | InvalidSize   // construction with order <= 0 or > MaxMatrixSize
    | OutOfRange    // a row or column index outside the stored triangle
    | SizeMismatch  // +, - or * on operands of different orders

  /** An order the constructor accepts. */
  predicate ValidOrder(n: int) {
    0 < n <= MaxMatrixSize
  }

  /** The row layout: row i has length n - i. */
  predicate IsTriangular(m: seq<seq<int>>) {
    forall i :: 0 <= i < |m| ==> |m[i]| == |m| - i
  }

  /** (i, j) is a stored cell of a matrix of order n. */
  predicate InDomain(n: int, i: int, j: int) {
    0 <= i < n && i <= j < n
  }

  /** The stored cell (i, j). */
  function Cell(m: seq<seq<int>>, i: int, j: int): int
    requires IsTriangular(m) && InDomain(|m|, i, j)
  {
    m[i][j - i]
  }

  /** The cell (i, j) of the full square matrix, with the cells below the
      diagonal read as zero. */
  function Entry(m: seq<seq<int>>, i: int, j: int): int
    requires IsTriangular(m) && 0 <= i < |m| && 0 <= j < |m|
  {
    if i <= j then m[i][j - i] else 0
  }

  /** The matrix a fresh TMatrix(n) holds: every stored cell is zero. */
  function Zero(n: nat): (m: seq<seq<int>>)
    ensures IsTriangular(m) && |m| == n
    ensures forall i, j :: InDomain(n, i, j) ==> Cell(m, i, j) == 0
  {
    seq(n, (i: int) requires 0 <= i < n => seq(n - i, _ => 0))
  }

  /** The identity matrix of order n. */
  function Identity(n: nat): (m: seq<seq<int>>)
    ensures IsTriangular(m) && |m| == n
    ensures forall i, j :: InDomain(n, i, j) ==> Cell(m, i, j) == if i == j then 1 else 0
  {
    seq(n, (i: int) requires 0 <= i < n => seq(n - i, (d: int) => if d == 0 then 1 else 0))
  }

  /** Two matrices of the same order with the same stored cells are the
      same matrix. */
  lemma SameCells(a: seq<seq<int>>, b: seq<seq<int>>)
    requires IsTriangular(a) && IsTriangular(b) && |a| == |b|
    requires forall i, j :: InDomain(|a|, i, j) ==> Cell(a, i, j) == Cell(b, i, j)
    ensures a == b
  {
    forall i | 0 <= i < |a|
      ensures a[i] == b[i]
    {
      forall d | 0 <= d < |a[i]|
        ensures a[i][d] == b[i][d]
      {
        assert Cell(a, i, i + d) == Cell(b, i, i + d);
      }
    }
  }

  /** Equal orders and equal stored cells hold exactly when the matrices
      are the same value. */
  lemma SameCellsIff(a: seq<seq<int>>, b: seq<seq<int>>)
    requires IsTriangular(a) && IsTriangular(b)
    ensures (|a| == |b| && forall i, j :: InDomain(|a|, i, j) ==> Cell(a, i, j) == Cell(b, i, j)) <==> a == b
  {
    if |a| == |b| && forall i, j :: InDomain(|a|, i, j) ==> Cell(a, i, j) == Cell(b, i, j) {
      SameCells(a, b);
    }
  }

  /** Indexing m[i][j]: the matrix checks the row index against its order,
      then row i, a vector whose start index is i, checks the column index
      against its own range i..n-1. */
  function At(m: seq<seq<int>>, i: int, j: int): (r: Result<int, MatrixError>)
    requires IsTriangular(m)
    ensures r.Success? <==> InDomain(|m|, i, j)
    ensures r.Failure? ==> r.error == OutOfRange
    ensures r.Success? ==> r.value == Cell(m, i, j)
  {
    if i < 0 || i >= |m| then Failure(OutOfRange)
    else RowAt(m[i], i, j)
  }

  /** Indexing a row vector whose stored positions are start..start+|row|-1. */
  function RowAt(row: seq<int>, start: int, pos: int): (r: Result<int, MatrixError>)
    ensures r.Success? <==> start <= pos < start + |row|
    ensures r.Failure? ==> r.error == OutOfRange
    ensures r.Success? ==> r.value == row[pos - start]
  {
    if pos < start || pos >= start + |row| then Failure(OutOfRange)
    else Success(row[pos - start])
  }

  /** The assignment m[i][j] = x: the same two checks as indexing, then only
      the cell (i, j) changes. */
  function Update(m: seq<seq<int>>, i: int, j: int, x: int): (r: Result<seq<seq<int>>, MatrixError>)
    requires IsTriangular(m)
    ensures r.Success? <==> InDomain(|m|, i, j)
    ensures r.Failure? ==> r.error == OutOfRange
    ensures r.Success? ==> IsTriangular(r.value) && |r.value| == |m|
    ensures r.Success? ==> Cell(r.value, i, j) == x
  {
    if i < 0 || i >= |m| || j < i || j >= |m| then Failure(OutOfRange)
    else Success(m[i := m[i][j - i := x]])
  }

  /** A successful assignment changes no cell other than (i, j), and
      reading (i, j) afterwards gives the value written. */
  lemma UpdateThenAt(m: seq<seq<int>>, i: int, j: int, x: int, p: int, q: int)
    requires IsTriangular(m) && Update(m, i, j, x).Success?
    ensures At(Update(m, i, j, x).value, i, j) == Success(x)
    ensures (p != i || q != j) ==> At(Update(m, i, j, x).value, p, q) == At(m, p, q)
  {
  }

  /** Vector addition of two rows of the same length. */
  function RowSum(u: seq<int>, v: seq<int>): (w: seq<int>)
    requires |u| == |v|
    ensures |w| == |u|
    ensures forall k :: 0 <= k < |u| ==> w[k] == u[k] + v[k]
  {
    seq(|u|, (k: int) requires 0 <= k < |u| => u[k] + v[k])
  }

  /** Vector subtraction of two rows of the same length. */
  function RowDifference(u: seq<int>, v: seq<int>): (w: seq<int>)
    requires |u| == |v|
    ensures |w| == |u|
    ensures forall k :: 0 <= k < |u| ==> w[k] == u[k] - v[k]
  {
    seq(|u|, (k: int) requires 0 <= k < |u| => u[k] - v[k])
  }

  /** a + b: refused unless the orders agree; otherwise row i of the result
      is the vector sum of the rows i, so every stored cell is the sum of
      the two cells. */
  function Add(a: seq<seq<int>>, b: seq<seq<int>>): (r: Result<seq<seq<int>>, MatrixError>)
    requires IsTriangular(a) && IsTriangular(b)
    ensures r.Failure? <==> |a| != |b|
    ensures r.Failure? ==> r.error == SizeMismatch
    ensures r.Success? ==> IsTriangular(r.value) && |r.value| == |a|
    ensures r.Success? ==> forall i, j :: InDomain(|a|, i, j) ==>
                             Cell(r.value, i, j) == Cell(a, i, j) + Cell(b, i, j)
  {
    if |a| != |b| then Failure(SizeMismatch)
    else Success(seq(|a|, (i: int) requires 0 <= i < |a| => RowSum(a[i], b[i])))
  }

  /** a - b: refused unless the orders agree; otherwise every stored cell is
      the difference of the two cells. */
  function Subtract(a: seq<seq<int>>, b: seq<seq<int>>): (r: Result<seq<seq<int>>, MatrixError>)
    requires IsTriangular(a) && IsTriangular(b)
    ensures r.Failure? <==> |a| != |b|
    ensures r.Failure? ==> r.error == SizeMismatch
    ensures r.Success? ==> IsTriangular(r.value) && |r.value| == |a|
    ensures r.Success? ==> forall i, j :: InDomain(|a|, i, j) ==>
                             Cell(r.value, i, j) == Cell(a, i, j) - Cell(b, i, j)
  {
    if |a| != |b| then Failure(SizeMismatch)
    else Success(seq(|a|, (i: int) requires 0 <= i < |a| => RowDifference(a[i], b[i])))
  }

  /** The sum over k in [lo, hi) of a(i, k) * b(k, j), taken over stored
      cells only: every such k lies in i..j. */
  function TriangularTerms(a: seq<seq<int>>, b: seq<seq<int>>, i: int, j: int, lo: int, hi: int): int
    requires IsTriangular(a) && IsTriangular(b) && |a| == |b|
    requires 0 <= i <= lo && hi <= j + 1 && j < |a|
    decreases hi - lo
  {
    if lo >= hi then 0
    else Cell(a, i, lo) * Cell(b, lo, j) + TriangularTerms(a, b, i, j, lo + 1, hi)
  }

  /** a * b: refused unless the orders agree; otherwise the cell (i, j) of
      the result is the sum of a(i, k) * b(k, j) for k from i to j. */
  function Multiply(a: seq<seq<int>>, b: seq<seq<int>>): (r: Result<seq<seq<int>>, MatrixError>)
    requires IsTriangular(a) && IsTriangular(b)
    ensures r.Failure? <==> |a| != |b|
    ensures r.Failure? ==> r.error == SizeMismatch
    ensures r.Success? ==> IsTriangular(r.value) && |r.value| == |a|
    ensures r.Success? ==> forall i, j :: InDomain(|a|, i, j) ==>
                             Cell(r.value, i, j) == TriangularTerms(a, b, i, j, i, j + 1)
  {
    if |a| != |b| then Failure(SizeMismatch)
    else
      var n := |a|;
      Success(seq(n, (i: int) requires 0 <= i < n =>
                seq(n - i, (d: int) requires 0 <= d < n - i =>
                  TriangularTerms(a, b, i, i + d, i, i + d + 1))))
  }

  /** a == b: equal orders and, row by row, equal stored cells.  This is
      exactly equality of the matrix values. */
  predicate Equal(a: seq<seq<int>>, b: seq<seq<int>>)
    requires IsTriangular(a) && IsTriangular(b)
    ensures Equal(a, b) <==> a == b
    ensures |a| != |b| ==> !Equal(a, b)
  {
    SameCellsIff(a, b);
    |a| == |b| && forall i, j | 0 <= i < |a| && i <= j < |a| :: Cell(a, i, j) == Cell(b, i, j)
  }

  /** The sum over k in [lo, hi) of a(i, k) * b(k, j) in the full square
      matrices, where the cells below the diagonal are zero: the ordinary
      matrix product, used as the reference for Multiply. */
  function DenseTerms(a: seq<seq<int>>, b: seq<seq<int>>, i: int, j: int, lo: int, hi: int): int
    requires IsTriangular(a) && IsTriangular(b) && |a| == |b|
    requires 0 <= i < |a| && 0 <= j < |a| && 0 <= lo && hi <= |a|
    decreases hi - lo
  {
    if lo >= hi then 0
    else Entry(a, i, lo) * Entry(b, lo, j) + DenseTerms(a, b, i, j, lo + 1, hi)
  }

  /** A dense sum splits at any point of its range. */
  lemma {:induction false} DenseSplit(a: seq<seq<int>>, b: seq<seq<int>>, i: int, j: int, lo: int, mid: int, hi: int)
    requires IsTriangular(a) && IsTriangular(b) && |a| == |b|
    requires 0 <= i < |a| && 0 <= j < |a| && 0 <= lo <= mid <= hi <= |a|
    ensures DenseTerms(a, b, i, j, lo, hi) == DenseTerms(a, b, i, j, lo, mid) + DenseTerms(a, b, i, j, mid, hi)
    decreases mid - lo
  {
    if lo < mid {
      DenseSplit(a, b, i, j, lo + 1, mid, hi);
    }
  }

  /** Every term with k < i or k > j vanishes, because a(i, k) or b(k, j)
      lies below the diagonal. */
  lemma {:induction false} DenseOutsideVanishes(a: seq<seq<int>>, b: seq<seq<int>>, i: int, j: int, lo: int, hi: int)
    requires IsTriangular(a) && IsTriangular(b) && |a| == |b|
    requires 0 <= i < |a| && 0 <= j < |a| && 0 <= lo && hi <= |a|
    requires hi <= i || j < lo
    ensures DenseTerms(a, b, i, j, lo, hi) == 0
    decreases hi - lo
  {
    if lo < hi {
      DenseOutsideVanishes(a, b, i, j, lo + 1, hi);
    }
  }

  /** Inside i..j the dense terms are the stored-cell terms. */
  lemma {:induction false} DenseInsideAgrees(a: seq<seq<int>>, b: seq<seq<int>>, i: int, j: int, lo: int, hi: int)
    requires IsTriangular(a) && IsTriangular(b) && |a| == |b|
    requires 0 <= i <= lo && hi <= j + 1 && i <= j < |a|
    ensures DenseTerms(a, b, i, j, lo, hi) == TriangularTerms(a, b, i, j, lo, hi)
    decreases hi - lo
  {
    if lo < hi {
      DenseInsideAgrees(a, b, i, j, lo + 1, hi);
    }
  }

  /** Multiply is the ordinary product of the two full square matrices:
      each stored cell of the result is the full sum over k in 0..n-1, and
      that full sum is zero below the diagonal, so the product of two
      upper-triangular matrices is upper-triangular and loses nothing by
      storing only columns i..n-1 of row i. */
  lemma ProductIsDense(a: seq<seq<int>>, b: seq<seq<int>>, i: int, j: int)
    requires IsTriangular(a) && IsTriangular(b) && |a| == |b|
    requires 0 <= i < |a| && 0 <= j < |a|
    ensures Entry(Multiply(a, b).value, i, j) == DenseTerms(a, b, i, j, 0, |a|)
  {
    var n := |a|;
    DenseSplit(a, b, i, j, 0, i, n);
    DenseOutsideVanishes(a, b, i, j, 0, i);
    if i <= j {
      DenseSplit(a, b, i, j, i, j + 1, n);
      DenseInsideAgrees(a, b, i, j, i, j + 1);
      DenseOutsideVanishes(a, b, i, j, j + 1, n);
    } else {
      DenseOutsideVanishes(a, b, i, j, i, n);
    }
  }

  /** With the identity on the left, every term after the first vanishes. */
  lemma {:induction false} LeftIdentityTerms(a: seq<seq<int>>, i: int, j: int, lo: int, hi: int)
    requires IsTriangular(a) && 0 <= i < lo && hi <= j + 1 && j < |a|
    ensures TriangularTerms(Identity(|a|), a, i, j, lo, hi) == 0
    decreases hi - lo
  {
    if lo < hi {
      LeftIdentityTerms(a, i, j, lo + 1, hi);
    }
  }

  /** With the identity on the right, only the last term, k = j, remains. */
  lemma {:induction false} RightIdentityTerms(a: seq<seq<int>>, i: int, j: int, lo: int)
    requires IsTriangular(a) && 0 <= i <= lo <= j < |a|
    ensures TriangularTerms(a, Identity(|a|), i, j, lo, j + 1) == Cell(a, i, j)
    decreases j - lo
  {
    if lo < j {
      RightIdentityTerms(a, i, j, lo + 1);
    }
  }

  /** The identity matrix is a two-sided unit of Multiply. */
  lemma MultiplyIdentity(a: seq<seq<int>>)
    requires IsTriangular(a)
    ensures Multiply(Identity(|a|), a) == Success(a)
    ensures Multiply(a, Identity(|a|)) == Success(a)
  {
    var e := Identity(|a|);
    var l, r := Multiply(e, a).value, Multiply(a, e).value;
    forall i, j | InDomain(|a|, i, j)
      ensures Cell(l, i, j) == Cell(a, i, j) && Cell(r, i, j) == Cell(a, i, j)
    {
      LeftIdentityTerms(a, i, j, i + 1, j + 1);
      RightIdentityTerms(a, i, j, i);
    }
    SameCells(l, a);
    SameCells(r, a);
  }

  /** Subtracting b undoes adding b. */
  lemma AddSubtractInverse(a: seq<seq<int>>, b: seq<seq<int>>)
    requires IsTriangular(a) && IsTriangular(b) && |a| == |b|
    ensures Subtract(Add(a, b).value, b) == Success(a)
  {
    var s := Add(a, b).value;
    var d := Subtract(s, b).value;
    SameCells(d, a);
  }

  /** Addition does not depend on the order of its operands. */
  lemma AddCommutes(a: seq<seq<int>>, b: seq<seq<int>>)
    requires IsTriangular(a) && IsTriangular(b)
    ensures Add(a, b) == Add(b, a)
  {
    if |a| == |b| {
      SameCells(Add(a, b).value, Add(b, a).value);
    }
  }

  /** Subtracting a matrix from itself gives the zero matrix, and adding
      the zero matrix changes nothing. */
  lemma ZeroLaws(a: seq<seq<int>>)
    requires IsTriangular(a)
    ensures Subtract(a, a) == Success(Zero(|a|))
    ensures Add(a, Zero(|a|)) == Success(a)
  {
    SameCells(Subtract(a, a).value, Zero(|a|));
    SameCells(Add(a, Zero(|a|)).value, a);
  }
}
