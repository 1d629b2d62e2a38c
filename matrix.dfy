/** The object TMatrix<int>: a matrix that owns one array per row, so that
    element writes m[i][j] = x and assignments m2 = m change it in place.
    Row i is the row vector with start index i; its array holds columns
    i..n-1.  The value the object holds is the ghost field Contents, a
    matrix of module Triangular that Valid() ties to the row arrays, and the
    methods are specified by that module's functions. */
module Matrix {
  import opened Failures
  import opened Triangular

  /** The values stored in a sequence of row arrays. */
  function Snapshot(rs: seq<array<int>>): (c: seq<seq<int>>)
    reads rs
    ensures |c| == |rs|
    ensures forall i :: 0 <= i < |rs| ==> c[i] == rs[i][..]
  {
    seq(|rs|, (i: int) requires 0 <= i < |rs| reads rs => rs[i][..])
  }

  /** No array occurs twice: rows do not share storage. */
  predicate Distinct(rs: seq<array<int>>) {
    forall p, q :: 0 <= p < q < |rs| ==> rs[p] != rs[q]
  }

  /** Allocates fresh row arrays holding the given rows: the deep copy that
      copy and assignment perform, and the storage of a new matrix. */
  method RowsOf(c: seq<seq<int>>) returns (rs: seq<array<int>>)
    ensures |rs| == |c| && Distinct(rs)
    ensures fresh(rs)
    ensures Snapshot(rs) == c
  {
    rs := [];
    var i := 0;
    while i < |c|
      invariant 0 <= i <= |c| && |rs| == i && Distinct(rs)
      invariant forall p :: 0 <= p < i ==> fresh(rs[p]) && rs[p][..] == c[p]
    {
      var u := c[i];
      var row := new int[|u|]((k: int) requires 0 <= k < |u| => u[k]);
      assert row[..] == u;
      rs := rs + [row];
      i := i + 1;
    }
  }

  class TMatrix {
    /** Row i, the storage of columns i..n-1; the order n is |rows|. */
    var rows: seq<array<int>>
    /** The matrix value the object holds. */
    ghost var Contents: seq<seq<int>>

    /** The object invariant: a valid order, rows that share no storage and
        hold Contents, in the triangular row layout. */
    ghost predicate Valid()
      reads this, rows
    {
      ValidOrder(|rows|) && Distinct(rows) &&
      IsTriangular(Contents) && |Contents| == |rows| &&
      forall i :: 0 <= i < |rows| ==> rows[i][..] == Contents[i]
    }

    /** The matrix value, read out of the rows. */
    function Cells(): (c: seq<seq<int>>)
      reads this, rows
      requires Valid()
      ensures c == Contents
    {
      Snapshot(rows)
    }

    /** Builds a zero matrix of an order already known to be valid; Create
        is the checking entry point. */
    constructor Init(n: int)
      requires ValidOrder(n)
      ensures Valid() && fresh(rows)
      ensures Contents == Zero(n)
    {
      var rs := RowsOf(Zero(n));
      rows := rs;
      Contents := Zero(n);
    }

    /** The constructor TMatrix(n): an order <= 0 or above MaxMatrixSize is
        refused; any other order gives the zero matrix of that order. */
    static method Create(n: int) returns (r: Result<TMatrix, MatrixError>)
      ensures r.Success? <==> ValidOrder(n)
      ensures r.Failure? ==> r.error == InvalidSize
      ensures r.Success? ==> fresh(r.value) && fresh(r.value.rows) && r.value.Valid()
      ensures r.Success? ==> r.value.Contents == Zero(n) && r.value.GetSize() == n
    {
      if n <= 0 || n > MaxMatrixSize {
        return Failure(InvalidSize);
      }
      var m := new TMatrix.Init(n);
      return Success(m);
    }

    /** The copy constructor: a deep copy, equal to the source and sharing
        no storage with it. */
    constructor Copy(src: TMatrix)
      requires src.Valid()
      ensures Valid() && fresh(rows)
      ensures Contents == src.Contents
    {
      var rs := RowsOf(src.Cells());
      rows := rs;
      Contents := src.Contents;
    }

    /** The temporary object that holds the value an arithmetic operator
        (m2 + m1, m2 - m1, m1 * m2) returns; the operators themselves are
        functions on values in module Triangular. */
    constructor OfValue(c: seq<seq<int>>)
      requires IsTriangular(c) && ValidOrder(|c|)
      ensures Valid() && fresh(rows)
      ensures Contents == c
    {
      var rs := RowsOf(c);
      rows := rs;
      Contents := c;
    }

    /** GetSize: the order. */
    function GetSize(): (n: int)
      reads this, rows
      requires Valid()
      ensures n == |Contents| && ValidOrder(n)
    {
      |rows|
    }

    /** Reading m[i][j]: the row check of the matrix, then the column check
        of row i. */
    method Get(i: int, j: int) returns (r: Result<int, MatrixError>)
      requires Valid()
      ensures r == At(Contents, i, j)
    {
      if i < 0 || i >= |rows| {
        return Failure(OutOfRange);
      }
      var row := rows[i];
      if j < i || j >= i + row.Length {
        return Failure(OutOfRange);
      }
      return Success(row[j - i]);
    }

    /** Writing m[i][j] = x: fails on an index outside the stored triangle
        and then changes nothing; otherwise only that cell changes. */
    method Set(i: int, j: int, x: int) returns (r: Outcome<MatrixError>)
      requires Valid()
      modifies this, rows
      ensures Valid() && rows == old(rows)
      ensures var u := Update(old(Contents), i, j, x);
        (u.Failure? ==> r == Fail(u.error) && Contents == old(Contents)) &&
        (u.Success? ==> r == Pass && Contents == u.value)
    {
      if i < 0 || i >= |rows| || j < i || j >= |rows| {
        return Fail(OutOfRange);
      }
      rows[i][j - i] := x;
      Contents := Contents[i := Contents[i][j - i := x]];
      return Pass;
    }

    /** Assignment m = src: the destination takes the order and the values
        of the source, whatever its own order was, in storage of its own.
        Self-assignment changes nothing. */
    method Assign(src: TMatrix)
      requires Valid() && src.Valid()
      modifies this
      ensures Valid() && src.Valid()
      ensures Contents == old(src.Contents) && src.Contents == old(src.Contents)
      ensures src == this ==> rows == old(rows)
      ensures src != this ==> fresh(rows)
    {
      if src != this {
        rows := RowsOf(src.Cells());
        Contents := src.Contents;
      }
    }

    /** m == other: equal orders and, row by row, equal elements. */
    method Equals(other: TMatrix) returns (b: bool)
      requires Valid() && other.Valid()
      ensures b == Equal(Contents, other.Contents)
    {
      if |rows| != |other.rows| {
        return false;
      }
      var i := 0;
      while i < |rows|
        invariant 0 <= i <= |rows|
        invariant forall p :: 0 <= p < i ==> rows[p][..] == other.rows[p][..]
      {
        // Equal orders give row i the same length in both matrices.
        var u, v := rows[i], other.rows[i];
        var k := 0;
        while k < u.Length
          invariant 0 <= k <= u.Length
          invariant u[..k] == v[..k]
        {
          if u[k] != v[k] {
            assert Contents[i][k] != other.Contents[i][k];
            return false;
          }
          k := k + 1;
        }
        assert u[..] == u[..k];
        assert v[..] == v[..k];
        i := i + 1;
      }
      assert Contents == other.Contents;
      return true;
    }
  }
}
