/** The cases of test/test_tmatrix.cpp, each stated on the model: every
    method performs the test's steps on TMatrix objects and its
    postcondition is what the test expects; the lemmas state the expected
    results of the arithmetic cases on the values involved. */
module MatrixScenarios {
  import opened Failures
  import opened Triangular
  import opened Matrix

  /** A matrix of order 5 can be created; orders MaxMatrixSize + 1 and -5
      are refused. */
  method CreateScenarios() returns (positive: bool, tooLarge: bool, negative: bool)
    ensures positive && !tooLarge && !negative
  {
    var m := TMatrix.Create(5);
    positive := m.Success?;
    var big := TMatrix.Create(MaxMatrixSize + 1);
    tooLarge := big.Success?;
    var neg := TMatrix.Create(-5);
    negative := neg.Success?;
  }

  /** A write into one matrix leaves a second matrix, which shares no row
      storage with it, valid and holding the same value. */
  method WriteBeside(c: TMatrix, m: TMatrix, i: int, j: int, x: int) returns (w: Outcome<MatrixError>)
    requires c.Valid() && m.Valid() && c != m
    requires forall k | 0 <= k < |m.rows| :: m.rows[k] !in c.rows
    modifies c, c.rows
    ensures c.Valid() && m.Valid() && m.Contents == old(m.Contents)
    ensures var u := Update(old(c.Contents), i, j, x);
      (u.Failure? ==> w == Fail(u.error) && c.Contents == old(c.Contents)) &&
      (u.Success? ==> w == Pass && c.Contents == u.value)
  {
    w := c.Set(i, j, x);
  }

  /** A copy compares equal to its source, and writing c[1][1] = 5 into the
      copy makes the two unequal: the copy owns its storage. */
  method CopyScenarios() returns (equal: bool, written: Outcome<MatrixError>, equalAfterWrite: bool)
    ensures equal && written == Pass && !equalAfterWrite
  {
    var r := TMatrix.Create(5);
    var m := r.value;
    var c := new TMatrix.Copy(m);
    equal := m.Equals(c);
    written := WriteBeside(c, m, 1, 1, 5);
    assert c.Contents[1][0] == 5 && m.Contents[1][0] == 0;
    equalAfterWrite := m.Equals(c);
  }

  /** GetSize returns the order given at construction. */
  method GetSizeScenario() returns (n: int)
    ensures n == 4
  {
    var m := TMatrix.Create(4);
    n := m.value.GetSize();
  }

  /** m[i][j] = x at a stored cell, then reading m[i][j], gives x back;
      the order is unchanged. */
  method WriteThenRead(m: TMatrix, i: int, j: int, x: int) returns (read: Result<int, MatrixError>)
    requires m.Valid() && InDomain(|m.Contents|, i, j)
    modifies m, m.rows
    ensures m.Valid() && m.rows == old(m.rows) && |m.Contents| == old(|m.Contents|)
    ensures read == Success(x)
  {
    var w := m.Set(i, j, x);
    read := m.Get(i, j);
  }

  /** m[1][1] = 5 then reads back 5; writes at row -1 and at row 5 of an
      order-5 matrix fail. */
  method IndexScenarios() returns (read: Result<int, MatrixError>, negative: Outcome<MatrixError>, tooLarge: Outcome<MatrixError>)
    ensures read == Success(5)
    ensures negative == Fail(OutOfRange) && tooLarge == Fail(OutOfRange)
  {
    var r := TMatrix.Create(5);
    var m := r.value;
    read := WriteThenRead(m, 1, 1, 5);
    negative := m.Set(-1, 1, 5);
    tooLarge := m.Set(5, 5, 5);
  }

  /** An order-5 matrix filled as the assignment tests fill it:
      m[2][2] = 1 and m[1][1] = 2. */
  method FilledFive() returns (m: TMatrix)
    ensures fresh(m) && fresh(m.rows) && m.Valid() && |m.Contents| == 5
    ensures Cell(m.Contents, 2, 2) == 1 && Cell(m.Contents, 1, 1) == 2
  {
    var r := TMatrix.Create(5);
    m := r.value;
    var w := m.Set(2, 2, 1);
    ghost var before := m.Contents;
    w := m.Set(1, 1, 2);
    UpdateThenAt(before, 1, 1, 2, 2, 2);
  }

  /** m = m keeps every value written before. */
  method SelfAssignScenario() returns (a: Result<int, MatrixError>, b: Result<int, MatrixError>)
    ensures a == Success(1) && b == Success(2)
  {
    var m := FilledFive();
    m.Assign(m);
    a := m.Get(2, 2);
    b := m.Get(1, 1);
  }

  /** m2 = m copies the values over a destination of order 5, 7 or 10, and
      the destination takes the order 5 of the source.  Order 10 is a valid
      destination because MaxMatrixSize is at least 10. */
  method AssignScenarios(destinationOrder: int) returns (a: Result<int, MatrixError>, b: Result<int, MatrixError>, size: int)
    requires destinationOrder == 5 || destinationOrder == 7 || destinationOrder == 10
    ensures a == Success(1) && b == Success(2) && size == 5
  {
    var m := FilledFive();
    var r2 := TMatrix.Create(destinationOrder);
    a, b, size := AssignThenRead(r2.value, m);
  }

  /** m2 = m from a matrix holding 1 at (2, 2) and 2 at (1, 1), of order 5:
      m2 then reads those cells back and has order 5, whatever its own
      order was. */
  method AssignThenRead(m2: TMatrix, m: TMatrix) returns (a: Result<int, MatrixError>, b: Result<int, MatrixError>, size: int)
    requires m2.Valid() && m.Valid() && |m.Contents| == 5
    requires Cell(m.Contents, 2, 2) == 1 && Cell(m.Contents, 1, 1) == 2
    modifies m2
    ensures a == Success(1) && b == Success(2) && size == 5
  {
    m2.Assign(m);
    a := m2.Get(2, 2);
    b := m2.Get(1, 1);
    size := m2.GetSize();
  }

  /** After m2 = m with m2 of order 7, m2 == m. */
  method CompareAfterAssignScenario() returns (equal: bool)
    ensures equal
  {
    var m := FilledFive();
    var r2 := TMatrix.Create(7);
    var m2 := r2.value;
    m2.Assign(m);
    equal := m2.Equals(m);
  }

  /** m == m holds; matrices of orders 2 and 3 are not equal. */
  method CompareScenarios() returns (self: bool, differentOrders: bool)
    ensures self && !differentOrders
  {
    var r := TMatrix.Create(5);
    self := r.value.Equals(r.value);
    var r1 := TMatrix.Create(2);
    var r2 := TMatrix.Create(3);
    differentOrders := r1.value.Equals(r2.value);
  }

  /** The three writes of the arithmetic tests, on the value of a new
      order-2 matrix, give [[d0, x], [_, d1]]. */
  lemma FillOrderTwo(d0: int, d1: int, x: int)
    ensures Update(Zero(2), 0, 0, d0).Success?
    ensures Update(Update(Zero(2), 0, 0, d0).value, 1, 1, d1).Success?
    ensures Update(Update(Update(Zero(2), 0, 0, d0).value, 1, 1, d1).value, 0, 1, x)
      == Success([[d0, x], [d1]])
  {
    var z := Zero(2);
    assert z[0] == [0, 0] && z[1] == [0];
    assert z == [[0, 0], [0]];
    assert [0, 0][0 := d0] == [d0, 0];
    assert [[0, 0], [0]][0 := [d0, 0]] == [[d0, 0], [0]];
    assert [0][0 := d1] == [d1];
    assert [[d0, 0], [0]][1 := [d1]] == [[d0, 0], [d1]];
    assert [d0, 0][1 := x] == [d0, x];
    assert [[d0, 0], [d1]][0 := [d0, x]] == [[d0, x], [d1]];
  }

  /** An order-2 matrix filled as the arithmetic tests fill it:
      m[0][0] = d0, m[1][1] = d1 and m[0][1] = x. */
  method Filled(d0: int, d1: int, x: int) returns (m: TMatrix)
    ensures fresh(m) && fresh(m.rows) && m.Valid()
    ensures m.Contents == [[d0, x], [d1]]
  {
    var r := TMatrix.Create(2);
    m := r.value;
    FillOrderTwo(d0, d1, x);
    var w := m.Set(0, 0, d0);
    w := m.Set(1, 1, d1);
    w := m.Set(0, 1, x);
  }

  /** The three writes of the mismatch tests, on the value of a new order-3
      matrix, give [[3, 2, 0], [_, 3, 0], [_, _, 0]]. */
  lemma FillOrderThree()
    ensures Update(Zero(3), 0, 0, 3).Success?
    ensures Update(Update(Zero(3), 0, 0, 3).value, 1, 1, 3).Success?
    ensures Update(Update(Update(Zero(3), 0, 0, 3).value, 1, 1, 3).value, 0, 1, 2)
      == Success([[3, 2, 0], [3, 0], [0]])
  {
    var z := Zero(3);
    assert z[0] == [0, 0, 0] && z[1] == [0, 0] && z[2] == [0];
    assert z == [[0, 0, 0], [0, 0], [0]];
    assert [0, 0, 0][0 := 3] == [3, 0, 0];
    assert [[0, 0, 0], [0, 0], [0]][0 := [3, 0, 0]] == [[3, 0, 0], [0, 0], [0]];
    assert [0, 0][0 := 3] == [3, 0];
    assert [[3, 0, 0], [0, 0], [0]][1 := [3, 0]] == [[3, 0, 0], [3, 0], [0]];
    assert [3, 0, 0][1 := 2] == [3, 2, 0];
    assert [[3, 0, 0], [3, 0], [0]][0 := [3, 2, 0]] == [[3, 2, 0], [3, 0], [0]];
  }

  /** An order-3 matrix filled as the mismatch tests fill it:
      m[0][0] = 3, m[1][1] = 3 and m[0][1] = 2. */
  method FilledOrderThree() returns (m: TMatrix)
    ensures fresh(m) && fresh(m.rows) && m.Valid()
    ensures m.Contents == [[3, 2, 0], [3, 0], [0]]
  {
    var r := TMatrix.Create(3);
    m := r.value;
    FillOrderThree();
    var w := m.Set(0, 0, 3);
    w := m.Set(1, 1, 3);
    w := m.Set(0, 1, 2);
  }

  /** m3 = value with m3 created of the given order: m3 takes the value,
      order included. */
  method Receive(order: int, value: seq<seq<int>>) returns (m3: TMatrix)
    requires ValidOrder(order) && IsTriangular(value) && ValidOrder(|value|)
    ensures fresh(m3) && m3.Valid() && m3.Contents == value
  {
    var r := TMatrix.Create(order);
    m3 := r.value;
    var t := new TMatrix.OfValue(value);
    m3.Assign(t);
  }

  /** [[5,2],[_,5]] + [[3,2],[_,3]] = [[8,4],[_,8]]. */
  lemma AddExample()
    ensures Add([[5, 2], [5]], [[3, 2], [3]]) == Success([[8, 4], [8]])
  {
    SameCells(Add([[5, 2], [5]], [[3, 2], [3]]).value, [[8, 4], [8]]);
  }

  /** [[5,2],[_,5]] - [[3,2],[_,3]] = [[2,0],[_,2]]. */
  lemma SubtractExample()
    ensures Subtract([[5, 2], [5]], [[3, 2], [3]]) == Success([[2, 0], [2]])
  {
    SameCells(Subtract([[5, 2], [5]], [[3, 2], [3]]).value, [[2, 0], [2]]);
  }

  /** [[1,3],[_,2]] * [[1,3],[_,2]] = [[1,9],[_,4]]. */
  lemma MultiplyExample()
    ensures Multiply([[1, 3], [2]], [[1, 3], [2]]) == Success([[1, 9], [4]])
  {
    var a := [[1, 3], [2]];
    var p := Multiply(a, a).value;
    assert Cell(p, 0, 0) == TriangularTerms(a, a, 0, 0, 0, 1) == 1;
    assert Cell(p, 0, 1) == TriangularTerms(a, a, 0, 1, 0, 2) == 1 * 3 + 3 * 2;
    assert Cell(p, 1, 1) == TriangularTerms(a, a, 1, 1, 1, 2) == 4;
    SameCells(p, [[1, 9], [4]]);
  }

  /** m3 = m2 + m1 with m1 = [[3,2],[_,3]], m2 = [[5,2],[_,5]] and m3 created
      of order 3: m3[0][0] = 8, m3[1][1] = 8, m3[0][1] = 4. */
  method AddScenario() returns (c00: Result<int, MatrixError>, c11: Result<int, MatrixError>, c01: Result<int, MatrixError>)
    ensures c00 == Success(8) && c11 == Success(8) && c01 == Success(4)
  {
    var m1 := Filled(3, 3, 2);
    var m2 := Filled(5, 5, 2);
    var s := Add(m2.Cells(), m1.Cells());
    AddExample();
    var m3 := Receive(3, s.value);
    c00 := m3.Get(0, 0);
    c11 := m3.Get(1, 1);
    c01 := m3.Get(0, 1);
  }

  /** m3 = m2 - m1 with the same operands: m3[0][0] = 2, m3[1][1] = 2,
      m3[0][1] = 0. */
  method SubtractScenario() returns (c00: Result<int, MatrixError>, c11: Result<int, MatrixError>, c01: Result<int, MatrixError>)
    ensures c00 == Success(2) && c11 == Success(2) && c01 == Success(0)
  {
    var m1 := Filled(3, 3, 2);
    var m2 := Filled(5, 5, 2);
    var s := Subtract(m2.Cells(), m1.Cells());
    SubtractExample();
    var m3 := Receive(3, s.value);
    c00 := m3.Get(0, 0);
    c11 := m3.Get(1, 1);
    c01 := m3.Get(0, 1);
  }

  /** m3 = m1 * m2 with m1 = m2 = [[1,3],[_,2]]: m3[0][0] = 1, m3[1][1] = 4,
      m3[0][1] = 9. */
  method MultiplyScenario() returns (c00: Result<int, MatrixError>, c11: Result<int, MatrixError>, c01: Result<int, MatrixError>)
    ensures c00 == Success(1) && c11 == Success(4) && c01 == Success(9)
  {
    var m1 := Filled(1, 2, 3);
    var m2 := Filled(1, 2, 3);
    var p := Multiply(m1.Cells(), m2.Cells());
    MultiplyExample();
    var m3 := new TMatrix.OfValue(p.value);
    c00 := m3.Get(0, 0);
    c11 := m3.Get(1, 1);
    c01 := m3.Get(0, 1);
  }

  /** With m1 of order 3 and m2 of order 2, m2 + m1, m2 - m1 and m2 * m1
      all fail. */
  method MismatchScenarios() returns (sum: bool, difference: bool, product: bool)
    ensures !sum && !difference && !product
  {
    var m1 := FilledOrderThree();
    var m2 := Filled(5, 5, 2);
    sum := Add(m2.Cells(), m1.Cells()).Success?;
    difference := Subtract(m2.Cells(), m1.Cells()).Success?;
    product := Multiply(m2.Cells(), m1.Cells()).Success?;
  }
}
