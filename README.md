# Bounded list stack and upper-triangular matrix

This project models the two containers of a C++ data-structures lab
in Dafny.

- **`TStackList<T>`** (`include/tstacklist.h`) is a LIFO stack with a
  fixed capacity. It sits on a singly-linked list: `Put` pushes at the
  head of the list and `Get` pops from the head. The list is modelled as a
  sequence with the head at index 0. The class `StackList.TStackList` has
  the fields `capacity` and `elems`. Its methods return a failure value
  where the C++ code throws.
- **`TMatrix<int>`** is an upper-triangular matrix of order `n`. Row `i`
  holds columns `i..n-1`. The test file `test/test_tmatrix.cpp` is its
  contract, because the implementation files it includes are not part of
  this model. The value-level operations `+`, `-`, `*` and `==`, and bounds-checked
  reading and writing, are functions over `seq<seq<int>>` in module
  `Triangular`. The object itself is the class `Matrix.TMatrix`. It owns
  one array per row, and element writes and assignment change it in
  place. Module `MatrixScenarios` states each test case as a method or lemma
  whose postcondition, proved by the verifier, is what the test expects.
- Module `Failures` holds the `Result` and `Outcome` types that stand for
  "returns a value / throws".

The product is defined by the sum `(i,j) = Σ_{k=i..j} a(i,k)·b(k,j)`
(`Triangular.TriangularTerms`). It is proved equal to the ordinary dense
matrix product, with zeros below the diagonal (`Triangular.ProductIsDense`).

## Model

| member | source | states |
|---|---|---|
| StackList.TStackList.Create | include/tstacklist.h:14-35 | the capacity argument defaults to 10; construction fails with `InvalidCapacity` exactly when the capacity is `<= 0`; otherwise the new stack is empty, its capacity is the argument and the invariant `0 <= count <= capacity` holds |
| StackList.TStackList.Copy | include/tstacklist.h:37-41 | the copy holds the source's elements and therefore the same count; nothing is stated about its capacity, which the constructor leaves unset |
| StackList.TStackList.Put | include/tstacklist.h:47-53 | on a full stack `Put` fails with `Overflow` and the contents stay the same; otherwise the element is prepended; the capacity never changes and `0 <= count <= capacity` is preserved |
| StackList.TStackList.Get | include/tstacklist.h:55-61 | on an empty stack `Get` fails with `Underflow` and nothing changes; otherwise it returns the head, removes it and decrements the count; the capacity never changes and the invariant is preserved |
| StackList.TStackList.GetMaxSize | include/tstacklist.h:63-67 | returns the capacity, which under the invariant is positive and at least the count |
| StackList.TStackList.GetSize | include/tstacklist.h:69-73 | returns the element count; it is 0 exactly when the stack is empty, and under the invariant it is at most the capacity |
| StackList.TStackList.IsEmpty | include/tstacklist.h:75-81 | holds exactly when the count is 0 |
| StackList.TStackList.IsFull | include/tstacklist.h:83-89 | holds exactly when the count equals the capacity; under the invariant, exactly when one more element would exceed the capacity |
| StackList.PutThenGet | include/tstacklist.h:50-60 | on a stack that is not full, `Put(x)` then `Get()` succeeds, returns `x` and restores the previous contents and count (LIFO) |
| StackList.RefusedOperations | include/tstacklist.h:50-59 | on a new capacity-1 stack, `Get` fails with `Underflow`; after one `Put(x)`, a second `Put` fails with `Overflow`; the following `Get` still returns `x`, so the refused `Put` disturbed nothing, and the count is then 0 |
| StackList.CreateScenarios | include/tstacklist.h:14-35 | capacities 0 and -3 are refused; the default capacity is 10 and the default stack starts empty |
| StackList.CopyKeepsCount | include/tstacklist.h:37-41 | a copy reports the same `GetSize` as its source |
| Triangular.Zero | test/test_tmatrix.cpp:6-9 | the matrix a new object holds: triangular, of the given order, with every cell 0 |
| Triangular.SameCellsIff | test/test_tmatrix.cpp:116-138 | two triangular matrices are the same value exactly when they have the same order and agree on every cell `i <= j` |
| Triangular.At | test/test_tmatrix.cpp:53-74 | reading `(i,j)` succeeds exactly when `0 <= i <= j < n`, giving that cell; any other index fails with `OutOfRange`. The cited lines show the failure only for rows -1 and n; the failure for `j < i` comes from the assumed row layout |
| Triangular.Update | test/test_tmatrix.cpp:53-74 | writing `(i,j)` succeeds exactly when `0 <= i <= j < n`, and the result is a triangular matrix of the same order holding `x` at `(i,j)`; any other index fails with `OutOfRange`. The cited lines show the failure only for rows -1 and n; the failure for `j < i` comes from the assumed row layout |
| Triangular.RowAt | test/test_tmatrix.cpp:53-60 | indexing a row vector with start index `start`: succeeds exactly when `start <= pos < start + |row|`, giving the element at offset `pos - start`; otherwise fails with `OutOfRange` |
| Triangular.RowSum | test/test_tmatrix.cpp:140-151 | the vector sum of two rows of equal length: same length, each element the sum of the two elements |
| Triangular.RowDifference | test/test_tmatrix.cpp:161-172 | the vector difference of two rows of equal length: same length, each element the difference of the two elements |
| Triangular.UpdateThenAt | test/test_tmatrix.cpp:53-60 | after a successful write of `x` at `(i,j)`, reading `(i,j)` gives `x` and every other index reads as before |
| Triangular.Add | test/test_tmatrix.cpp:140-159 | `+` fails with `SizeMismatch` exactly when the orders differ; otherwise the sum is triangular, of the same order, and cell-wise |
| Triangular.Subtract | test/test_tmatrix.cpp:161-180 | `-` fails with `SizeMismatch` exactly when the orders differ; otherwise the difference is triangular, of the same order, and cell-wise |
| Triangular.Multiply | test/test_tmatrix.cpp:182-203 | `*` fails with `SizeMismatch` exactly when the orders differ; otherwise cell `(i,j)` of the product is `Σ_{k=i..j} a(i,k)·b(k,j)` |
| Triangular.ProductIsDense | test/test_tmatrix.cpp:191-203 | each entry of the triangular product equals the full dense sum `Σ_{k=0..n-1} a(i,k)·b(k,j)` over the matrices with zeros below the diagonal, including the zero entries below the diagonal |
| Triangular.MultiplyIdentity | test/test_tmatrix.cpp:191-203 | the identity matrix of the same order is a left and right unit of `*` |
| Triangular.AddSubtractInverse | test/test_tmatrix.cpp:140-172 | `(a + b) - b == a` for matrices of equal order |
| Triangular.AddCommutes | test/test_tmatrix.cpp:140-151 | `a + b == b + a`, and both fail together when the orders differ |
| Triangular.ZeroLaws | test/test_tmatrix.cpp:140-172 | `a - a` is the zero matrix and `a + 0 == a` |
| Triangular.Equal | test/test_tmatrix.cpp:116-138 | `==` holds exactly when the two matrices are the same value, so never for different orders |
| Matrix.RowsOf | test/test_tmatrix.cpp:36-44 | the storage of a deep copy: fresh, pairwise distinct row arrays holding the given rows' values |
| Matrix.TMatrix.Create | test/test_tmatrix.cpp:6-19 | construction succeeds exactly for orders `1..MaxMatrixSize`, with all cells 0 and `GetSize` the order; order -5 and order `MaxMatrixSize + 1` fail with `InvalidSize` |
| Matrix.TMatrix.Copy | test/test_tmatrix.cpp:21-44 | the copy holds the source's value in freshly allocated rows |
| Matrix.TMatrix.OfValue | test/test_tmatrix.cpp:146 | the temporary matrix an operator returns: a valid object with fresh rows holding the given value |
| Matrix.TMatrix.GetSize | test/test_tmatrix.cpp:46-51 | returns the order of the value held |
| Matrix.TMatrix.Get | test/test_tmatrix.cpp:53-74 | an element read returns `At` of the value held: the cell when `0 <= i <= j < n`, `OutOfRange` otherwise. The cited lines show the failure only for rows -1 and n; the failure for `j < i` comes from the assumed row layout |
| Matrix.TMatrix.Set | test/test_tmatrix.cpp:53-74 | an element write performs `Update` on the value held: on success the new value is the updated matrix; on failure it reports `OutOfRange` and nothing changes; the row arrays stay the same objects and the invariant holds |
| Matrix.TMatrix.Assign | test/test_tmatrix.cpp:76-114 | after `m2 = m` the destination holds the source's value, whatever the orders; the source is unchanged; self-assignment keeps the rows; otherwise the destination gets fresh rows |
| Matrix.TMatrix.Equals | test/test_tmatrix.cpp:116-138 | the row-by-row comparison returns exactly `Equal` of the two values held |
| MatrixScenarios.CreateScenarios | test/test_tmatrix.cpp:6-19 | order 5 is accepted; orders `MaxMatrixSize + 1` and -5 are refused |
| MatrixScenarios.WriteBeside | test/test_tmatrix.cpp:36-44 | a write into one matrix performs `Update` on its value and leaves a second matrix, which shares no row storage with it, valid and holding the same value |
| MatrixScenarios.CopyScenarios | test/test_tmatrix.cpp:21-44 | a copy compares equal to its source; after `c[1][1] = 5` the two compare unequal |
| MatrixScenarios.GetSizeScenario | test/test_tmatrix.cpp:46-51 | a matrix created of order 4 reports size 4 |
| MatrixScenarios.WriteThenRead | test/test_tmatrix.cpp:55-59 | writing `x` at a stored cell and reading that cell back gives `x`; the order stays the same |
| MatrixScenarios.IndexScenarios | test/test_tmatrix.cpp:53-74 | `m[1][1] = 5` reads back 5; writes at `[-1][1]` and `[5][5]` of an order-5 matrix fail |
| MatrixScenarios.FilledFive | test/test_tmatrix.cpp:78-80 | after `m[2][2] = 1; m[1][1] = 2` on an order-5 matrix, both cells hold those values |
| MatrixScenarios.SelfAssignScenario | test/test_tmatrix.cpp:76-85 | after `m = m`, `m[2][2]` is 1 and `m[1][1]` is 2 |
| MatrixScenarios.AssignScenarios | test/test_tmatrix.cpp:87-114 | assigning the filled order-5 matrix to one of order 5, 7 or 10 gives cells 1 and 2 and size 5 |
| MatrixScenarios.AssignThenRead | test/test_tmatrix.cpp:87-114 | after `m2 = m`, with `m` of order 5 holding 1 at `(2,2)` and 2 at `(1,1)`, `m2` reads those cells back and has size 5, whatever its own order was |
| MatrixScenarios.CompareAfterAssignScenario | test/test_tmatrix.cpp:116-124 | after `m2 = m` with `m2` of order 7, `m2 == m` |
| MatrixScenarios.CompareScenarios | test/test_tmatrix.cpp:126-138 | `m == m` holds; matrices of orders 2 and 3 are not equal |
| MatrixScenarios.FillOrderTwo | test/test_tmatrix.cpp:142-144 | the writes `m[0][0] = d0`, `m[1][1] = d1`, `m[0][1] = x` on a new order-2 matrix all succeed and give `[[d0, x], [_, d1]]` |
| MatrixScenarios.Filled | test/test_tmatrix.cpp:143-144 | three element writes on an order-2 matrix give exactly `[[d0, x], [_, d1]]` |
| MatrixScenarios.FillOrderThree | test/test_tmatrix.cpp:155-156 | the writes `m[0][0] = 3`, `m[1][1] = 3`, `m[0][1] = 2` on a new order-3 matrix all succeed and give `[[3, 2, 0], [_, 3, 0], [_, _, 0]]` |
| MatrixScenarios.FilledOrderThree | test/test_tmatrix.cpp:155-156 | the order-3 operand of the mismatch tests, after its three writes, holds exactly `[[3, 2, 0], [_, 3, 0], [_, _, 0]]` |
| MatrixScenarios.Receive | test/test_tmatrix.cpp:145-146 | assigning a result into a matrix `m3` created of another order leaves `m3` holding that result |
| MatrixScenarios.AddExample | test/test_tmatrix.cpp:140-151 | `[[5,2],[_,5]] + [[3,2],[_,3]] = [[8,4],[_,8]]` |
| MatrixScenarios.SubtractExample | test/test_tmatrix.cpp:161-172 | `[[5,2],[_,5]] - [[3,2],[_,3]] = [[2,0],[_,2]]` |
| MatrixScenarios.MultiplyExample | test/test_tmatrix.cpp:191-203 | `[[1,3],[_,2]] * [[1,3],[_,2]] = [[1,9],[_,4]]` |
| MatrixScenarios.AddScenario | test/test_tmatrix.cpp:140-151 | `m3 = m2 + m1` with `m3` created of order 3 reads 8, 8 and 4 at `(0,0)`, `(1,1)` and `(0,1)` |
| MatrixScenarios.SubtractScenario | test/test_tmatrix.cpp:161-172 | `m3 = m2 - m1` reads 2, 2 and 0 |
| MatrixScenarios.MultiplyScenario | test/test_tmatrix.cpp:191-203 | `m3 = m1 * m2` reads 1 at `(0,0)`, 4 at `(1,1)` and 9 at `(0,1)` |
| MatrixScenarios.MismatchScenarios | test/test_tmatrix.cpp:153-188 | with operands of orders 2 and 3, `+`, `-` and `*` all fail |

## Left out

- `TStackList::PrintStack` (include/tstacklist.h:91-97) is console output through the list's printer. As written it is also missing a semicolon at line 95.
- The base list `TList` (`tlist.h`) is not part of this model. It is abstracted as a sequence: `PutStart` prepends and `GetStart` removes the head. The model assumes its copy constructor copies the elements.
- StackList.TStackList.Copy: nothing is stated about the copy's capacity. The C++ copy constructor never sets `size`, so it is indeterminate there. The model leaves the field unassigned, so nothing can be proved about it, and the copy's invariant is not claimed.
- The implementation files `utmatrix.cpp` and `utvector.cpp` are not part of this model. Only the row vector's indexing with a start index and its `+`/`-` are modelled (`Triangular.RowAt`, `RowSum`, `RowDifference`). The vector class's own interface and its own size bound `MAX_SIZE` are not modelled.
- `MAX_MATRIX_SIZE` has no visible value. `Triangular.MaxMatrixSize` is an assumed positive constant (10000). The scenarios need `MaxMatrixSize >= 10`: `MatrixScenarios.AssignScenarios` creates a destination of order 10, `MatrixScenarios.CompareAfterAssignScenario` one of order 7, and the other scenarios orders up to 5.
- New matrices are assumed to start with every cell 0. The copy test at test/test_tmatrix.cpp:36-44 needs cell `(1,1)` of a new order-5 matrix to start at a value other than 5, since otherwise writing `c[1][1] = 5` would leave the copy equal to its source. The model gets that from its assumed zero start (`MatrixScenarios.CopyScenarios`). Zero starting values are an assumption, not something the tests show.
- Reading or writing below the diagonal (`j < i`) fails in the model (`OutOfRange`), following the row layout. No test exercises it. The rows for `Triangular.At`, `Triangular.Update` and `Matrix.TMatrix.Get` state it, and mark it as coming from the assumed layout rather than from the cited lines.
- Matrix.TMatrix.Assign: storage reuse is not modelled. Whether the implementation keeps the destination's rows when the orders match cannot be seen. The model always allocates fresh rows unless source and destination are the same object. The value held is the same either way.
- The test at test/test_tmatrix.cpp:197 assigns to an `m3` that is never declared. The model treats it as a fresh matrix receiving the product (`MatrixScenarios.MultiplyScenario`).
- Generic element types, including floating point, are not modelled: every element is an `int`.
- Integer width is not modelled. Matrix elements, the stack's elements, and its `size` and `count` (include/tstacklist.h:12) are unbounded integers in the model. The C++ code uses 32-bit `int`, where signed overflow is undefined, so overflow in `Triangular.Add`, `Subtract`, `Multiply` and `TriangularTerms` on large cells is not represented.
- Exception types are not modelled: each failure is a `Failure`/`Fail` value carrying an error tag, because the tests only check that something throws.
- Stream operators `<<` and `>>` and the demo `samples/sample_matrix.cpp` are console I/O. Its fill-and-add steps are covered by `Triangular.Add`.
