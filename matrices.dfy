/**
 * Two-dimensional numeric arrays as the dispatcher uses them, with the four
 * array operations it uses, defined exactly: element-wise sum and
 * difference, the matrix product and the transpose. Entries are exact reals, an idealisation
 * of double-precision floats.
 */
module Matrices {

  /** A 2-D array: its shape (rows, cols) and its entries row by row. The
      shape is kept apart from the entries, as an array's shape is, so that an
      array with zero columns still has its rows counted. */
  datatype Matrix = Matrix(rows: nat, cols: nat, cells: seq<seq<real>>)

  /** The entries agree with the shape: `rows` rows, each of `cols` entries. */
  predicate WellFormed(m: Matrix) {
    |m.cells| == m.rows && forall i :: 0 <= i < m.rows ==> |m.cells[i]| == m.cols
  }

  function Shape(m: Matrix): (nat, nat) {
    (m.rows, m.cols)
  }

  predicate IsSquare(m: Matrix) {
    m.rows == m.cols
  }

  /** `A + B` for arrays of one shape. */
  function Add(a: Matrix, b: Matrix): (r: Matrix)
    requires WellFormed(a) && WellFormed(b) && Shape(a) == Shape(b)
    ensures WellFormed(r) && Shape(r) == Shape(a)
  {
    Matrix(a.rows, a.cols,
      seq(a.rows, i requires 0 <= i < a.rows =>
        seq(a.cols, j requires 0 <= j < a.cols => a.cells[i][j] + b.cells[i][j])))
  }

  /** `A - B` for arrays of one shape. */
  function Subtract(a: Matrix, b: Matrix): (r: Matrix)
    requires WellFormed(a) && WellFormed(b) && Shape(a) == Shape(b)
    ensures WellFormed(r) && Shape(r) == Shape(a)
  {
    Matrix(a.rows, a.cols,
      seq(a.rows, i requires 0 <= i < a.rows =>
        seq(a.cols, j requires 0 <= j < a.cols => a.cells[i][j] - b.cells[i][j])))
  }

  /** `-A`, used only to state how the two differences relate. */
  function Negate(a: Matrix): (r: Matrix)
    requires WellFormed(a)
    ensures WellFormed(r) && Shape(r) == Shape(a)
  {
    Matrix(a.rows, a.cols,
      seq(a.rows, i requires 0 <= i < a.rows =>
        seq(a.cols, j requires 0 <= j < a.cols => -a.cells[i][j])))
  }

  /** Sum of the products of corresponding entries. */
  function Dot(u: seq<real>, v: seq<real>): real
    requires |u| == |v|
  {
    if u == [] then 0.0 else u[0] * v[0] + Dot(u[1..], v[1..])
  }

  /** `B[:, j]`. */
  function Column(m: Matrix, j: nat): (c: seq<real>)
    requires WellFormed(m) && j < m.cols
    ensures |c| == m.rows
  {
    seq(m.rows, i requires 0 <= i < m.rows => m.cells[i][j])
  }

  /** `A @ B` when the columns of A match the rows of B: entry (i, j) is the
      dot product of row i of A with column j of B. */
  function Multiply(a: Matrix, b: Matrix): (r: Matrix)
    requires WellFormed(a) && WellFormed(b) && a.cols == b.rows
    ensures WellFormed(r) && Shape(r) == (a.rows, b.cols)
  {
    Matrix(a.rows, b.cols,
      seq(a.rows, i requires 0 <= i < a.rows =>
        seq(b.cols, j requires 0 <= j < b.cols => Dot(a.cells[i], Column(b, j)))))
  }

  /** `M.T`. */
  function Transpose(m: Matrix): (r: Matrix)
    requires WellFormed(m)
    ensures WellFormed(r) && Shape(r) == (m.cols, m.rows)
  {
    Matrix(m.cols, m.rows,
      seq(m.cols, j requires 0 <= j < m.cols =>
        seq(m.rows, i requires 0 <= i < m.rows => m.cells[i][j])))
  }

  /** Two well-formed matrices of one shape with equal entries are equal. */
  lemma {:induction false} Extensionality(a: Matrix, b: Matrix)
    requires WellFormed(a) && WellFormed(b) && Shape(a) == Shape(b)
    requires forall i, j :: 0 <= i < a.rows && 0 <= j < a.cols ==> a.cells[i][j] == b.cells[i][j]
    ensures a == b
  {
    forall i | 0 <= i < a.rows
      ensures a.cells[i] == b.cells[i]
    {
    }
    assert a.cells == b.cells;
  }

  /** Addition does not depend on the order of its operands. */
  lemma AddCommutes(a: Matrix, b: Matrix)
    requires WellFormed(a) && WellFormed(b) && Shape(a) == Shape(b)
    ensures Add(a, b) == Add(b, a)
  {
    Extensionality(Add(a, b), Add(b, a));
  }

  /** Swapping the operands of a difference negates it. */
  lemma SubtractAntisymmetric(a: Matrix, b: Matrix)
    requires WellFormed(a) && WellFormed(b) && Shape(a) == Shape(b)
    ensures Subtract(a, b) == Negate(Subtract(b, a))
  {
    Extensionality(Subtract(a, b), Negate(Subtract(b, a)));
  }

  /** Subtracting B undoes adding B. */
  lemma SubtractUndoesAdd(a: Matrix, b: Matrix)
    requires WellFormed(a) && WellFormed(b) && Shape(a) == Shape(b)
    ensures Subtract(Add(a, b), b) == a
  {
    Extensionality(Subtract(Add(a, b), b), a);
  }

  /** Transposing twice gives back the matrix, whatever its shape. */
  lemma TransposeInvolution(m: Matrix)
    requires WellFormed(m)
    ensures Transpose(Transpose(m)) == m
  {
    Extensionality(Transpose(Transpose(m)), m);
  }

  /** Row j of the transpose is column j of the matrix. */
  lemma TransposeRowIsColumn(m: Matrix, j: nat)
    requires WellFormed(m) && j < m.cols
    ensures Transpose(m).cells[j] == Column(m, j)
  {
  }

  /** Transposition distributes over addition. */
  lemma TransposeAdd(a: Matrix, b: Matrix)
    requires WellFormed(a) && WellFormed(b) && Shape(a) == Shape(b)
    ensures Transpose(Add(a, b)) == Add(Transpose(a), Transpose(b))
  {
    Extensionality(Transpose(Add(a, b)), Add(Transpose(a), Transpose(b)));
  }

  lemma {:induction false} DotCommutes(u: seq<real>, v: seq<real>)
    requires |u| == |v|
    ensures Dot(u, v) == Dot(v, u)
  {
    if u != [] {
      DotCommutes(u[1..], v[1..]);
    }
  }

  /** The transpose of a product is the product of the transposes, taken in
      the opposite order. */
  lemma MultiplyTranspose(a: Matrix, b: Matrix)
    requires WellFormed(a) && WellFormed(b) && a.cols == b.rows
    ensures Transpose(Multiply(a, b)) == Multiply(Transpose(b), Transpose(a))
  {
    var lhs := Transpose(Multiply(a, b));
    var rhs := Multiply(Transpose(b), Transpose(a));
    forall j, i | 0 <= j < b.cols && 0 <= i < a.rows
      ensures lhs.cells[j][i] == rhs.cells[j][i]
    {
      TransposeRowIsColumn(b, j);
      assert Column(Transpose(a), i) == a.cells[i];
      DotCommutes(a.cells[i], Column(b, j));
    }
    Extensionality(lhs, rhs);
  }
}
