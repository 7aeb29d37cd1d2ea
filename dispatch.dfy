/**
 * The results block of the page: once both matrices parsed, the chosen
 * operation's shape rule is checked and either its result or a shape
 * message is produced; Add, Subtract and Multiply can also emit a
 * step-by-step trace. Determinant, inverse, rank and eigen-decomposition are
 * library kernels and appear only as "computed" behind their square checks.
 */
module Dispatch {
  import opened Matrices
  import opened Parser
  import opened Menu

  /** One matrix's share of Determinant, Inverse or Eigen: the library
      kernel ran on it, or the "must be square" warning was shown. */
  datatype Gate = Computed | NotSquare

  datatype Outcome =
    | Sum(sum: Matrix)
    | Difference(difference: Matrix)
      /** "Matrices must have the same shape for addition/subtraction." */
    | ShapesDiffer(op: Op)
    | Product(product: Matrix)
      /** "Cannot multiply: A is (m, n), B is (p, q)." */
    | CannotMultiply(shapeA: (nat, nat), shapeB: (nat, nat))
    | Transposed(ta: Matrix, tb: Matrix)
      /** rank(A) and rank(B), both computed by the library. */
    | Ranked
    | PerMatrix(forA: Gate, forB: Gate)

  function SquareGate(m: Matrix): (g: Gate)
    ensures g == Computed <==> IsSquare(m)
  {
    if m.rows == m.cols then Computed else NotSquare
  }

  /** The operation's result for two parsed matrices. Add and Subtract
      succeed exactly when the shapes are equal, Multiply exactly when the
      columns of A match the rows of B; Transpose always transposes both;
      Determinant, Inverse and Eigen decide A and B separately, each on its
      own squareness alone. */
  function Apply(op: Op, a: Matrix, b: Matrix): (r: Outcome)
    requires WellFormed(a) && WellFormed(b)
    ensures op == Op.Add ==>
              if Shape(a) == Shape(b) then
                r.Sum? && WellFormed(r.sum) && Shape(r.sum) == Shape(a)
                && forall i, j :: 0 <= i < a.rows && 0 <= j < a.cols ==>
                     r.sum.cells[i][j] == a.cells[i][j] + b.cells[i][j]
              else r == ShapesDiffer(Op.Add)
    ensures op == Op.Subtract ==>
              if Shape(a) == Shape(b) then
                r.Difference? && WellFormed(r.difference) && Shape(r.difference) == Shape(a)
                && forall i, j :: 0 <= i < a.rows && 0 <= j < a.cols ==>
                     r.difference.cells[i][j] == a.cells[i][j] - b.cells[i][j]
              else r == ShapesDiffer(Op.Subtract)
    ensures op == Op.Multiply ==>
              if a.cols == b.rows then
                r.Product? && WellFormed(r.product) && Shape(r.product) == (a.rows, b.cols)
                && forall i, j :: 0 <= i < a.rows && 0 <= j < b.cols ==>
                     r.product.cells[i][j] == Dot(a.cells[i], Column(b, j))
              else r == CannotMultiply(Shape(a), Shape(b))
    ensures op == Op.Transpose ==>
              r.Transposed? && WellFormed(r.ta) && WellFormed(r.tb)
              && Shape(r.ta) == (a.cols, a.rows) && Shape(r.tb) == (b.cols, b.rows)
              && (forall i, j :: 0 <= i < a.rows && 0 <= j < a.cols ==> r.ta.cells[j][i] == a.cells[i][j])
              && (forall i, j :: 0 <= i < b.rows && 0 <= j < b.cols ==> r.tb.cells[j][i] == b.cells[i][j])
    ensures op == Rank ==> r == Ranked
    ensures op == Determinant || op == Inverse || op == Eigen ==>
              r.PerMatrix? && (r.forA == Computed <==> IsSquare(a)) && (r.forB == Computed <==> IsSquare(b))
  {
    match op
    case Add => if Shape(a) == Shape(b) then Sum(Matrices.Add(a, b)) else ShapesDiffer(op)
    case Subtract => if Shape(a) == Shape(b) then Difference(Matrices.Subtract(a, b)) else ShapesDiffer(op)
    case Multiply =>
      if a.cols == b.rows then Product(Matrices.Multiply(a, b)) else CannotMultiply(Shape(a), Shape(b))
    case Transpose => Transposed(Matrices.Transpose(a), Matrices.Transpose(b))
    case Rank => Ranked
    case Determinant | Inverse | Eigen => PerMatrix(SquareGate(a), SquareGate(b))
  }

  /** A warning for one matrix never stops the other from being computed:
      A's share depends on A alone and B's on B alone. */
  lemma GatesIndependent(op: Op, a: Matrix, b: Matrix, a': Matrix, b': Matrix)
    requires op == Determinant || op == Inverse || op == Eigen
    requires WellFormed(a) && WellFormed(b) && WellFormed(a') && WellFormed(b')
    ensures Apply(op, a, b).forA == Apply(op, a, b').forA
    ensures Apply(op, a, b).forB == Apply(op, a', b).forB
  {
  }

  /** The sum does not depend on the order of A and B, and the two
      differences are negatives of each other. */
  lemma SumAndDifferenceSymmetry(a: Matrix, b: Matrix)
    requires WellFormed(a) && WellFormed(b) && Shape(a) == Shape(b)
    ensures Apply(Op.Add, a, b) == Apply(Op.Add, b, a)
    ensures Apply(Op.Subtract, a, b).difference == Negate(Apply(Op.Subtract, b, a).difference)
  {
    AddCommutes(a, b);
    SubtractAntisymmetric(a, b);
  }

  /** Transposing the transposes gives back A and B. */
  lemma TransposeTwice(a: Matrix, b: Matrix)
    requires WellFormed(a) && WellFormed(b)
    ensures var t := Apply(Op.Transpose, a, b); Apply(Op.Transpose, t.ta, t.tb) == Transposed(a, b)
  {
    TransposeInvolution(a);
    TransposeInvolution(b);
  }

  /** One line of the step-by-step explanation. */
  datatype Step =
      /** "Row k: A[k-1] + B[k-1] = result[k-1]" (or with "-"). */
    | RowLine(op: Op, row: nat, left: seq<real>, right: seq<real>, result: seq<real>)
      /** "Element C[k,l] = A[k-1] · B[:,l-1] = result[k-1,l-1]". */
    | ElementLine(row: nat, col: nat, left: seq<real>, right: seq<real>, value: real)

  predicate RowShapes(a: Matrix, b: Matrix, r: Matrix) {
    WellFormed(a) && WellFormed(b) && WellFormed(r) && Shape(a) == Shape(b) == Shape(r)
  }

  predicate ProductShapes(a: Matrix, b: Matrix, r: Matrix) {
    WellFormed(a) && WellFormed(b) && WellFormed(r)
    && a.cols == b.rows && Shape(r) == (a.rows, b.cols)
  }

  /** The row trace of Add or Subtract: line k is row k of A, B and the
      result, numbered from 1. */
  function RowSteps(op: Op, a: Matrix, b: Matrix, r: Matrix): (steps: seq<Step>)
    requires RowShapes(a, b, r)
    ensures |steps| == a.rows
    ensures forall i :: 0 <= i < |steps| ==> steps[i].RowLine? && steps[i].op == op && steps[i].row == i + 1
  {
    seq(a.rows, i requires 0 <= i < a.rows => RowLine(op, i + 1, a.cells[i], b.cells[i], r.cells[i]))
  }

  /** The lines Multiply emits for row i of the result, one per column. */
  function ElementRow(a: Matrix, b: Matrix, r: Matrix, i: nat): seq<Step>
    requires ProductShapes(a, b, r) && i < a.rows
  {
    seq(b.cols, j requires 0 <= j < b.cols =>
      ElementLine(i + 1, j + 1, a.cells[i], Column(b, j), r.cells[i][j]))
  }

  /** The element trace of Multiply for its first k rows, row after row. */
  function ElementSteps(a: Matrix, b: Matrix, r: Matrix, k: nat): (steps: seq<Step>)
    requires ProductShapes(a, b, r) && k <= a.rows
    ensures forall t :: 0 <= t < |steps| ==>
              steps[t].ElementLine? && 1 <= steps[t].row <= k && 1 <= steps[t].col <= b.cols
  {
    if k == 0 then [] else ElementSteps(a, b, r, k - 1) + ElementRow(a, b, r, k - 1)
  }

  lemma {:induction false} ElementStepsLength(a: Matrix, b: Matrix, r: Matrix, k: nat)
    requires ProductShapes(a, b, r) && k <= a.rows
    ensures |ElementSteps(a, b, r, k)| == k * b.cols
  {
    if k > 0 {
      ElementStepsLength(a, b, r, k - 1);
      assert (k - 1) * b.cols + b.cols == k * b.cols;
    }
  }

  /** The element trace has one line per entry of the result, the row index
      outer and the column index inner: line i*cols(B)+j is entry (i, j). */
  lemma {:induction false} ElementStepAt(a: Matrix, b: Matrix, r: Matrix, k: nat, i: nat, j: nat)
    requires ProductShapes(a, b, r) && k <= a.rows && i < k && j < b.cols
    ensures |ElementSteps(a, b, r, k)| == k * b.cols
    ensures i * b.cols + j < k * b.cols
    ensures ElementSteps(a, b, r, k)[i * b.cols + j]
            == ElementLine(i + 1, j + 1, a.cells[i], Column(b, j), r.cells[i][j])
  {
    ElementStepsLength(a, b, r, k);
    ElementStepsLength(a, b, r, k - 1);
    assert (k - 1) * b.cols + b.cols == k * b.cols;
    if i < k - 1 {
      ElementStepAt(a, b, r, k - 1, i, j);
    } else {
      assert i * b.cols + j == (k - 1) * b.cols + j;
    }
  }

  /** The loop of lines 95-96 (and 106-107): one line per row, in order. */
  method EmitRowSteps(op: Op, a: Matrix, b: Matrix, r: Matrix) returns (steps: seq<Step>)
    requires RowShapes(a, b, r)
    ensures steps == RowSteps(op, a, b, r)
  {
    steps := [];
    for i := 0 to a.rows
      invariant steps == RowSteps(op, a, b, r)[..i]
    {
      steps := steps + [RowLine(op, i + 1, a.cells[i], b.cells[i], r.cells[i])];
    }
  }

  /** The nested loop of lines 117-119: rows outer, columns inner. */
  method EmitElementSteps(a: Matrix, b: Matrix, r: Matrix) returns (steps: seq<Step>)
    requires ProductShapes(a, b, r)
    ensures steps == ElementSteps(a, b, r, a.rows)
  {
    steps := [];
    for i := 0 to a.rows
      invariant steps == ElementSteps(a, b, r, i)
    {
      for j := 0 to b.cols
        invariant steps == ElementSteps(a, b, r, i) + ElementRow(a, b, r, i)[..j]
      {
        steps := steps + [ElementLine(i + 1, j + 1, a.cells[i], Column(b, j), r.cells[i][j])];
      }
      assert ElementRow(a, b, r, i)[..b.cols] == ElementRow(a, b, r, i);
    }
  }

  /** The trace shown for an operation: nothing unless steps were requested
      and Add, Subtract or Multiply succeeded. */
  function Trace(op: Op, a: Matrix, b: Matrix, show: bool): (steps: seq<Step>)
    requires WellFormed(a) && WellFormed(b)
    ensures steps != [] ==> show && op in {Op.Add, Op.Subtract, Op.Multiply}
    ensures steps != [] && op != Op.Multiply ==> Shape(a) == Shape(b)
    ensures steps != [] && op == Op.Multiply ==> a.cols == b.rows
  {
    if !show then []
    else match Apply(op, a, b)
      case Sum(r) => RowSteps(Op.Add, a, b, r)
      case Difference(r) => RowSteps(Op.Subtract, a, b, r)
      case Product(r) => ElementSteps(a, b, r, a.rows)
      case _ => []
  }

  /** The trace has rows(A) lines for a successful Add or Subtract,
      rows(A) * cols(B) lines for a successful Multiply, and none otherwise;
      the row trace pairs line i with row i of A, B and the result. */
  lemma TraceLength(op: Op, a: Matrix, b: Matrix, show: bool)
    requires WellFormed(a) && WellFormed(b)
    ensures var out := Apply(op, a, b);
            |Trace(op, a, b, show)| ==
              if !show then 0
              else if out.Sum? || out.Difference? then a.rows
              else if out.Product? then a.rows * b.cols
              else 0
    ensures show && Apply(op, a, b).Sum? ==>
              forall i :: 0 <= i < a.rows ==>
                Trace(op, a, b, show)[i] == RowLine(Op.Add, i + 1, a.cells[i], b.cells[i], Apply(op, a, b).sum.cells[i])
    ensures show && Apply(op, a, b).Difference? ==>
              forall i :: 0 <= i < a.rows ==>
                Trace(op, a, b, show)[i]
                == RowLine(Op.Subtract, i + 1, a.cells[i], b.cells[i], Apply(op, a, b).difference.cells[i])
  {
    if show && Apply(op, a, b).Product? {
      ElementStepsLength(a, b, Apply(op, a, b).product, a.rows);
    }
  }

  datatype Response = NotDispatched | Dispatched(outcome: Outcome, steps: seq<Step>)

  /** What one submission of the page shows: both parse results, then the
      operation's result only when both matrices parsed. */
  datatype Page = Page(a: ParseResult, b: ParseResult, response: Response)

  /** Lines 90-179 for two parsed matrices: the operation's result and,
      when steps are shown, the trace its loops emit. */
  method Respond(op: Op, a: Matrix, b: Matrix, show: bool) returns (outcome: Outcome, steps: seq<Step>)
    requires WellFormed(a) && WellFormed(b)
    ensures outcome == Apply(op, a, b)
    ensures steps == Trace(op, a, b, show)
  {
    outcome := Apply(op, a, b);
    steps := [];
    if show {
      match outcome
      case Sum(r) => steps := EmitRowSteps(Op.Add, a, b, r);
      case Difference(r) => steps := EmitRowSteps(Op.Subtract, a, b, r);
      case Product(r) => steps := EmitElementSteps(a, b, r);
      case _ =>
    }
  }

  /** One run of the page for the given inputs: parse A and B (lines 53-54),
      decide whether steps are shown (lines 83-85) and, when both parsed, run
      the operation (lines 88-179). */
  method Run(mode: Mode, op: Op, ticked: bool, textA: string, textB: string,
             toFloat: string -> Option<real>) returns (page: Page)
    requires op in Choices(OperationPicker(mode))
    ensures page.a == Parse(textA, toFloat) && page.b == Parse(textB, toFloat)
    ensures page.response.Dispatched? <==> page.a.Ok? && page.b.Ok?
    ensures page.response.Dispatched? ==>
              page.response.outcome == Apply(op, page.a.m, page.b.m)
              && page.response.steps == Trace(op, page.a.m, page.b.m, StepsRequested(mode, ticked))
    ensures mode.Experienced? && page.response.Dispatched? ==> page.response.steps == []
  {
    var pa := Parse(textA, toFloat);
    var pb := Parse(textB, toFloat);
    if pa.Ok? && pb.Ok? {
      var outcome, steps := Respond(op, pa.m, pb.m, StepsRequested(mode, ticked));
      page := Page(pa, pb, Dispatched(outcome, steps));
    } else {
      page := Page(pa, pb, NotDispatched);
    }
  }
}
