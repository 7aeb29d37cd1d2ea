/**
 * Which operations the page offers. An experienced user picks from all
 * eight; a beginner first picks a level, and the level decides the choice
 * (level 2 offers no choice at all). The step-by-step checkbox exists only
 * in beginner mode.
 */
module Menu {

  /** The eight entries of the experienced-mode operation list, in order. */
  datatype Op = Add | Subtract | Multiply | Transpose | Determinant | Inverse | Rank | Eigen

  datatype Level = Level1 | Level2 | Level3 | Level4

  datatype Mode = Beginner(level: Level) | Experienced

  /** How `operation` is obtained: from a select box over `options`, or
      assigned directly. */
  datatype Picker = SelectBox(options: seq<Op>) | Fixed(op: Op)

  function Choices(p: Picker): seq<Op> {
    match p
    case SelectBox(options) => options
    case Fixed(op) => [op]
  }

  predicate Distinct(ops: seq<Op>) {
    forall i, j :: 0 <= i < j < |ops| ==> ops[i] != ops[j]
  }

  /** The level whose title names the operation ("Level 1: Addition &
      Subtraction", ..., "Level 4: Rank, Eigenvalues & Eigenvectors"). */
  function LevelOf(op: Op): Level {
    match op
    case Add | Subtract => Level1
    case Multiply => Level2
    case Transpose | Determinant | Inverse => Level3
    case Rank | Eigen => Level4
  }

  /** Position of the operation in the experienced-mode list. */
  function ListIndex(op: Op): nat {
    match op
    case Add => 0
    case Subtract => 1
    case Multiply => 2
    case Transpose => 3
    case Determinant => 4
    case Inverse => 5
    case Rank => 6
    case Eigen => 7
  }

  /** The operation selector (lines 64-80). */
  function OperationPicker(mode: Mode): (p: Picker)
    ensures |Choices(p)| >= 1
    ensures p.Fixed? <==> mode == Beginner(Level2)
  {
    match mode
    case Experienced =>
      SelectBox([Add, Subtract, Multiply, Transpose, Determinant, Inverse, Rank, Eigen])
    case Beginner(Level1) => SelectBox([Add, Subtract])
    case Beginner(Level2) => Fixed(Multiply)
    case Beginner(Level3) => SelectBox([Transpose, Determinant, Inverse])
    case Beginner(Level4) => SelectBox([Rank, Eigen])
  }

  /** In experienced mode every operation is offered, each once, from a
      select box. */
  lemma ExperiencedOffersAll(op: Op)
    ensures OperationPicker(Experienced).SelectBox?
    ensures op in Choices(OperationPicker(Experienced))
    ensures Distinct(Choices(OperationPicker(Experienced)))
  {
    var all := Choices(OperationPicker(Experienced));
    assert all[ListIndex(op)] == op;
    assert forall i :: 0 <= i < |all| ==> ListIndex(all[i]) == i;
  }

  /** In beginner mode exactly the operations of the chosen level are
      offered, each once; so every operation is taught at exactly one
      level. Only level 2 assigns its operation without a select box. */
  lemma BeginnerOffersLevel(op: Op, level: Level)
    ensures op in Choices(OperationPicker(Beginner(level))) <==> level == LevelOf(op)
    ensures Distinct(Choices(OperationPicker(Beginner(level))))
    ensures OperationPicker(Beginner(level)).Fixed? <==> level == Level2
  {
  }

  /** `show_steps`: the checkbox counts only in beginner mode. */
  function StepsRequested(mode: Mode, ticked: bool): (show: bool)
    ensures mode.Experienced? ==> !show
    ensures mode.Beginner? ==> (show <==> ticked)
  {
    mode.Beginner? && ticked
  }
}
