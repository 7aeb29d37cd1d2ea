/**
 * `parse_matrix`: the text of one matrix is stripped, cut into lines at each
 * '\n', each line cut into whitespace-separated tokens, every token converted
 * with `float`, and the rows accepted only when they all have one length.
 *
 * Python's `float` is not modelled: the conversion is a parameter,
 * `toFloat`, which gives `None` for a token `float` rejects and the number
 * otherwise; every property below holds for any such conversion.
 */
module Parser {
  import opened PyText
  import opened Matrices

  datatype Option<T> = None | Some(value: T)

  /** What `parse_matrix` ends with: the array, or `None` after one of its
      two error messages ("Invalid matrix format" for a token `float`
      rejects, "all rows must have the same number of elements"). */
  datatype ParseResult = Ok(m: Matrix) | NonNumeric | Ragged

  /** `input_str.strip().split("\n")`. */
  function Lines(text: string): (lines: seq<string>)
    ensures |lines| >= 1
    ensures forall i :: 0 <= i < |lines| ==> '\n' !in lines[i]
    ensures Join(lines, '\n') == Strip(text)
  {
    JoinSplit(Strip(text), '\n');
    Split(Strip(text), '\n')
  }

  /** `row.split()` for every line. */
  function Tokens(text: string): (rows: seq<seq<string>>)
    ensures |rows| == |Lines(text)| >= 1
    ensures forall i :: 0 <= i < |rows| ==> rows[i] == Words(Lines(text)[i])
  {
    WordsOfLines(Lines(text))
  }

  function WordsOfLines(lines: seq<string>): (rows: seq<seq<string>>)
    ensures |rows| == |lines|
    ensures forall i :: 0 <= i < |lines| ==> rows[i] == Words(lines[i])
  {
    seq(|lines|, i requires 0 <= i < |lines| => Words(lines[i]))
  }

  predicate AllNumeric(rows: seq<seq<string>>, toFloat: string -> Option<real>) {
    forall i, j :: 0 <= i < |rows| && 0 <= j < |rows[i]| ==> toFloat(rows[i][j]).Some?
  }

  predicate SameLength<T>(rows: seq<seq<T>>) {
    forall i, k :: 0 <= i < |rows| && 0 <= k < |rows| ==> |rows[i]| == |rows[k]|
  }

  /** `list(map(float, tokens))`: defined exactly when every token converts,
      and then the numbers in token order. */
  function ConvertRow(tokens: seq<string>, toFloat: string -> Option<real>): (r: Option<seq<real>>)
    ensures r.Some? <==> forall j :: 0 <= j < |tokens| ==> toFloat(tokens[j]).Some?
    ensures r.Some? ==> |r.value| == |tokens|
                        && forall j :: 0 <= j < |tokens| ==> r.value[j] == toFloat(tokens[j]).value
  {
    if tokens == [] then Some([])
    else match toFloat(tokens[0])
      case None => None
      case Some(x) =>
        match ConvertRow(tokens[1..], toFloat)
        case None => None
        case Some(xs) => Some([x] + xs)
  }

  /** The list comprehension of line 13: every row converted, in order; one
      failing token anywhere makes the whole comprehension fail. */
  function ConvertRows(rows: seq<seq<string>>, toFloat: string -> Option<real>): (r: Option<seq<seq<real>>>)
    ensures r.Some? <==> AllNumeric(rows, toFloat)
    ensures r.Some? ==> |r.value| == |rows|
                        && forall i :: 0 <= i < |rows| ==> Some(r.value[i]) == ConvertRow(rows[i], toFloat)
  {
    if rows == [] then Some([])
    else match ConvertRow(rows[0], toFloat)
      case None => None
      case Some(x) =>
        match ConvertRows(rows[1..], toFloat)
        case None => None
        case Some(xs) =>
          assert forall i :: 1 <= i < |rows| ==> rows[i] == rows[1..][i - 1];
          Some([x] + xs)
  }

  /** `set(len(r) for r in matrix)`. */
  function RowLengths(m: seq<seq<real>>): (lengths: set<nat>)
    ensures forall i :: 0 <= i < |m| ==> |m[i]| in lengths
    ensures forall n :: n in lengths ==> exists i :: 0 <= i < |m| && |m[i]| == n
    ensures lengths == {} <==> m == []
  {
    var lengths := set i | 0 <= i < |m| :: |m[i]|;
    assert m != [] ==> |m[0]| in lengths;
    lengths
  }

  /** The set of row lengths has exactly one element when there is at least
      one row and all rows have one length. */
  lemma RowLengthsSingleton(m: seq<seq<real>>)
    ensures |RowLengths(m)| == 1 <==> |m| >= 1 && SameLength(m)
  {
    var lengths := RowLengths(m);
    if |m| >= 1 && SameLength(m) {
      assert lengths == {|m[0]|};
    }
    if |lengths| == 1 {
      var n :| n in lengths;
      assert |lengths - {n}| == 0;
      forall i, k | 0 <= i < |m| && 0 <= k < |m|
        ensures |m[i]| == |m[k]|
      {
        assert |m[i]| in lengths && |m[k]| in lengths;
      }
    }
  }

  /** Lines 13-17 of `parse_matrix`, on the token rows. Every token is
      converted before the lengths are compared, so a bad token is reported
      even when the rows are also ragged. On success the matrix holds one row
      per token row and one entry per token, both in input order. */
  function Decide(rows: seq<seq<string>>, toFloat: string -> Option<real>): (r: ParseResult)
    requires |rows| >= 1
    ensures r.NonNumeric? <==> !AllNumeric(rows, toFloat)
    ensures r.Ragged? <==> AllNumeric(rows, toFloat) && !SameLength(rows)
    ensures r.Ok? ==> WellFormed(r.m) && r.m.rows == |rows|
    ensures r.Ok? ==> forall i :: 0 <= i < |rows| ==> |rows[i]| == r.m.cols
    ensures r.Ok? ==> forall i, j :: 0 <= i < r.m.rows && 0 <= j < r.m.cols ==>
                        r.m.cells[i][j] == toFloat(rows[i][j]).value
  {
    match ConvertRows(rows, toFloat)
    case None => NonNumeric
    case Some(m) =>
      ConvertedRows(rows, toFloat, m);
      if |RowLengths(m)| != 1 then Ragged else Ok(Matrix(|m|, |m[0]|, m))
  }

  /** `parse_matrix(text)`: no matrix when a token is not a number, else
      none when the lines hold different numbers of tokens, else one row per
      line of the stripped text holding that line's tokens as numbers. */
  function Parse(text: string, toFloat: string -> Option<real>): (r: ParseResult)
    ensures r.NonNumeric? <==> !AllNumeric(Tokens(text), toFloat)
    ensures r.Ragged? <==> AllNumeric(Tokens(text), toFloat) && !SameLength(Tokens(text))
    ensures r.Ok? ==> WellFormed(r.m) && r.m.rows == |Tokens(text)| == |Lines(text)|
    ensures r.Ok? ==> forall i :: 0 <= i < r.m.rows ==> |Tokens(text)[i]| == r.m.cols
    ensures r.Ok? ==> forall i, j :: 0 <= i < r.m.rows && 0 <= j < r.m.cols ==>
                        r.m.cells[i][j] == toFloat(Tokens(text)[i][j]).value
  {
    Decide(Tokens(text), toFloat)
  }

  /** A converted matrix has the token rows' shape and their numbers, and its
      set of row lengths is a singleton exactly when theirs is. */
  lemma ConvertedRows(rows: seq<seq<string>>, toFloat: string -> Option<real>, m: seq<seq<real>>)
    requires ConvertRows(rows, toFloat) == Some(m)
    ensures |m| == |rows|
    ensures forall i :: 0 <= i < |m| ==> |m[i]| == |rows[i]|
    ensures forall i, j :: 0 <= i < |m| && 0 <= j < |m[i]| ==> m[i][j] == toFloat(rows[i][j]).value
    ensures |RowLengths(m)| == 1 <==> |rows| >= 1 && SameLength(rows)
  {
    forall i | 0 <= i < |m|
      ensures |m[i]| == |rows[i]|
      ensures forall j :: 0 <= j < |m[i]| ==> m[i][j] == toFloat(rows[i][j]).value
    {
      assert Some(m[i]) == ConvertRow(rows[i], toFloat);
    }
    RowLengthsSingleton(m);
  }

  /** One row per line of the stripped text: one more than its newlines. */
  lemma RowCount(text: string, toFloat: string -> Option<real>)
    requires Parse(text, toFloat).Ok?
    ensures Parse(text, toFloat).m.rows == 1 + multiset(Strip(text))['\n']
  {
    SplitCount(Strip(text), '\n');
  }

  /** Empty or whitespace-only text is accepted as one row of zero entries. */
  lemma BlankTextIsOneEmptyRow(text: string, toFloat: string -> Option<real>)
    requires AllSpace(text)
    ensures Parse(text, toFloat) == Ok(Matrix(1, 0, [[]]))
  {
    StripEmptyIffAllSpace(text);
    assert Lines(text) == [[]];
    assert Tokens(text) == [[]];
  }

  /** A blank or whitespace-only line is a row of zero entries, so beside a
      line that holds a token it can never be accepted. */
  lemma BlankLineRejected(text: string, toFloat: string -> Option<real>, blank: nat, full: nat)
    requires blank < |Lines(text)| && full < |Lines(text)|
    requires AllSpace(Lines(text)[blank]) && !AllSpace(Lines(text)[full])
    ensures !Parse(text, toFloat).Ok?
  {
    WordsEmptyIffAllSpace(Lines(text)[blank]);
    WordsEmptyIffAllSpace(Lines(text)[full]);
    assert |Tokens(text)[blank]| != |Tokens(text)[full]|;
  }

  /** Text shaped like "1 2\n\n3 4": an interior blank line makes the rows
      ragged even though every token is a number. */
  lemma InteriorBlankLine(a: char, b: char, c: char, d: char, toFloat: string -> Option<real>)
    requires !IsSpace(a) && !IsSpace(b) && !IsSpace(c) && !IsSpace(d)
    requires toFloat([a]).Some? && toFloat([b]).Some? && toFloat([c]).Some? && toFloat([d]).Some?
    ensures Parse([a, ' ', b, '\n', '\n', c, ' ', d], toFloat) == Ragged
  {
    BlankLineTokens(a, b, c, d);
    BlankLineDecision(a, b, c, d, toFloat);
    ParseFromTokens([a, ' ', b, '\n', '\n', c, ' ', d], toFloat, [[[a], [b]], [], [[c], [d]]]);
  }

  lemma BlankLineDecision(a: char, b: char, c: char, d: char, toFloat: string -> Option<real>)
    requires toFloat([a]).Some? && toFloat([b]).Some? && toFloat([c]).Some? && toFloat([d]).Some?
    ensures Decide([[[a], [b]], [], [[c], [d]]], toFloat) == Ragged
  {
    var rows := [[[a], [b]], [], [[c], [d]]];
    assert AllNumeric(rows, toFloat);
    assert |rows[0]| != |rows[1]|;
  }

  lemma ParseFromTokens(text: string, toFloat: string -> Option<real>, rows: seq<seq<string>>)
    requires Tokens(text) == rows
    ensures Parse(text, toFloat) == Decide(rows, toFloat)
  {
  }

  lemma BlankLineLines(a: char, b: char, c: char, d: char)
    requires !IsSpace(a) && !IsSpace(b) && !IsSpace(c) && !IsSpace(d)
    ensures Lines([a, ' ', b, '\n', '\n', c, ' ', d]) == [[a, ' ', b], [], [c, ' ', d]]
  {
    var text := [a, ' ', b, '\n', '\n', c, ' ', d];
    var lines := [[a, ' ', b], [], [c, ' ', d]];
    StripNoMargins(text);
    SplitJoin(lines, '\n');
    assert Join(lines[2..], '\n') == [c, ' ', d];
    assert Join(lines[1..], '\n') == ['\n', c, ' ', d];
    assert Join(lines, '\n') == text;
  }

  lemma BlankLineTokens(a: char, b: char, c: char, d: char)
    requires !IsSpace(a) && !IsSpace(b) && !IsSpace(c) && !IsSpace(d)
    ensures Tokens([a, ' ', b, '\n', '\n', c, ' ', d]) == [[[a], [b]], [], [[c], [d]]]
  {
    BlankLineLines(a, b, c, d);
    PairWords(a, b);
    PairWords(c, d);
    ThreeLines([[a, ' ', b], [], [c, ' ', d]], [[a], [b]], [], [[c], [d]]);
  }

  lemma ThreeLines(lines: seq<string>, r0: seq<string>, r1: seq<string>, r2: seq<string>)
    requires |lines| == 3 && Words(lines[0]) == r0 && Words(lines[1]) == r1 && Words(lines[2]) == r2
    ensures WordsOfLines(lines) == [r0, r1, r2]
  {
  }

  lemma PairWords(x: char, y: char)
    requires !IsSpace(x) && !IsSpace(y)
    ensures Words([x, ' ', y]) == [[x], [y]]
  {
    WordsJoin([[x], [y]]);
    assert Join([[x], [y]], ' ') == [x, ' ', y];
  }

  /** A token `float` rejects makes the whole parse fail, however the rows
      are shaped; no partial matrix is returned. */
  lemma NonNumericWins(text: string, toFloat: string -> Option<real>, i: nat, j: nat)
    requires i < |Tokens(text)| && j < |Tokens(text)[i]|
    requires toFloat(Tokens(text)[i][j]).None?
    ensures Parse(text, toFloat) == NonNumeric
  {
  }
}
