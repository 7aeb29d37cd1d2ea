# Matrix operations tool: parser and dispatcher

A model of the two pieces of real logic in `matrix_tool.py`, a single-page
educational matrix calculator:

- **`parse_matrix`**: the text of a matrix is stripped and cut into lines at
  each `"\n"`. Each line is split on whitespace and every token is converted
  with `float`. The result is an array when all rows have one length. If any
  token fails to convert, or if the rows differ in length, the result is
  `None` with the matching error message.
- **The results block**: the block runs only when both A and B parsed. It
  checks the chosen operation's shape rule, then produces the result or a
  shape message. Add and Subtract need equal shapes. Multiply needs
  `cols(A) == rows(B)`. Transpose has no condition. Determinant, Inverse and
  Eigen check A and B for squareness separately. In beginner mode, Add,
  Subtract and Multiply can also print a step-by-step trace.
- **The operation menu**: the choices depend on the mode and, in beginner
  mode, on the level. The step checkbox exists only in beginner mode.

Modules, one per concern:

| file | module | contents |
|---|---|---|
| `text.dfy` | `PyText` | `str.strip()`, `str.split("\n")`, `str.split()` over Python's whitespace set |
| `matrices.dfy` | `Matrices` | arrays with their shape; `+`, `-`, `@` and `.T` over exact reals |
| `parser.dfy` | `Parser` | `parse_matrix` with an abstract `float` conversion |
| `menu.dfy` | `Menu` | operations, modes, levels and the operation selector |
| `dispatch.dfy` | `Dispatch` | the results block: shape rules, outcomes, the step-trace loops, one page run |

Python's `float` is a parameter, `toFloat: string -> Option<real>`.
`None` means the token is rejected. The parser's properties hold for every
such conversion. The numpy kernels `det`, `inv`, `matrix_rank` and `eig` are
not modelled. An outcome only records whether the kernel ran on a matrix or
the matrix got the "must be square" warning instead.

### Behaviour worth knowing

These follow from the code as written, and the model keeps them:

- Empty or whitespace-only text is accepted. It strips to `""`, which splits
  into one empty line, so the result is one row of zero entries. The set of
  row lengths is `{0}`, and the matrix has shape (1, 0). See
  `Parser.BlankTextIsOneEmptyRow`. Later operations do not all accept such
  a matrix. `matrix_rank` takes a maximum over an empty list of singular
  values and raises an error, and the handler at the end of the results
  block shows it. Ranks written before the failing call stay on the page.
  If A is the blank matrix, no rank appears. If only B is blank, rank(A)
  (line 160) appears and then the error from the call on B (line 161). The
  model still reports `Ranked` in both cases; see "Left out".
- A blank line inside the text is not skipped. It is a row of zero entries,
  so `"1 2\n\n3 4"` is rejected as ragged. See `Parser.BlankLineRejected`
  and `Parser.InteriorBlankLine`.
- Inverting a singular square matrix may make the library raise
  `LinAlgError`, and the page then shows a "not invertible" warning. It
  raises only when LU elimination meets a pivot that is exactly zero. Other
  singular matrices, such as `[[1,2,3],[4,5,6],[7,8,9]]`, can come back from
  rounding as a huge-valued "inverse" with no warning. The model counts every
  square matrix as `Computed`, because it passed the square check. See
  "Left out".

## Model

| member | source | states |
|---|---|---|
| `PyText.AsciiSpaces` | matrix_tool.py:12-13 | among ASCII characters, `strip()` and `split()` treat exactly space, `\t`, `\n`, `\v`, `\f`, `\r` and U+001C..U+001F as whitespace; no printable character such as a digit, sign or `.` is whitespace |
| `PyText.TrimLeft` | matrix_tool.py:12 | what is left is a suffix of the text that is empty or starts with a non-space; everything dropped is whitespace |
| `PyText.TrimRight` | matrix_tool.py:12 | what is left is a prefix of the text that is empty or ends with a non-space; everything dropped is whitespace |
| `PyText.Strip` | matrix_tool.py:12 | the stripped text is empty or starts and ends with a non-space character |
| `PyText.StripMargins` | matrix_tool.py:12 | the text is the stripped text with an all-whitespace margin on each side |
| `PyText.StripEmptyIffAllSpace` | matrix_tool.py:12 | stripping gives `""` exactly when the text is all whitespace |
| `PyText.StripNoMargins` | matrix_tool.py:12 | text that starts and ends with a non-space is left unchanged by strip |
| `PyText.Split` | matrix_tool.py:12 | `split("\n")` gives at least one piece, and no piece contains the separator |
| `PyText.JoinSplit` | matrix_tool.py:12 | joining the pieces with the separator gives back the text |
| `PyText.SplitJoin` | matrix_tool.py:12 | pieces without the separator, once joined, split back into the same pieces |
| `PyText.SplitCount` | matrix_tool.py:12 | there is one piece more than there are separators |
| `PyText.WordLength` | matrix_tool.py:13 | the leading run of non-space characters is maximal, and is non-empty when the text starts with a non-space |
| `PyText.Words` | matrix_tool.py:13 | `split()` yields only non-empty tokens that contain no whitespace; `GapWords` and `WordsSplitOff` fix which tokens these are for every line |
| `PyText.GapWords` | matrix_tool.py:13 | whitespace of any kind and length in front of a line adds no tokens |
| `PyText.WordsSplitOff` | matrix_tool.py:13 | after any whitespace gap, a maximal run of non-space characters is the first token, and the tokens of the rest follow it |
| `PyText.TwoWords` | matrix_tool.py:13 | two tokens with whitespace of any kind and length before, between and after them, as in `"  1 \t 2 "`, give exactly those two tokens |
| `PyText.WordsEmptyIffAllSpace` | matrix_tool.py:13 | a line has no tokens exactly when it is all whitespace |
| `PyText.WordsJoin` | matrix_tool.py:13 | tokens joined by single spaces split back into the same tokens, in order |
| `PyText.WordsSingle` | matrix_tool.py:13 | a non-empty token without whitespace splits into itself alone |
| `PyText.WordLengthPrefix` | matrix_tool.py:13 | a run of non-spaces in front adds exactly its length to the leading run |
| `PyText.WordsCons` | matrix_tool.py:13 | a token followed by a space and any further text: the token comes first and the rest is split on its own |
| `PyText.SplitPrefix` | matrix_tool.py:12 | text without the separator in front of more text extends the first piece only |
| `Parser.Lines` | matrix_tool.py:12 | the lines of the stripped text: at least one, none holding a newline, and joined with newlines they give back the stripped text |
| `Parser.Tokens` | matrix_tool.py:12-13 | one token row per line, row i being `split()` of line i |
| `Parser.ConvertRow` | matrix_tool.py:13 | `map(float, tokens)` succeeds exactly when every token converts, and then gives one number per token, in order |
| `Parser.ConvertRows` | matrix_tool.py:13 | the comprehension succeeds exactly when every token of every row converts, and then converts each row in order |
| `Parser.RowLengths` | matrix_tool.py:14 | the set holds exactly the rows' lengths: every row's length is in it and every element is some row's length; it is empty exactly when there are no rows |
| `Parser.RowLengthsSingleton` | matrix_tool.py:14 | the set of row lengths has exactly one element when there is at least one row and all rows have one length |
| `Parser.ConvertedRows` | matrix_tool.py:13-14 | converted rows keep the token rows' count, lengths and order, and have a single row length exactly when the token rows do |
| `Parser.Decide` | matrix_tool.py:13-20 | on token rows: a rejected token gives the format error even if rows are also ragged; else unequal lengths give the ragged error; else the matrix holds the tokens as numbers in input order |
| `Parser.Parse` | matrix_tool.py:10-20 | on text: format error exactly when some token is not a number; ragged error exactly when all are numbers but lines differ in token count; else one well-formed row per line of the stripped text, entry (i, j) being token j of line i |
| `Parser.RowCount` | matrix_tool.py:12-17 | an accepted matrix has one row more than the stripped text has newlines |
| `Parser.BlankTextIsOneEmptyRow` | matrix_tool.py:12-17 | empty or whitespace-only text is accepted as one row of zero entries, shape (1, 0) |
| `Parser.BlankLineRejected` | matrix_tool.py:12-16 | a blank line anywhere in the same text as a line with a token is never accepted |
| `Parser.InteriorBlankLine` | matrix_tool.py:12-16 | text shaped like `"1 2\n\n3 4"` whose tokens are all numbers gives the ragged error |
| `Parser.NonNumericWins` | matrix_tool.py:13-20 | one rejected token anywhere makes the whole parse fail, and no partial matrix is returned |
| `Matrices.Add` | matrix_tool.py:93 | `A + B` has the operands' shape |
| `Matrices.Subtract` | matrix_tool.py:104 | `A - B` has the operands' shape |
| `Matrices.Multiply` | matrix_tool.py:115 | `A @ B` has shape rows(A) x cols(B) |
| `Matrices.Transpose` | matrix_tool.py:127 | `M.T` has the shape of M swapped |
| `Matrices.Extensionality` | matrix_tool.py:92-129 | two well-formed matrices of one shape with equal entries are equal |
| `Matrices.AddCommutes` | matrix_tool.py:93 | `A + B == B + A` |
| `Matrices.SubtractAntisymmetric` | matrix_tool.py:104 | `A - B == -(B - A)` |
| `Matrices.SubtractUndoesAdd` | matrix_tool.py:93-104 | `(A + B) - B == A` |
| `Matrices.TransposeInvolution` | matrix_tool.py:127 | transposing twice gives back the matrix, including shapes with zero rows or columns |
| `Matrices.TransposeRowIsColumn` | matrix_tool.py:127 | row j of `M.T` is column j of M |
| `Matrices.TransposeAdd` | matrix_tool.py:93-127 | `(A + B).T == A.T + B.T` |
| `Matrices.DotCommutes` | matrix_tool.py:115 | the dot product is symmetric |
| `Matrices.MultiplyTranspose` | matrix_tool.py:115-127 | `(A @ B).T == B.T @ A.T` |
| `Menu.OperationPicker` | matrix_tool.py:64-80 | the selector always offers at least one operation, and assigns one without a select box exactly at beginner level 2 |
| `Menu.StepsRequested` | matrix_tool.py:83-85 | steps are never shown in experienced mode; in beginner mode they are shown exactly when the box is ticked |
| `Menu.ExperiencedOffersAll` | matrix_tool.py:64-70 | experienced mode offers all eight operations in a select box, each once |
| `Menu.BeginnerOffersLevel` | matrix_tool.py:71-80 | a beginner level offers exactly the operations named in its title, each once; only level 2 assigns Multiply without a select box |
| `Dispatch.SquareGate` | matrix_tool.py:132-172 | the kernel runs on a matrix exactly when it is square; otherwise the "must be square" warning is shown for it |
| `Dispatch.Apply` | matrix_tool.py:90-179 | Add and Subtract succeed exactly when the shapes are equal, entry by entry, and otherwise give the shape error; Multiply succeeds exactly when cols(A) = rows(B), with dot-product entries, and otherwise names both shapes; Transpose always transposes both; Rank always runs; Determinant, Inverse and Eigen run on A iff A is square and on B iff B is square |
| `Dispatch.GatesIndependent` | matrix_tool.py:131-179 | for Determinant, Inverse and Eigen, A's result depends on A alone and B's on B alone, so a warning for one never suppresses the other |
| `Dispatch.SumAndDifferenceSymmetry` | matrix_tool.py:91-111 | swapping A and B leaves the sum unchanged and negates the difference |
| `Dispatch.TransposeTwice` | matrix_tool.py:125-129 | transposing the two transposes gives back A and B |
| `Dispatch.RowSteps` | matrix_tool.py:94-107 | the Add/Subtract trace has one line per row of A, line i carrying the operation and the number i + 1 |
| `Dispatch.ElementSteps` | matrix_tool.py:116-119 | every line of the Multiply trace is an element line whose row number is within the rows traced and whose column number is within the columns of B |
| `Dispatch.ElementStepsLength` | matrix_tool.py:117-119 | the Multiply trace of the first k rows has k * cols(B) lines |
| `Dispatch.ElementStepAt` | matrix_tool.py:117-119 | line i * cols(B) + j of the Multiply trace is entry (i, j), numbered (i+1, j+1), with row i of A, column j of B and the result entry: i outer, j inner |
| `Dispatch.EmitRowSteps` | matrix_tool.py:94-107 | the loop emits one line per row of A, in row order, with that row of A, B and the result |
| `Dispatch.EmitElementSteps` | matrix_tool.py:116-119 | the nested loop emits exactly the row-major element trace of the product |
| `Dispatch.Trace` | matrix_tool.py:94-119 | a trace is shown only when steps were requested, for Add, Subtract or Multiply, and only when that operation's shape rule held |
| `Dispatch.TraceLength` | matrix_tool.py:94-119 | the trace has rows(A) lines for a successful Add or Subtract, rows(A) * cols(B) for a successful Multiply and none otherwise; for Add/Subtract line i pairs row i of A, B and the result |
| `Dispatch.Respond` | matrix_tool.py:90-179 | running the results block yields the operation's outcome and the trace its loops emit when steps are shown |
| `Dispatch.Run` | matrix_tool.py:53-88 | both texts are parsed; the operation runs only when both parsed; steps are shown only in beginner mode with the box ticked, so experienced mode never shows a trace |

## Left out

- Rendering: all `st.*` calls (page setup, widgets, headings, learning notes, input guide, display of the parsed matrices, message text) are UI. Widgets become parameters of `Dispatch.Run` (mode, operation, checkbox, the two texts). Messages become outcome tags.
- Python's `float` grammar (signs, exponents, `inf`, `nan`, underscores, surrounding whitespace): a parameter `toFloat`, because it is a library routine.
- Dispatch.Apply: for Determinant, Inverse, Rank and Eigen it only says which matrices the numpy kernel runs on, not what it returns. The kernels are numpy floating-point routines: `det` (and its `:.2f` rounding), `inv`, `matrix_rank` and `eig`.
- Dispatch.Apply: the "not invertible" warning that `inv` raises through `LinAlgError` is part of the `Computed` outcome. It fires only when LU elimination meets an exactly zero pivot, which depends on rounding during elimination, not on any tolerance.
- The catch-all `except Exception` of lines 181-182 is not modelled. It can only catch failures of the library calls. One such failure on A would also skip B's part, and the model does not capture that. A reachable case is Rank on a (1, 0) matrix from blank text. There `matrix_rank` raises an error, and only the ranks written before the failing call are shown: none if A is blank, rank(A) if only B is. `Dispatch.Apply` still gives `Ranked`.
- Matrices.Add, Matrices.Subtract, Matrices.Multiply: exact `real` arithmetic instead of double-precision rounding.
- Order of output on the page: the parsed matrices are shown before the result, and trace lines come before the result line. The model keeps the trace's own order only.
- Streamlit reruns the script on every interaction. The model covers one run, with no state between runs.
