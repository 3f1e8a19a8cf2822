# Life pattern decoder, in Dafny

This project models the pattern decoder of a Game of Life viewer: the
four functions of `parser.js`. The viewer reads a pattern as text in one
of two formats and turns it into a grid of booleans.

- `getPatternType` sniffs the format from the first character: Plaintext,
  RLE, or unknown.
- `parsePlaintext` reads the Plaintext format. Lines starting with `!` are
  comments, `O` is a live cell, and any other or missing character is a dead
  cell.
- `parseRleMeta` reads an RLE header line such as `x = 3, y = 2, rule = B3/S23`.
  It returns the width, the height and the rule string. A value that never
  appears stays undefined, modelled as `None`.
- `parseRle` reads an RLE file. It skips `#` comment lines, reads the header
  from the first other line, and runs a token machine over the characters of
  every later line. The tokens are `b` (dead), `o` (live), run-length
  digits, `$` (end of row) and `!` (end of pattern).

The modules follow the source:

| module | file | models |
|---|---|---|
| `Options` | `options.dfy` | `Option<T>`: `None` is JavaScript's `undefined` |
| `Strings` | `strings.dfy` | `str.split("\n")`, its inverse `Join`, the digits of `"0123456789"` and `parseInt` on a run of digits |
| `PatternType` | `pattern_type.dfy` | `getPatternType` |
| `Plaintext` | `plaintext.dfy` | `parsePlaintext` |
| `RleMeta` | `rle_meta.dfy` | `parseRleMeta` |
| `Rle` | `rle.dfy` | `parseRle` |

The imperative functions become methods with loops.

- `ParsePlaintext` keeps the source's two passes.
- `ParseRleMeta` keeps the single pass with its mode and digit accumulator.
- `ParseRle` keeps the line loop. Its character loop is `ScanLine`, the
  loop's body is `Token`, and the `b`/`o`, `$` and `!` loops are
  `AppendCells`, `EndRowsLoop` and `PadRow`.

Each method is proved equal to a functional specification: `Decode`,
`ParseHeader` or `Runs`. The properties are lemmas about those functions.

`parseRle` can throw. After a line's `!`, `mapY` equals `block.length`.
A later `b`, `o` or `$` with a non-zero run length, or any `!`, then reads
`block[mapY].length` or pushes onto `block[mapY]`, and JavaScript throws a
TypeError. The model makes this an outcome, `RleResult.TypeError`, instead
of a precondition. A run length of 0 (`0b`, `0$`) never touches
`block[mapY]` and so does not throw, which a precondition would hide.

Where the code and the format's usual description disagree, the model
follows the code.

- The Plaintext width is the longest line that is *not* a comment, because
  comment lines are skipped before they are measured (parser.js:13-17).
- All `!` lines are counted in `patStart` wherever they stand, but only the
  rows before the window are skipped. The second pass reads the
  `yMax` lines that follow the first `patStart` lines, so a comment further
  down is read as a row of dead cells and the same number of non-comment
  lines at the top are dropped. `["O", "!"]` decodes to the single row
  `[false]` (`TrailingCommentShiftsRows`, `LateCommentExample`).
- A trailing line feed is one more, empty line. `"!c\n.O\nO.\n"` therefore
  decodes to three rows, the last one dead (`TrailingNewlineAddsDeadRow`).
- In RLE, `$!` at the end of a pattern leaves an extra padded row, because
  `$` pushes a new row and `!` then pads it. `"2o$!"` with width 3 gives
  `[[T,T,F],[F,F,F]]` (`ExampleBody`, `EndOfLineBeforeEnd`).
- `!` stops only the current line. Later lines are still read
  (`BangEndsLine`, `TokenAfterEndThrows`).
- The Plaintext second pass never reads past the last line: `y + patStart`
  is below the line count because `yMax` is the line count minus
  `patStart`.
- Missing dimensions stay undefined and the rows are not padded up to the
  height. The decoder neither reports nor fixes either.

## Model

| member | source | states |
|---|---|---|
| PatternType.GetPatternType | parser.js:153-158 | Plaintext iff the first character is `!`, `.` or `O`; RLE iff it is `#` or `x`; unknown otherwise, including for the empty string |
| Strings.Split | parser.js:5 | `split("\n")` gives one more piece than there are line feeds, so the empty string gives one empty line |
| Strings.SplitLinesHaveNoNewline | parser.js:5 | no piece of `split("\n")` contains a line feed |
| Strings.SplitJoin | parser.js:5 | splitting lines joined with `\n` gives the same lines back |
| Strings.JoinSplit | parser.js:5 | joining the pieces of `split("\n")` with `\n` gives the string back |
| Strings.JoinEmptyLast | parser.js:5 | a trailing line feed is an extra empty last line |
| Strings.DecimalValue | parser.js:126 | `parseInt` of a non-empty run of decimal digits; `DecimalRoundTrip` shows it inverts `DecimalText` |
| Strings.DecimalRoundTrip | parser.js:53-56 | `parseInt` of a number's decimal digits is that number |
| Plaintext.CommentCountZero | parser.js:11-16 | `patStart` is 0 iff no line starts with `!` |
| Plaintext.CommentCountAll | parser.js:11-16 | `patStart` is the line count iff every line starts with `!` |
| Plaintext.MaxWidthIsLongest | parser.js:17 | `xMax` is at least the length of every non-comment line, and is the length of one of them or 0 |
| Plaintext.FirstPassStep | parser.js:11-18 | one line of the first pass: a comment adds one to `patStart`, any other line raises `xMax` to its length if longer |
| Plaintext.ReadRow | parser.js:24-26 | the inner loop of the second pass builds exactly `xMax` cells, live where the line has `O` and dead past its end |
| Plaintext.ParsePlaintext | parser.js:3-30 | both passes compute `Decode(str)`: `yMax` rows read from the lines after the first `patStart`, with `xMax` cells each |
| Plaintext.CommentCount | parser.js:11-16 | `patStart`, the number of lines starting with `!` anywhere in the input, at most the line count; `CommentCountZero` and `CommentCountAll` characterise it |
| Plaintext.MaxWidth | parser.js:17 | `xMax`, the running maximum over non-comment lines; `FirstPassStep` ties it to the loop and `MaxWidthIsLongest` characterises it |
| Plaintext.DecodeLines | parser.js:19-29 | the returned object: `yMax` is the line count minus `patStart`, and row y is the first `xMax` cells of line `y + patStart`; `DecodedIsRectangular`, `DecodeUniform` and `TrailingCommentShiftsRows` characterise it |
| Plaintext.DecodedIsRectangular | parser.js:19-27 | the block has `height` rows of `width` cells each, and no non-comment line is longer than the width |
| Plaintext.OnlyCommentsIsEmpty | parser.js:11-19 | input made only of comment lines gives the empty 0 x 0 pattern |
| Plaintext.TrailingCommentShiftsRows | parser.js:13-25 | with one comment after non-comment lines, the height is the number of non-comment lines, the first line is never read, each row y is line y + 1, and the comment is read as the last row |
| Plaintext.LateCommentExample | parser.js:13-25 | `["O", "!"]` decodes to the one dead cell `[[false]]`, width 1, height 1 |
| Plaintext.DecodeUniform | parser.js:11-27 | lines with no comment and none longer than the first decode to one row per line, as wide as the first |
| Plaintext.RowOfEncoded | parser.js:25 | reading back a row written with `O` and `.` gives the row |
| Plaintext.PlaintextRoundTrip | parser.js:11-29 | a grid of equal-length rows, written one `O`/`.` line per row with no trailing line feed, decodes to the same grid, width and height |
| Plaintext.TrailingNewlineAddsDeadRow | parser.js:5-29 | the same text followed by a line feed decodes to the grid plus one all-dead row |
| Plaintext.EncodedIsPlaintext | parser.js:153-155 | a written grid with a non-empty first row is sniffed as Plaintext |
| RleMeta.Step | parser.js:43-73 | one iteration of the loop, in the source's order: `x`/`y` select and clear, a digit accumulates and updates the selected dimension, `e` waits for the rule, `B` or a digit starts it, and later characters extend it; `StepChanges`, `StartRule` and the scan lemmas characterise it |
| RleMeta.StepChanges | parser.js:42-73 | one character changes a dimension only if it is a digit while that dimension is selected, and then to the value of the accumulated digits; it changes the rule only by appending itself after the `e` |
| RleMeta.ParseRleMeta | parser.js:32-76 | the loop computes `ParseHeader(str)`: the left-to-right scan of the line |
| RleMeta.RunAppend | parser.js:42-74 | scanning `a + b` is scanning `b` from the state after `a` |
| RleMeta.RunInert | parser.js:42-74 | characters that are not `x`, `y`, `e` or digits, and do not start or continue a rule, change nothing |
| RleMeta.RunDigits | parser.js:53-56 | a run of digits while a dimension is selected sets it to the decimal value of all accumulated digits |
| RleMeta.SelectDimension | parser.js:45-52 | `x = ` or `y = ` selects that dimension and clears the digits |
| RleMeta.WidthScan | parser.js:42-57 | `x = W` sets the width to W |
| RleMeta.HeightSelect | parser.js:49-52 | `, y = ` after the width selects the height |
| RleMeta.DimensionsScan | parser.js:42-57 | `x = W, y = H` sets the width to W and the height to H and leaves the rule empty |
| RleMeta.HeaderWithoutRule | parser.js:32-76 | `x = W, y = H` gives `[W, H, ""]` |
| RleMeta.RuleWordInert | parser.js:42-74 | `, rul` changes nothing while a dimension is selected |
| RleMeta.RuleWordEnd | parser.js:60-63 | the `e` of `rule` makes the scan wait for the rule, and ` = ` is skipped |
| RleMeta.RuleKeyword | parser.js:60-63 | `, rule = ` only switches the mode to waiting for the rule |
| RleMeta.StartRule | parser.js:64-69 | while waiting, a `B` or a digit starts the rule and is its first character |
| RleMeta.RunRule | parser.js:71-73 | while reading the rule, every character of a text without `x`, `y` or `e` is appended to the rule, and the mode and both dimensions are kept |
| RleMeta.RuleScan | parser.js:64-73 | a rule that starts with `B` or a digit and has no `x`, `y` or `e` is taken whole, and the dimensions are kept |
| RleMeta.HeaderWithRule | parser.js:32-76 | `x = W, y = H, rule = R` gives `[W, H, R]` for such a rule R |
| RleMeta.NoXKeepsWidth | parser.js:45-56 | without an `x`, and with the width not selected, the width does not change |
| RleMeta.NoYKeepsHeight | parser.js:49-56 | without a `y`, and with the height not selected, the height does not change |
| RleMeta.NoEKeepsRule | parser.js:60-73 | without an `e`, and with no rule started, the rule does not change |
| RleMeta.MissingParts | parser.js:32-76 | a line with no `x` has an undefined width, one with no `y` an undefined height, and one with no `e` an empty rule |
| Rle.Pad | parser.js:130-132 | padding reaches the width when the row is shorter, keeps the row's cells, adds only dead cells, and never truncates |
| Rle.EndRows | parser.js:129-136 | `$` with run n adds n rows and moves `mapY` down by n, keeps the rows above, and pads the rows it passes to the width; on the current last row the result is that row padded, n - 1 dead rows of the width, and a new empty row |
| Rle.CharStep | parser.js:111-147 | one character throws iff the row `mapY` is missing and the character is `!`, or `b`/`o`/`$` with a non-zero run length; it halts the line iff it is `!`; before a `!`, `block.length == mapY + 1` is kept; any other character changes nothing |
| Rle.LineRun | parser.js:110-148 | one body line: `CharStep` over its characters, stopping after the first `!` and `None` at a throw; `BangEndsLine`, `LineRunKeepsShape`, `RowCells` and `BodyRows` characterise it |
| Rle.LineStep | parser.js:94-148 | one iteration of the line loop: a `#` line is skipped, the first other line is the header and pushes an empty row, and a later line is a body line; `SkipComments` and `BodyKeepsDimensions` characterise it |
| Rle.Runs | parser.js:93-150 | the line loop and the returned object, or the TypeError; `RunsKeepShape`, `HeaderGivesDimensions` and `RleRoundTrip` characterise it |
| Rle.PadRow | parser.js:130-132 | the padding loop computes `Pad` |
| Rle.AppendCells | parser.js:114-116 | the `b`/`o` loop appends exactly n cells of that kind to row `mapY` and changes no other row |
| Rle.EndRowsLoop | parser.js:129-136 | the `$` loop computes `EndRows` |
| Rle.Token | parser.js:111-147 | the body of the character loop computes `CharStep`: it throws, halts or goes on exactly as one character does |
| Rle.ScanLine | parser.js:110-148 | the character loop computes `LineRun`, which is `None` where JavaScript throws |
| Rle.ParseRle | parser.js:77-151 | the line loop computes `Decode(str)`: comments skipped, the header read once, and the token machine over the remaining lines |
| Rle.DigitsSetRunLength | parser.js:124-126 | digits accumulate, and the run length becomes the decimal value of all digits since the last token |
| Rle.TokenAppendsRun | parser.js:112-123 | `b` or `o` appends `runLength` cells of its kind to row `mapY`, then resets the run length to 1 and clears the digits |
| Rle.RunOfCells | parser.js:112-126 | `n` followed by `b` or `o` appends exactly n cells of that kind |
| Rle.DigitLineCarriesRun | parser.js:124-126 | a line of digits only leaves its run length pending for the next line |
| Rle.BangEndsLine | parser.js:139-147 | everything after the first `!` of a line is ignored |
| Rle.EndOfLineBeforeEnd | parser.js:127-147 | `$!` pads the current row and then pads a new one, so an extra row is left |
| Rle.TokenAfterEndThrows | parser.js:114-147 | after a `!`, a later line starting with `!`, or with `b`, `o` or `$` at a non-zero run length, makes the decode throw |
| Rle.CharStepKeepsShape | parser.js:110-147 | every character keeps `block.length` at `mapY + 1` or `mapY` and the rows above `mapY` at least as wide as the width |
| Rle.LineRunKeepsShape | parser.js:110-148 | a whole line keeps that shape |
| Rle.RunsKeepShape | parser.js:93-149 | every decoded row but the last has at least the width's cells |
| Rle.RowsPadded | parser.js:77-151 | in a decoded pattern with a width, every row but the last has at least that many cells |
| Rle.SkipComments | parser.js:95-97 | leading `#` lines do not change the decode |
| Rle.BodyKeepsDimensions | parser.js:100-150 | once the header is read, no later line changes `x` or `y` |
| Rle.HeaderGivesDimensions | parser.js:93-150 | the returned `x` and `y` are those of the first non-comment line, whatever the body holds |
| Rle.OnlyCommentsIsEmpty | parser.js:93-150 | input made only of comment lines gives an empty block with undefined dimensions |
| Rle.RowCells | parser.js:112-123 | one `o` per live and one `b` per dead cell append exactly that row |
| Rle.EndRowToken | parser.js:127-138 | a `$` pads the last row and pushes an empty one |
| Rle.EndRunToken | parser.js:127-138 | `$` at run length n on the current last row pads it, adds n - 1 dead rows, starts a new empty row n rows down, resets the run length to 1 and clears the digits |
| Rle.RunOfRows | parser.js:124-138 | `n$` with no digits pending does the same for the decimal run n |
| Rle.EndPatternToken | parser.js:139-146 | a `!` pads the last row and moves `mapY` past it without pushing a row |
| Rle.BodyRows | parser.js:110-147 | a body of rows separated by `$` and closed by `!` adds those rows, each padded to the width |
| Rle.RleRoundTrip | parser.js:77-151 | the header `x = W, y = H` followed by the grid's body decodes to the grid padded to W, with x = W and y = H |
| Rle.RleRoundTripExact | parser.js:77-151 | when every row already has W cells, it decodes to the same grid |
| Rle.EncodedIsRle | parser.js:153-156 | an RLE text starting with its header is sniffed as RLE |
| Rle.ExampleBody | parser.js:110-147 | `2o$!` at width 3 gives the rows `[T,T,F]` and `[F,F,F]` |

## Left out

- `main.js` and `patterns.js` are not part of this model. They hold the 3D
  scene, the animation and input handling, and constant sample patterns.
  None of them decodes anything.
- The rule string is extracted but not interpreted, because the source never
  interprets it.
- Line endings: `\r` is not stripped. The input is split on `'\n'` only, as
  `split("\n")` does.
- Characters are modelled as Dafny `char`, not as JavaScript's UTF-16 code
  units. `charAt` and `length` agree with the model on text without
  surrogate pairs.
- `parseInt` is modelled as exact decimal value. JavaScript numbers lose
  precision above 2^53, and the model does not capture that rounding.
- Arrays are updated in place in the source (`block.push`,
  `block[mapY].push`). The model reassigns `seq` values instead, which loses
  nothing because no array is shared.
- Stricter behaviour is not modelled, because the code does none of it:
  reporting missing dimensions, rejecting malformed run lengths, padding
  the block to the header's height, and stopping the whole decode at `!`.
