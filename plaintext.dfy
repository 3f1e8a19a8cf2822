/**
 * The Life "Plaintext" decoder (parser.js `parsePlaintext`): lines starting
 * with '!' are comments, 'O' is a live cell and any other or missing
 * character a dead one.
 */
module Plaintext {
  import opened Strings
  import opened PatternType

  /** The decoded pattern: `block[y][x]` is the cell in column x of row y; `width` and `height` are the fields `x` and `y` of the returned object. */
  datatype Pattern = Pattern(block: seq<seq<bool>>, width: nat, height: nat)

  /** `line.charAt(0) == "!"`. */
  predicate IsComment(line: string)
  {
    |line| > 0 && line[0] == '!'
  }

  /** `line.charAt(x) == "O"`: a position past the end of the line reads as "" and is dead. */
  predicate Cell(line: string, x: nat)
  {
    x < |line| && line[x] == 'O'
  }

  /** The first `width` cells read from `line`. */
  function Row(line: string, width: nat): (row: seq<bool>)
    ensures |row| == width
    ensures forall x :: 0 <= x < width ==> (row[x] <==> Cell(line, x))
  {
    seq(width, x requires 0 <= x < width => Cell(line, x))
  }

  /** How many of `lines` are comments, wherever they stand (the first pass's `patStart`). */
  function CommentCount(lines: seq<string>): (n: nat)
    ensures n <= |lines|
  {
    if lines == [] then 0
    else CommentCount(lines[..|lines| - 1]) + (if IsComment(lines[|lines| - 1]) then 1 else 0)
  }

  /** No comment is counted exactly when no line is a comment. */
  lemma {:induction false} CommentCountZero(lines: seq<string>)
    ensures CommentCount(lines) == 0 <==> forall i :: 0 <= i < |lines| ==> !IsComment(lines[i])
  {
    if lines != [] {
      var init := lines[..|lines| - 1];
      CommentCountZero(init);
      assert forall i :: 0 <= i < |init| ==> init[i] == lines[i];
    }
  }

  /** Every line is counted exactly when every line is a comment. */
  lemma {:induction false} CommentCountAll(lines: seq<string>)
    ensures CommentCount(lines) == |lines| <==> forall i :: 0 <= i < |lines| ==> IsComment(lines[i])
  {
    if lines != [] {
      var init := lines[..|lines| - 1];
      CommentCountAll(init);
      assert forall i :: 0 <= i < |init| ==> init[i] == lines[i];
    }
  }

  /** The longest non-comment line (the first pass's `xMax`), 0 when there is none. */
  function MaxWidth(lines: seq<string>): nat
  {
    if lines == [] then 0
    else
      var w0 := MaxWidth(lines[..|lines| - 1]);
      var last := lines[|lines| - 1];
      if IsComment(last) || |last| <= w0 then w0 else |last|
  }

  /** `MaxWidth` bounds every non-comment line and is the length of one of them, or 0. */
  lemma {:induction false} MaxWidthIsLongest(lines: seq<string>)
    ensures forall i :: 0 <= i < |lines| && !IsComment(lines[i]) ==> |lines[i]| <= MaxWidth(lines)
    ensures MaxWidth(lines) == 0 ||
      exists i :: 0 <= i < |lines| && !IsComment(lines[i]) && |lines[i]| == MaxWidth(lines)
  {
    if lines != [] {
      var init := lines[..|lines| - 1];
      MaxWidthIsLongest(init);
      assert forall i :: 0 <= i < |init| ==> init[i] == lines[i];
      var w0 := MaxWidth(init);
      if w0 != 0 {
        var j :| 0 <= j < |init| && !IsComment(init[j]) && |init[j]| == w0;
        assert lines[j] == init[j];
      }
    }
  }

  /** One more line of the first pass: it is counted if a comment, measured otherwise. */
  lemma FirstPassStep(lines: seq<string>, k: nat)
    requires k < |lines|
    ensures CommentCount(lines[..k + 1]) == CommentCount(lines[..k]) + if IsComment(lines[k]) then 1 else 0
    ensures MaxWidth(lines[..k + 1]) ==
      if IsComment(lines[k]) || |lines[k]| <= MaxWidth(lines[..k]) then MaxWidth(lines[..k]) else |lines[k]|
  {
    var p := lines[..k + 1];
    assert p[..|p| - 1] == lines[..k] && p[|p| - 1] == lines[k];
  }

  /** What `parsePlaintext(str)` returns. */
  function Decode(str: string): Pattern
  {
    DecodeLines(Split(str))
  }

  /**
   * The pattern read from `lines`: `yMax` rows of `xMax` cells, taken from
   * the lines after the first `patStart` ones.
   */
  function DecodeLines(lines: seq<string>): Pattern
  {
    var patStart := CommentCount(lines);
    var xMax := MaxWidth(lines);
    var yMax := |lines| - patStart;
    Pattern(seq(yMax, y requires 0 <= y < yMax => Row(lines[y + patStart], xMax)), xMax, yMax)
  }

  /** The inner loop of the second pass: one cell per column, live where the line has an 'O'. */
  method ReadRow(line: string, width: nat) returns (row: seq<bool>)
    ensures row == Row(line, width)
  {
    row := [];
    var x := 0;
    while x < width
      invariant x <= width
      invariant row == Row(line, x)
    {
      row := row + [Cell(line, x)];
      x := x + 1;
    }
  }

  /**
   * `parsePlaintext`: a first pass counts the comment lines and measures
   * the longest other line, a second builds `yMax` rows of `xMax` cells
   * from the lines that follow the first `patStart` ones.
   */
  method ParsePlaintext(str: string) returns (p: Pattern)
    ensures p == Decode(str)
  {
    var block: seq<seq<bool>> := [];
    var workStr := Split(str);
    var patStart := 0;
    var xMax := 0;
    var line := 0;
    while line < |workStr|
      invariant line <= |workStr|
      invariant patStart == CommentCount(workStr[..line])
      invariant xMax == MaxWidth(workStr[..line])
    {
      FirstPassStep(workStr, line);
      if IsComment(workStr[line]) {
        patStart := patStart + 1;
      } else if |workStr[line]| > xMax {
        xMax := |workStr[line]|;
      }
      line := line + 1;
    }
    assert workStr[..line] == workStr;
    var yMax := |workStr| - patStart;

    var y := 0;
    while y < yMax
      invariant y <= yMax
      invariant |block| == y
      invariant forall r :: 0 <= r < y ==> block[r] == Row(workStr[r + patStart], xMax)
    {
      var row := ReadRow(workStr[y + patStart], xMax);
      block := block + [row];
      y := y + 1;
    }
    p := Pattern(block, xMax, yMax);
    assert block == DecodeLines(workStr).block;
  }

  /**
   * The decoded block is a `height` x `width` rectangle, and the width is
   * the length of the longest non-comment line.
   */
  lemma {:induction false} DecodedIsRectangular(str: string)
    ensures var p := Decode(str);
      |p.block| == p.height && forall y :: 0 <= y < p.height ==> |p.block[y]| == p.width
    ensures var lines := Split(str);
      forall i :: 0 <= i < |lines| && !IsComment(lines[i]) ==> |lines[i]| <= Decode(str).width
  {
    var lines := Split(str);
    var p := DecodeLines(lines);
    assert Decode(str) == p;
    forall y | 0 <= y < p.height
      ensures |p.block[y]| == p.width
    {
      assert p.block[y] == Row(lines[y + CommentCount(lines)], p.width);
    }
    MaxWidthIsLongest(lines);
  }

  /**
   * A comment line that is not at the start is not skipped: it only moves
   * the window of the second pass down by one. With one comment at the end,
   * the first line is dropped and the comment itself is read as the last row.
   */
  lemma {:induction false} TrailingCommentShiftsRows(body: seq<string>, c: string)
    requires |body| > 0 && IsComment(c)
    requires forall i :: 0 <= i < |body| ==> !IsComment(body[i])
    ensures var p := DecodeLines(body + [c]);
      p.height == |body| && p.width == MaxWidth(body) &&
      (forall y :: 0 <= y < |body| - 1 ==> p.block[y] == Row(body[y + 1], p.width)) &&
      p.block[|body| - 1] == Row(c, p.width)
  {
    var lines := body + [c];
    assert lines[..|lines| - 1] == body && lines[|lines| - 1] == c;
    CommentCountZero(body);
    assert CommentCount(lines) == 1;
    assert MaxWidth(lines) == MaxWidth(body);
  }

  /** `O` followed by a comment line decodes to one dead cell: the `O` line is never read. */
  lemma LateCommentExample()
    ensures DecodeLines(["O", "!"]) == Pattern([[false]], 1, 1)
  {
    TrailingCommentShiftsRows(["O"], "!");
    assert ["O"] + ["!"] == ["O", "!"];
    assert MaxWidth(["O"]) == 1 by {
      assert ["O"][..0] == [];
    }
    var p := DecodeLines(["O", "!"]);
    assert p.block[0] == Row("!", 1);
    assert !Cell("!", 0);
    assert Row("!", 1) == [false];
    assert |p.block| == 1;
  }

  /** Input made only of comment lines decodes to the empty 0 x 0 pattern. */
  lemma OnlyCommentsIsEmpty(str: string)
    requires forall i :: 0 <= i < |Split(str)| ==> IsComment(Split(str)[i])
    ensures Decode(str) == Pattern([], 0, 0)
  {
    CommentCountAll(Split(str));
    MaxWidthIsLongest(Split(str));
  }

  /** A row written as Plaintext: 'O' for a live cell, '.' for a dead one. */
  function EncodeRow(row: seq<bool>): (line: string)
  {
    seq(|row|, i requires 0 <= i < |row| => if row[i] then 'O' else '.')
  }

  /** A grid written as Plaintext: one line per row, no comment, no trailing line feed. */
  function Encode(grid: seq<seq<bool>>): string
    requires |grid| > 0
  {
    Join(EncodeRows(grid))
  }

  function EncodeRows(grid: seq<seq<bool>>): (lines: seq<string>)
    ensures |lines| == |grid|
  {
    seq(|grid|, i requires 0 <= i < |grid| => EncodeRow(grid[i]))
  }

  lemma EncodedLines(grid: seq<seq<bool>>)
    ensures forall i :: 0 <= i < |grid| ==>
      var line := EncodeRows(grid)[i];
      '\n' !in line && !IsComment(line) && |line| == |grid[i]|
  {
  }

  /** Reading an encoded row back gives the row. */
  lemma RowOfEncoded(row: seq<bool>)
    ensures Row(EncodeRow(row), |row|) == row
  {
  }

  /**
   * Lines with no comment, none longer than the first: every line is a row
   * and the first line's length is the width.
   */
  lemma {:induction false} DecodeUniform(lines: seq<string>, width: nat)
    requires |lines| > 0 && |lines[0]| == width
    requires forall i :: 0 <= i < |lines| ==> !IsComment(lines[i]) && |lines[i]| <= width
    ensures DecodeLines(lines) == Pattern(seq(|lines|, y requires 0 <= y < |lines| => Row(lines[y], width)), width, |lines|)
  {
    CommentCountZero(lines);
    MaxWidthIsLongest(lines);
  }

  /**
   * Round trip: a non-empty grid whose rows all have `width` cells,
   * written as Plaintext, decodes to the same grid and dimensions.
   */
  lemma {:induction false} PlaintextRoundTrip(grid: seq<seq<bool>>, width: nat)
    requires |grid| > 0
    requires forall i :: 0 <= i < |grid| ==> |grid[i]| == width
    ensures Decode(Encode(grid)) == Pattern(grid, width, |grid|)
  {
    var lines := EncodeRows(grid);
    EncodedLines(grid);
    SplitJoin(lines);
    DecodeUniform(lines, width);
    forall y | 0 <= y < |grid|
      ensures Row(lines[y], width) == grid[y]
    {
      RowOfEncoded(grid[y]);
    }
  }

  /**
   * A trailing line feed is one more line: the decoded grid gains a last
   * row of dead cells.
   */
  lemma {:induction false} TrailingNewlineAddsDeadRow(grid: seq<seq<bool>>, width: nat)
    requires |grid| > 0
    requires forall i :: 0 <= i < |grid| ==> |grid[i]| == width
    ensures Decode(Encode(grid) + "\n") == Pattern(grid + [seq(width, _ => false)], width, |grid| + 1)
  {
    var lines := EncodeRows(grid) + [[]];
    EncodedLines(grid);
    JoinEmptyLast(EncodeRows(grid));
    assert forall i :: 0 <= i < |lines| ==> '\n' !in lines[i];
    SplitJoin(lines);
    DecodeUniform(lines, width);
    var expected := grid + [seq(width, _ => false)];
    forall y | 0 <= y < |lines|
      ensures Row(lines[y], width) == expected[y]
    {
      if y < |grid| {
        RowOfEncoded(grid[y]);
      }
    }
  }

  /** Every encoded grid with a non-empty first row is sniffed as Plaintext. */
  lemma EncodedIsPlaintext(grid: seq<seq<bool>>)
    requires |grid| > 0 && |grid[0]| > 0
    ensures GetPatternType(Encode(grid)) == Plaintext
  {
    var lines := EncodeRows(grid);
    if |grid| > 1 {
      assert Encode(grid) == lines[0] + ("\n" + Join(lines[1..]));
    }
    assert Encode(grid)[0] == lines[0][0];
  }
}
