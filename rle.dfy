/**
 * The RLE body decoder (parser.js `parseRle`): comment lines starting with
 * '#' are skipped, the first other line is the header, and every later line
 * is fed, character by character, to a token machine over `b`, `o`, digits,
 * `$` and `!` that appends cells and rows to `block`.
 */
module Rle {
  import opened Options
  import opened Strings
  import RleMeta
  import opened PatternType

  /** The token machine's variables: `block`, `mapY`, `runLength`, `parsingRunLength`. */
  datatype Body = Body(block: seq<seq<bool>>, mapY: nat, runLength: nat, parsingRunLength: Digits)

  /** The whole decoder: `gotMeta`, the header's `xMax` and `yMax`, and the token machine. */
  datatype Decoder = Decoder(gotMeta: bool, x: Option<nat>, y: Option<nat>, body: Body)

  /**
   * What one character does: the line goes on, the line stops (the `break`
   * after '!'), or `block[mapY]` is undefined and JavaScript throws a
   * TypeError.
   */
  datatype Effect = Go(next: Body) | Halt(next: Body) | Throws

  /** What `parseRle` returns (`{block, x, y}`), or the TypeError it throws. */
  datatype RleResult = Parsed(block: seq<seq<bool>>, x: Option<nat>, y: Option<nat>) | TypeError

  const Fresh := Decoder(false, None, None, Body([], 0, 1, ""))

  function Repeat(cell: bool, n: nat): (r: seq<bool>)
    ensures |r| == n && forall i :: 0 <= i < n ==> r[i] == cell
  {
    seq(n, _ => cell)
  }

  /**
   * Pads `row` with dead cells up to the width. An undefined width pads
   * nothing (`j < undefined` is false) and a row is never truncated.
   */
  function Pad(row: seq<bool>, w: Option<nat>): (r: seq<bool>)
    ensures |r| == if w.Some? && |row| < w.value then w.value else |row|
    ensures r[..|row|] == row
    ensures forall i :: |row| <= i < |r| ==> !r[i]
  {
    if w.Some? && |row| < w.value then row + Repeat(false, w.value - |row|) else row
  }

  /** `n` rows of dead cells as wide as the width: empty rows pushed by `$` and then padded. */
  function DeadRows(n: nat, w: Option<nat>): (rows: seq<seq<bool>>)
    ensures |rows| == n
  {
    seq(n, _ => Pad([], w))
  }

  /**
   * `$` with run length n: n times, pad row `mapY`, advance `mapY` and push
   * an empty row. On the current last row, the row is padded, n - 1 dead
   * rows follow, and the new current row is empty.
   */
  function EndRows(block: seq<seq<bool>>, mapY: nat, n: nat, w: Option<nat>): (r: (seq<seq<bool>>, nat))
    requires mapY < |block|
    ensures |r.0| == |block| + n && r.1 == mapY + n
    ensures forall i :: 0 <= i < mapY ==> r.0[i] == block[i]
    ensures forall i :: mapY <= i < mapY + n ==> w.Some? ==> |r.0[i]| >= w.value
    ensures |block| == mapY + 1 && n > 0 ==>
      r.0 == block[..mapY] + [Pad(block[mapY], w)] + DeadRows(n - 1, w) + [[]]
    decreases n
  {
    if n == 0 then (block, mapY)
    else
      var next := block[mapY := Pad(block[mapY], w)] + [[]];
      var r := EndRows(next, mapY + 1, n - 1, w);
      if |block| == mapY + 1 && n > 1 then
        assert next[..mapY + 1] == block[..mapY] + [Pad(block[mapY], w)];
        assert [Pad([], w)] + DeadRows(n - 2, w) == DeadRows(n - 1, w);
        r
      else if |block| == mapY + 1 then
        assert next == block[..mapY] + [Pad(block[mapY], w)] + DeadRows(0, w) + [[]];
        r
      else r
  }

  /** One character of a body line, with `w` the header's width. */
  function CharStep(b: Body, c: char, w: Option<nat>): (r: Effect)
    ensures r.Throws? <==>
      (b.mapY >= |b.block| && (c == '!' || ((c == 'b' || c == 'o' || c == '$') && b.runLength > 0)))
    ensures r.Halt? <==> c == '!' && b.mapY < |b.block|
    ensures |b.block| == b.mapY + 1 && r.Go? ==> |r.next.block| == r.next.mapY + 1
    ensures |b.block| == b.mapY + 1 && r.Halt? ==> |r.next.block| == r.next.mapY
    ensures |b.block| == b.mapY && r.Go? ==> r.next.block == b.block && r.next.mapY == b.mapY
    ensures c != 'b' && c != 'o' && c != '$' && c != '!' && !IsDigit(c) ==> r == Go(b)
  {
    if c == 'b' || c == 'o' then
      if b.runLength == 0 then Go(Body(b.block, b.mapY, 1, ""))
      else if b.mapY >= |b.block| then Throws
      else Go(Body(b.block[b.mapY := b.block[b.mapY] + Repeat(c == 'o', b.runLength)], b.mapY, 1, ""))
    else if IsDigit(c) then
      var p: Digits := b.parsingRunLength + [c];
      Go(Body(b.block, b.mapY, DecimalValue(p), p))
    else if c == '$' then
      if b.runLength == 0 then Go(Body(b.block, b.mapY, 1, ""))
      else if b.mapY >= |b.block| then Throws
      else
        var rows := EndRows(b.block, b.mapY, b.runLength, w);
        Go(Body(rows.0, rows.1, 1, ""))
    else if c == '!' then
      if b.mapY >= |b.block| then Throws
      else Halt(Body(b.block[b.mapY := Pad(b.block[b.mapY], w)], b.mapY + 1, 1, ""))
    else Go(b)
  }

  /** A body line: its characters in order up to and including the first '!'; `None` if it throws. */
  function LineRun(b: Body, line: string, w: Option<nat>): Option<Body>
    decreases line
  {
    if line == [] then Some(b)
    else match CharStep(b, line[0], w)
      case Throws => None
      case Halt(next) => Some(next)
      case Go(next) => LineRun(next, line[1..], w)
  }

  /** `line.charAt(0) == "#"`. */
  predicate IsComment(line: string)
  {
    |line| > 0 && line[0] == '#'
  }

  /** One line of the input: a comment is skipped, the first other line is the header, the rest is body. */
  function LineStep(d: Decoder, line: string): Option<Decoder>
  {
    if IsComment(line) then Some(d)
    else if !d.gotMeta then
      var h := RleMeta.ParseHeader(line);
      Some(Decoder(true, h.x, h.y, d.body.(block := d.body.block + [[]])))
    else match LineRun(d.body, line, d.x)
      case None => None
      case Some(next) => Some(d.(body := next))
  }

  function Runs(d: Decoder, lines: seq<string>): RleResult
    decreases lines
  {
    if lines == [] then Parsed(d.body.block, d.x, d.y)
    else match LineStep(d, lines[0])
      case None => TypeError
      case Some(next) => Runs(next, lines[1..])
  }

  /** What `parseRle(str)` returns or throws. */
  function Decode(str: string): RleResult
  {
    Runs(Fresh, Split(str))
  }

  /** The padding loop: push dead cells while the row is shorter than the width. */
  method PadRow(row: seq<bool>, xMax: Option<nat>) returns (padded: seq<bool>)
    ensures padded == Pad(row, xMax)
  {
    padded := row;
    assert row + Repeat(false, 0) == row;
    while xMax.Some? && |padded| < xMax.value
      invariant padded == row || (xMax.Some? && |row| < |padded| <= xMax.value)
      invariant padded == row + Repeat(false, |padded| - |row|)
      decreases if xMax.Some? then xMax.value - |padded| else 0
    {
      assert Repeat(false, |padded| - |row| + 1) == Repeat(false, |padded| - |row|) + [false];
      padded := padded + [false];
    }
  }

  /** The `b`/`o` loop: push `n` cells of one kind onto row `mapY`. */
  method AppendCells(block: seq<seq<bool>>, mapY: nat, n: nat, alive: bool) returns (r: seq<seq<bool>>)
    requires mapY < |block|
    ensures r == block[mapY := block[mapY] + Repeat(alive, n)]
  {
    r := block;
    assert block[mapY] + Repeat(alive, 0) == block[mapY];
    var i := 0;
    while i < n
      invariant i <= n
      invariant r == block[mapY := block[mapY] + Repeat(alive, i)]
    {
      assert Repeat(alive, i + 1) == Repeat(alive, i) + [alive];
      assert (block[mapY] + Repeat(alive, i)) + [alive] == block[mapY] + Repeat(alive, i + 1);
      r := r[mapY := r[mapY] + [alive]];
      i := i + 1;
    }
  }

  /** The `$` loop: `n` times, pad row `mapY`, move to the next row and push it empty. */
  method EndRowsLoop(block: seq<seq<bool>>, mapY: nat, n: nat, xMax: Option<nat>)
    returns (rows: seq<seq<bool>>, y: nat)
    requires mapY < |block|
    ensures (rows, y) == EndRows(block, mapY, n, xMax)
  {
    rows, y := block, mapY;
    var i := 0;
    while i < n
      invariant i <= n && y < |rows|
      invariant EndRows(block, mapY, n, xMax) == EndRows(rows, y, n - i, xMax)
    {
      var padded := PadRow(rows[y], xMax);
      rows := rows[y := padded];
      y := y + 1;
      rows := rows + [[]];
      i := i + 1;
    }
  }

  /**
   * The body of the character loop: one token applied to the machine's
   * variables. `Throws` where `block[mapY]` is undefined and JavaScript
   * throws, `Halt` after '!' (the `break`).
   */
  method Token(b: Body, ch: char, xMax: Option<nat>) returns (e: Effect)
    ensures e == CharStep(b, ch, xMax)
  {
    var block: seq<seq<bool>>, mapY: nat := b.block, b.mapY;
    var runLength: nat, parsingRunLength: Digits := b.runLength, b.parsingRunLength;
    if ch == 'b' || ch == 'o' {
      parsingRunLength := "";
      if runLength > 0 {
        if mapY >= |block| {
          return Throws;
        }
        block := AppendCells(block, mapY, runLength, ch == 'o');
      }
      runLength := 1;
    } else if IsDigit(ch) {
      parsingRunLength := parsingRunLength + [ch];
      runLength := DecimalValue(parsingRunLength);
    } else if ch == '$' {
      if runLength > 0 {
        if mapY >= |block| {
          return Throws;
        }
        block, mapY := EndRowsLoop(block, mapY, runLength, xMax);
      }
      parsingRunLength := "";
      runLength := 1;
    } else if ch == '!' {
      if mapY >= |block| {
        return Throws;
      }
      var padded := PadRow(block[mapY], xMax);
      block := block[mapY := padded];
      mapY := mapY + 1;
      parsingRunLength := "";
      runLength := 1;
      return Halt(Body(block, mapY, runLength, parsingRunLength));
    }
    e := Go(Body(block, mapY, runLength, parsingRunLength));
  }

  /** The character loop over one body line: `None` where JavaScript throws; the line stops after '!'. */
  method ScanLine(b: Body, l: string, xMax: Option<nat>) returns (r: Option<Body>)
    ensures r == LineRun(b, l, xMax)
  {
    var cur := b;
    var c := 0;
    while c < |l|
      invariant c <= |l|
      invariant LineRun(b, l, xMax) == LineRun(cur, l[c..], xMax)
    {
      assert l[c..][0] == l[c] && l[c..][1..] == l[c + 1..];
      var e := Token(cur, l[c], xMax);
      match e
      case Throws => return None;
      case Halt(next) => return Some(next);
      case Go(next) => cur := next;
      c := c + 1;
    }
    r := Some(cur);
  }

  /**
   * `parseRle`: skip '#' lines, read the header from the first other line,
   * then run the token machine over the characters of every later line.
   */
  method ParseRle(str: string) returns (r: RleResult)
    ensures r == Decode(str)
  {
    var body := Fresh.body;
    var workStr := Split(str);
    var gotMeta := false;
    var xMax: Option<nat> := None;
    var yMax: Option<nat> := None;

    var line := 0;
    while line < |workStr|
      invariant line <= |workStr|
      invariant Decode(str) == Runs(Decoder(gotMeta, xMax, yMax, body), workStr[line..])
    {
      var l := workStr[line];
      assert workStr[line..][0] == l && workStr[line..][1..] == workStr[line + 1..];
      if IsComment(l) {
      } else if !gotMeta {
        var boundingBox := RleMeta.ParseRleMeta(l);
        gotMeta := true;
        xMax := boundingBox.x;
        yMax := boundingBox.y;
        body := body.(block := body.block + [[]]);
      } else {
        var next := ScanLine(body, l, xMax);
        if next.None? {
          return TypeError;
        }
        body := next.value;
      }
      line := line + 1;
    }
    r := Parsed(body.block, xMax, yMax);
  }

  // Run lengths

  /** Digits accumulate: their decimal value becomes the run length of the next token. */
  lemma {:induction false} DigitsSetRunLength(b: Body, ds: Digits, rest: string, w: Option<nat>)
    requires |ds| > 0
    ensures var p: Digits := b.parsingRunLength + ds;
      LineRun(b, ds + rest, w) == LineRun(b.(runLength := DecimalValue(p), parsingRunLength := p), rest, w)
    decreases ds
  {
    var c := ds[0];
    var p: Digits := b.parsingRunLength + [c];
    var b1 := b.(runLength := DecimalValue(p), parsingRunLength := p);
    assert CharStep(b, c, w) == Go(b1);
    assert (ds + rest)[0] == c && (ds + rest)[1..] == ds[1..] + rest;
    if |ds| > 1 {
      DigitsSetRunLength(b1, ds[1..], rest, w);
      assert p + ds[1..] == b.parsingRunLength + ds;
    } else {
      assert ds == [c];
    }
  }

  /**
   * `n` followed by `b` (or `o`), with no digits pending, appends exactly `n`
   * dead (or live) cells to row `mapY` and resets the run length to 1.
   */
  lemma {:induction false} RunOfCells(b: Body, n: nat, t: char, rest: string, w: Option<nat>)
    requires t == 'b' || t == 'o'
    requires b.parsingRunLength == "" && b.mapY < |b.block|
    ensures LineRun(b, DecimalText(n) + [t] + rest, w)
      == LineRun(Body(b.block[b.mapY := b.block[b.mapY] + Repeat(t == 'o', n)], b.mapY, 1, ""), rest, w)
  {
    var ds := DecimalText(n);
    var p: Digits := b.parsingRunLength + ds;
    var b1 := b.(runLength := n, parsingRunLength := ds);
    calc {
      LineRun(b, ds + [t] + rest, w);
      { assert ds + [t] + rest == ds + ([t] + rest); }
      LineRun(b, ds + ([t] + rest), w);
      { DigitsSetRunLength(b, ds, [t] + rest, w); }
      LineRun(b.(runLength := DecimalValue(p), parsingRunLength := p), [t] + rest, w);
      { assert p == ds; DecimalRoundTrip(n); }
      LineRun(b1, [t] + rest, w);
      { TokenAppendsRun(b1, t, rest, w); }
      LineRun(Body(b.block[b.mapY := b.block[b.mapY] + Repeat(t == 'o', n)], b.mapY, 1, ""), rest, w);
    }
  }

  /** A `b` or `o` token appends `runLength` cells of its kind to row `mapY`. */
  lemma {:induction false} TokenAppendsRun(b: Body, t: char, rest: string, w: Option<nat>)
    requires t == 'b' || t == 'o'
    requires b.mapY < |b.block|
    ensures LineRun(b, [t] + rest, w)
      == LineRun(Body(b.block[b.mapY := b.block[b.mapY] + Repeat(t == 'o', b.runLength)], b.mapY, 1, ""), rest, w)
  {
    var b2 := Body(b.block[b.mapY := b.block[b.mapY] + Repeat(t == 'o', b.runLength)], b.mapY, 1, "");
    if b.runLength == 0 {
      assert b.block[b.mapY] + Repeat(t == 'o', 0) == b.block[b.mapY];
      assert b2.block == b.block;
    }
    assert CharStep(b, t, w) == Go(b2);
    assert ([t] + rest)[0] == t && ([t] + rest)[1..] == rest;
  }

  /** A line of digits only leaves its digits pending: the run length carries over to the next line. */
  lemma {:induction false} DigitLineCarriesRun(d: Decoder, ds: Digits, more: seq<string>)
    requires d.gotMeta && |ds| > 0
    ensures var p: Digits := d.body.parsingRunLength + ds;
      Runs(d, [ds] + more) == Runs(d.(body := d.body.(runLength := DecimalValue(p), parsingRunLength := p)), more)
  {
    var p: Digits := d.body.parsingRunLength + ds;
    var b1 := d.body.(runLength := DecimalValue(p), parsingRunLength := p);
    DigitsSetRunLength(d.body, ds, [], d.x);
    assert ds + [] == ds;
    assert LineRun(b1, [], d.x) == Some(b1);
    assert !IsComment(ds) by { assert IsDigit(ds[0]); }
    assert LineStep(d, ds) == Some(d.(body := b1));
    assert ([ds] + more)[0] == ds && ([ds] + more)[1..] == more;
  }

  // The end of a line and of the pattern

  /** The first '!' of a line ends it: whatever follows on that line is ignored. */
  lemma {:induction false} BangEndsLine(b: Body, a: string, rest: string, w: Option<nat>)
    requires '!' !in a
    ensures LineRun(b, a + "!" + rest, w) == LineRun(b, a + "!", w)
    decreases a
  {
    if a == [] {
      assert ("!" + rest)[0] == '!' && "!"[0] == '!';
      assert a + "!" + rest == "!" + rest && a + "!" == "!";
    } else {
      assert (a + "!" + rest)[0] == a[0] && (a + "!")[0] == a[0];
      assert (a + "!" + rest)[1..] == a[1..] + "!" + rest;
      assert (a + "!")[1..] == a[1..] + "!";
      assert a[0] != '!' by { assert a[0] in a; }
      match CharStep(b, a[0], w)
      case Throws =>
      case Halt(next) =>
      case Go(next) => BangEndsLine(next, a[1..], rest, w);
    }
  }

  /**
   * `$!` at the end of a pattern leaves an extra row: `$` pads row `mapY`
   * and pushes an empty row, which `!` pads to the width as well.
   */
  lemma {:induction false} EndOfLineBeforeEnd(b: Body, rest: string, w: Option<nat>)
    requires |b.block| == b.mapY + 1 && b.runLength == 1
    ensures LineRun(b, "$!" + rest, w)
      == Some(Body(b.block[b.mapY := Pad(b.block[b.mapY], w)] + [Pad([], w)], b.mapY + 2, 1, ""))
  {
    var blk := b.block[b.mapY := Pad(b.block[b.mapY], w)] + [[]];
    var rows := EndRows(b.block, b.mapY, 1, w);
    assert rows == EndRows(blk, b.mapY + 1, 0, w);
    var b1 := Body(blk, b.mapY + 1, 1, "");
    assert CharStep(b, '$', w) == Go(b1);
    assert ("$!" + rest)[0] == '$' && ("$!" + rest)[1..] == "!" + rest;
    assert ("!" + rest)[0] == '!';
    assert blk[b.mapY + 1 := Pad([], w)] == b.block[b.mapY := Pad(b.block[b.mapY], w)] + [Pad([], w)];
  }

  /**
   * After a line's '!', `block[mapY]` no longer exists: a later body line
   * whose first token needs that row makes JavaScript throw a TypeError.
   */
  lemma {:induction false} TokenAfterEndThrows(d: Decoder, line: string, more: seq<string>)
    requires d.gotMeta && |d.body.block| == d.body.mapY
    requires |line| > 0
    requires line[0] == '!' || ((line[0] == 'b' || line[0] == 'o' || line[0] == '$') && d.body.runLength > 0)
    ensures Runs(d, [line] + more) == TypeError
  {
    assert CharStep(d.body, line[0], d.x) == Throws;
    assert LineRun(d.body, line, d.x) == None;
    assert ([line] + more)[0] == line;
  }

  // Shape of the block

  /**
   * The token machine's invariant: `block` has one row more than `mapY`
   * (before '!') or exactly `mapY` rows (after it), and every row before
   * `mapY` has at least the width's cells.
   */
  predicate Shaped(b: Body, w: Option<nat>)
  {
    (|b.block| == b.mapY + 1 || |b.block| == b.mapY) &&
    forall r :: 0 <= r < b.mapY ==> w.Some? ==> |b.block[r]| >= w.value
  }

  lemma CharStepKeepsShape(b: Body, c: char, w: Option<nat>)
    requires Shaped(b, w)
    ensures CharStep(b, c, w).Go? || CharStep(b, c, w).Halt? ==> Shaped(CharStep(b, c, w).next, w)
  {
  }

  lemma {:induction false} LineRunKeepsShape(b: Body, line: string, w: Option<nat>)
    requires Shaped(b, w)
    ensures LineRun(b, line, w).Some? ==> Shaped(LineRun(b, line, w).value, w)
    decreases line
  {
    if line != [] {
      CharStepKeepsShape(b, line[0], w);
      match CharStep(b, line[0], w)
      case Throws =>
      case Halt(next) =>
      case Go(next) => LineRunKeepsShape(next, line[1..], w);
    }
  }

  /** The decoder's invariant: no row before the header, the token machine's shape after it. */
  predicate Consistent(d: Decoder)
  {
    if d.gotMeta then Shaped(d.body, d.x) else d.body.block == [] && d.body.mapY == 0
  }

  lemma {:induction false} RunsKeepShape(d: Decoder, lines: seq<string>)
    requires Consistent(d)
    ensures Runs(d, lines).Parsed? ==>
      var p := Runs(d, lines);
      p.x.Some? ==> forall r :: 0 <= r < |p.block| - 1 ==> |p.block[r]| >= p.x.value
    decreases lines
  {
    if lines != [] {
      var line := lines[0];
      if !IsComment(line) && d.gotMeta {
        LineRunKeepsShape(d.body, line, d.x);
      }
      match LineStep(d, line)
      case None =>
      case Some(next) => RunsKeepShape(next, lines[1..]);
    }
  }

  /**
   * Rows are padded to the width, never truncated: in a decoded pattern
   * with a width, every row but the last has at least that many cells.
   */
  lemma RowsPadded(str: string)
    ensures Decode(str).Parsed? ==>
      var p := Decode(str);
      p.x.Some? ==> forall r :: 0 <= r < |p.block| - 1 ==> |p.block[r]| >= p.x.value
  {
    RunsKeepShape(Fresh, Split(str));
  }

  // Header and comments

  /** Comment lines are skipped wherever they occur. */
  lemma {:induction false} SkipComments(d: Decoder, lines: seq<string>, k: nat)
    requires k <= |lines|
    requires forall j :: 0 <= j < k ==> IsComment(lines[j])
    ensures Runs(d, lines) == Runs(d, lines[k..])
    decreases k
  {
    if k > 0 {
      assert LineStep(d, lines[0]) == Some(d);
      SkipComments(d, lines[1..], k - 1);
      assert lines[1..][k - 1..] == lines[k..];
    }
  }

  /** After the header, no line changes the dimensions. */
  lemma {:induction false} BodyKeepsDimensions(d: Decoder, lines: seq<string>)
    requires d.gotMeta
    ensures Runs(d, lines).Parsed? ==> Runs(d, lines).x == d.x && Runs(d, lines).y == d.y
    decreases lines
  {
    if lines != [] {
      match LineStep(d, lines[0])
      case None =>
      case Some(next) => BodyKeepsDimensions(next, lines[1..]);
    }
  }

  /**
   * The returned `x` and `y` are those of the header: the first line that
   * is not a comment, whatever the body holds.
   */
  lemma {:induction false} HeaderGivesDimensions(str: string, k: nat)
    requires k < |Split(str)| && !IsComment(Split(str)[k])
    requires forall j :: 0 <= j < k ==> IsComment(Split(str)[j])
    ensures Decode(str).Parsed? ==>
      Decode(str).x == RleMeta.ParseHeader(Split(str)[k]).x &&
      Decode(str).y == RleMeta.ParseHeader(Split(str)[k]).y
  {
    var lines := Split(str);
    SkipComments(Fresh, lines, k);
    assert lines[k..][0] == lines[k] && lines[k..][1..] == lines[k + 1..];
    match LineStep(Fresh, lines[k])
    case None =>
    case Some(next) => BodyKeepsDimensions(next, lines[k + 1..]);
  }

  /** Input made only of comment lines decodes to an empty block with undefined dimensions. */
  lemma OnlyCommentsIsEmpty(str: string)
    requires forall j :: 0 <= j < |Split(str)| ==> IsComment(Split(str)[j])
    ensures Decode(str) == Parsed([], None, None)
  {
    SkipComments(Fresh, Split(str), |Split(str)|);
  }

  // Round trip

  /** A row as RLE tokens, one `o` per live and one `b` per dead cell. */
  function RowText(row: seq<bool>): (t: string)
    ensures |t| == |row|
  {
    seq(|row|, i requires 0 <= i < |row| => if row[i] then 'o' else 'b')
  }

  /** Rows separated by `$` and closed by `!`, all on one line. */
  function BodyText(rows: seq<seq<bool>>): string
    requires |rows| > 0
  {
    if |rows| == 1 then RowText(rows[0]) + "!" else RowText(rows[0]) + "$" + BodyText(rows[1..])
  }

  /** A grid as RLE: a header `x = W, y = H` on the first line and the body on the second. */
  function Encode(grid: seq<seq<bool>>, width: nat): string
    requires |grid| > 0
  {
    "x = " + DecimalText(width) + ", y = " + DecimalText(|grid|) + "\n" + BodyText(grid)
  }

  /** Each row padded to the width. */
  function PadAll(rows: seq<seq<bool>>, width: nat): (padded: seq<seq<bool>>)
    ensures |padded| == |rows|
  {
    seq(|rows|, i requires 0 <= i < |rows| => Pad(rows[i], Some(width)))
  }

  /** The tokens of a row append exactly that row's cells to row `mapY`. */
  lemma {:induction false} RowCells(b: Body, row: seq<bool>, rest: string, w: Option<nat>)
    requires b.runLength == 1 && b.parsingRunLength == "" && b.mapY < |b.block|
    ensures LineRun(b, RowText(row) + rest, w)
      == LineRun(b.(block := b.block[b.mapY := b.block[b.mapY] + row]), rest, w)
    decreases row
  {
    if row == [] {
      assert RowText(row) + rest == rest;
      assert b.block[b.mapY] + row == b.block[b.mapY];
      assert b.block[b.mapY := b.block[b.mapY] + row] == b.block;
    } else {
      var t := RowText(row);
      var c := t[0];
      assert c == if row[0] then 'o' else 'b';
      var b1 := b.(block := b.block[b.mapY := b.block[b.mapY] + [row[0]]]);
      assert Repeat(c == 'o', 1) == [row[0]];
      assert CharStep(b, c, w) == Go(Body(b.block[b.mapY := b.block[b.mapY] + Repeat(c == 'o', 1)], b.mapY, 1, ""));
      assert CharStep(b, c, w) == Go(b1);
      assert b1.block[b.mapY] == b.block[b.mapY] + [row[0]];
      assert b1.block[b.mapY := b1.block[b.mapY] + row[1..]] == b.block[b.mapY := b.block[b.mapY] + [row[0]] + row[1..]];
      assert (t + rest)[0] == c;
      assert (t + rest)[1..] == RowText(row[1..]) + rest;
      RowCells(b1, row[1..], rest, w);
      assert b.block[b.mapY] + [row[0]] + row[1..] == b.block[b.mapY] + row;
    }
  }

  /** A single `$` ends the current last row: it is padded and an empty row follows. */
  lemma {:induction false} EndRowToken(prefix: seq<seq<bool>>, row: seq<bool>, rest: string, w: Option<nat>)
    ensures LineRun(Body(prefix + [row], |prefix|, 1, ""), "$" + rest, w)
      == LineRun(Body(prefix + [Pad(row, w)] + [[]], |prefix| + 1, 1, ""), rest, w)
  {
    var b := Body(prefix + [row], |prefix|, 1, "");
    var blk := prefix + [Pad(row, w)] + [[]];
    assert (prefix + [row])[|prefix| := Pad(row, w)] + [[]] == blk;
    assert EndRows(blk, |prefix| + 1, 0, w) == (blk, |prefix| + 1);
    assert EndRows(b.block, |prefix|, 1, w) == (blk, |prefix| + 1);
    assert CharStep(b, '$', w) == Go(Body(blk, |prefix| + 1, 1, ""));
    assert ("$" + rest)[0] == '$' && ("$" + rest)[1..] == rest;
  }

  /**
   * `$` at run length n on the current last row pads it, leaves n - 1 dead
   * rows after it and starts a new empty row n rows further down; the run
   * length goes back to 1 and the pending digits are cleared.
   */
  lemma {:induction false} EndRunToken(b: Body, rest: string, w: Option<nat>)
    requires |b.block| == b.mapY + 1 && b.runLength > 0
    ensures LineRun(b, "$" + rest, w)
      == LineRun(Body(b.block[..b.mapY] + [Pad(b.block[b.mapY], w)] + DeadRows(b.runLength - 1, w) + [[]],
                      b.mapY + b.runLength, 1, ""), rest, w)
  {
    var rows := EndRows(b.block, b.mapY, b.runLength, w);
    assert CharStep(b, '$', w) == Go(Body(rows.0, rows.1, 1, ""));
    assert ("$" + rest)[0] == '$' && ("$" + rest)[1..] == rest;
  }

  /** `n$` with no digits pending ends the current last row and skips n - 1 dead rows. */
  lemma {:induction false} RunOfRows(b: Body, n: nat, rest: string, w: Option<nat>)
    requires n > 0 && b.parsingRunLength == "" && |b.block| == b.mapY + 1
    ensures LineRun(b, DecimalText(n) + "$" + rest, w)
      == LineRun(Body(b.block[..b.mapY] + [Pad(b.block[b.mapY], w)] + DeadRows(n - 1, w) + [[]],
                      b.mapY + n, 1, ""), rest, w)
  {
    var ds := DecimalText(n);
    var p: Digits := b.parsingRunLength + ds;
    var b1 := b.(runLength := n, parsingRunLength := ds);
    calc {
      LineRun(b, ds + "$" + rest, w);
      { assert ds + "$" + rest == ds + ("$" + rest); }
      LineRun(b, ds + ("$" + rest), w);
      { DigitsSetRunLength(b, ds, "$" + rest, w); }
      LineRun(b.(runLength := DecimalValue(p), parsingRunLength := p), "$" + rest, w);
      { assert p == ds; DecimalRoundTrip(n); }
      LineRun(b1, "$" + rest, w);
      { EndRunToken(b1, rest, w); }
      LineRun(Body(b1.block[..b1.mapY] + [Pad(b1.block[b1.mapY], w)] + DeadRows(b1.runLength - 1, w) + [[]],
                   b1.mapY + b1.runLength, 1, ""), rest, w);
      { assert b1.block == b.block && b1.mapY == b.mapY && b1.runLength == n; }
      LineRun(Body(b.block[..b.mapY] + [Pad(b.block[b.mapY], w)] + DeadRows(n - 1, w) + [[]], b.mapY + n, 1, ""), rest, w);
    }
  }

  /** A `!` ends the current last row and the pattern: it is padded and `mapY` moves past it. */
  lemma {:induction false} EndPatternToken(prefix: seq<seq<bool>>, row: seq<bool>, w: Option<nat>)
    ensures LineRun(Body(prefix + [row], |prefix|, 1, ""), "!", w)
      == Some(Body(prefix + [Pad(row, w)], |prefix| + 1, 1, ""))
  {
    var b := Body(prefix + [row], |prefix|, 1, "");
    assert (prefix + [row])[|prefix| := Pad(row, w)] == prefix + [Pad(row, w)];
    assert CharStep(b, '!', w) == Halt(Body(prefix + [Pad(row, w)], |prefix| + 1, 1, ""));
    assert "!"[0] == '!';
  }

  /** The body text of `rows`, read from an empty current row, adds those rows padded to the width. */
  lemma {:induction false} BodyRows(prefix: seq<seq<bool>>, rows: seq<seq<bool>>, width: nat)
    requires |rows| > 0
    ensures LineRun(Body(prefix + [[]], |prefix|, 1, ""), BodyText(rows), Some(width))
      == Some(Body(prefix + PadAll(rows, width), |prefix| + |rows|, 1, ""))
    decreases rows
  {
    var w := Some(width);
    var b := Body(prefix + [[]], |prefix|, 1, "");
    var row := rows[0];
    assert b.block[b.mapY] == [] && b.block[b.mapY] + row == row;
    assert b.block[b.mapY := b.block[b.mapY] + row] == prefix + [row];
    var b1 := Body(prefix + [row], |prefix|, 1, "");
    if |rows| == 1 {
      calc {
        LineRun(b, BodyText(rows), w);
        LineRun(b, RowText(row) + "!", w);
        { RowCells(b, row, "!", w); }
        LineRun(b1, "!", w);
        { EndPatternToken(prefix, row, w); }
        Some(Body(prefix + [Pad(row, w)], |prefix| + 1, 1, ""));
        { assert prefix + [Pad(row, w)] == prefix + PadAll(rows, width); }
        Some(Body(prefix + PadAll(rows, width), |prefix| + |rows|, 1, ""));
      }
    } else {
      var prefix' := prefix + [Pad(row, w)];
      calc {
        LineRun(b, BodyText(rows), w);
        { assert BodyText(rows) == RowText(row) + ("$" + BodyText(rows[1..])); }
        LineRun(b, RowText(row) + ("$" + BodyText(rows[1..])), w);
        { RowCells(b, row, "$" + BodyText(rows[1..]), w); }
        LineRun(b1, "$" + BodyText(rows[1..]), w);
        { EndRowToken(prefix, row, BodyText(rows[1..]), w); }
        LineRun(Body(prefix' + [[]], |prefix'|, 1, ""), BodyText(rows[1..]), w);
        { BodyRows(prefix', rows[1..], width); }
        Some(Body(prefix' + PadAll(rows[1..], width), |prefix'| + |rows[1..]|, 1, ""));
        { assert prefix' + PadAll(rows[1..], width) == prefix + PadAll(rows, width); }
        Some(Body(prefix + PadAll(rows, width), |prefix| + |rows|, 1, ""));
      }
    }
  }

  /**
   * Round trip: a non-empty grid written as RLE under a header declaring
   * width W decodes to the same rows, each padded to W, with dimensions
   * W and the number of rows.
   */
  lemma {:induction false} RleRoundTrip(grid: seq<seq<bool>>, width: nat)
    requires |grid| > 0
    ensures Decode(Encode(grid, width)) == Parsed(PadAll(grid, width), Some(width), Some(|grid|))
  {
    var header := "x = " + DecimalText(width) + ", y = " + DecimalText(|grid|);
    var body := BodyText(grid);
    assert Encode(grid, width) == Join([header, body]);
    assert '\n' !in header by {
      assert header == "x = " + DecimalText(width) + ", y = " + DecimalText(|grid|);
      assert forall i :: 0 <= i < |header| ==> header[i] != '\n';
    }
    assert '\n' !in body by { BodyHasNoNewline(grid); }
    SplitJoin([header, body]);
    RleMeta.HeaderWithoutRule(width, |grid|);
    assert header[0] == 'x';
    var d := Decoder(true, Some(width), Some(|grid|), Body([[]], 0, 1, ""));
    assert !IsComment(header);
    assert RleMeta.ParseHeader(header) == RleMeta.Header(Some(width), Some(|grid|), "");
    assert Fresh.body.(block := Fresh.body.block + [[]]) == Body([[]], 0, 1, "");
    assert LineStep(Fresh, header) == Some(d);
    BodyRows([], grid, width);
    var none: seq<seq<bool>> := [];
    assert none + [[]] == [[]] && none + PadAll(grid, width) == PadAll(grid, width);
    BodyStartsWithToken(grid);
    var d' := d.(body := Body(PadAll(grid, width), |grid|, 1, ""));
    assert LineStep(d, body) == Some(d');
    calc {
      Decode(Encode(grid, width));
      Runs(Fresh, [header, body]);
      { assert [header, body][0] == header && [header, body][1..] == [body]; }
      Runs(d, [body]);
      { assert [body][0] == body && [body][1..] == []; }
      Runs(d', []);
      Parsed(PadAll(grid, width), Some(width), Some(|grid|));
    }
  }

  lemma {:induction false} BodyHasNoNewline(rows: seq<seq<bool>>)
    requires |rows| > 0
    ensures forall i :: 0 <= i < |BodyText(rows)| ==> BodyText(rows)[i] != '\n'
    decreases rows
  {
    if |rows| > 1 {
      BodyHasNoNewline(rows[1..]);
    }
  }

  lemma {:induction false} BodyStartsWithToken(rows: seq<seq<bool>>)
    requires |rows| > 0
    ensures !IsComment(BodyText(rows))
  {
    if |rows| > 1 {
      assert BodyText(rows) == RowText(rows[0]) + ("$" + BodyText(rows[1..]));
    }
  }

  /** With every row as wide as the header says, the round trip gives back the grid itself. */
  lemma {:induction false} RleRoundTripExact(grid: seq<seq<bool>>, width: nat)
    requires |grid| > 0
    requires forall i :: 0 <= i < |grid| ==> |grid[i]| == width
    ensures Decode(Encode(grid, width)) == Parsed(grid, Some(width), Some(|grid|))
  {
    RleRoundTrip(grid, width);
    assert PadAll(grid, width) == grid;
  }

  /** Every encoded grid is sniffed as RLE. */
  lemma EncodedIsRle(grid: seq<seq<bool>>, width: nat)
    requires |grid| > 0
    ensures GetPatternType(Encode(grid, width)) == Rle
  {
    assert Encode(grid, width)[0] == 'x';
  }

  /**
   * A single concrete instance, not a general property: after a header
   * `x = 3, y = 1`, the body line `2o$!` yields two rows, not the one row
   * the header declares; `$` pads the first row to three cells and `!` pads
   * the empty second one.
   */
  lemma ExampleBody()
    ensures LineRun(Body([[]], 0, 1, ""), "2o$!", Some(3))
      == Some(Body([[true, true, false], [false, false, false]], 2, 1, ""))
  {
    var w := Some(3);
    var row := Repeat(true, 2);
    assert DecimalText(2) == "2";
    assert DecimalText(2) + ['o'] + "$!" == "2o$!";
    RunOfCells(Body([[]], 0, 1, ""), 2, 'o', "$!", w);
    var start: seq<seq<bool>> := [[]];
    assert start[0] + row == row;
    assert start[0 := start[0] + row] == [row];
    EndOfLineBeforeEnd(Body([row], 0, 1, ""), [], w);
    assert "$!" + [] == "$!";
    assert row == [true, true];
    assert Repeat(false, 1) == [false] && Repeat(false, 3) == [false, false, false];
    assert Pad(row, w) == [true, true, false];
    assert Pad([], w) == [false, false, false];
    assert [row][0 := Pad(row, w)] + [Pad([], w)] == [[true, true, false], [false, false, false]];
  }
}
