/**
 * The RLE header scanner (parser.js `parseRleMeta`): a character-driven
 * state machine over a line such as `x = 64, y = 64, rule = B3/S23`.
 */
module RleMeta {
  import opened Options
  import opened Strings

  /** The `nowParsing` mode: "", "x", "y", "wait rule", "rule". */
  datatype Mode = Idle | ReadX | ReadY | WaitRule | ReadRule

  /** The scanner's variables: `nowParsing`, `currNum`, `xMax`, `yMax`, `rulestring`. */
  datatype Scan = Scan(mode: Mode, currNum: Digits, x: Option<nat>, y: Option<nat>, rule: string)

  /** The returned triple `[xMax, yMax, rulestring]`; an absent dimension stays `undefined`. */
  datatype Header = Header(x: Option<nat>, y: Option<nat>, rule: string)

  const Start := Scan(Idle, "", None, None, "")

  /**
   * One character of the scan. 'x' and 'y' select a dimension and clear
   * the digits; a digit is accumulated and re-read into the selected
   * dimension; 'e' waits for a rule, which starts at a 'B' or a digit and
   * then takes every character.
   */
  function Step(s: Scan, c: char): Scan
  {
    var mode := if c == 'x' then ReadX else if c == 'y' then ReadY else s.mode;
    var num: Digits := if c == 'x' || c == 'y' then "" else s.currNum;
    var num: Digits := if IsDigit(c) then num + [c] else num;
    var x := if IsDigit(c) && mode == ReadX then Some(DecimalValue(num)) else s.x;
    var y := if IsDigit(c) && mode == ReadY then Some(DecimalValue(num)) else s.y;
    if c == 'e' then Scan(WaitRule, num, x, y, s.rule)
    else if mode == WaitRule && (c == 'B' || IsDigit(c)) then Scan(ReadRule, num, x, y, s.rule + [c])
    else if mode == ReadRule then Scan(mode, num, x, y, s.rule + [c])
    else Scan(mode, num, x, y, s.rule)
  }

  /**
   * What one character may change: a dimension only on a digit while that
   * dimension is selected, and then to the value of the accumulated digits;
   * the rule only by taking that character, and only once 'e' was seen.
   */
  lemma StepChanges(s: Scan, c: char)
    ensures var t := Step(s, c);
      (t.x != s.x ==> IsDigit(c) && s.mode == ReadX && t.x == Some(DecimalValue(t.currNum))) &&
      (t.y != s.y ==> IsDigit(c) && s.mode == ReadY && t.y == Some(DecimalValue(t.currNum))) &&
      (t.rule == s.rule || (t.rule == s.rule + [c] && (s.mode == WaitRule || s.mode == ReadRule)))
  {
  }

  /** The scan of the characters of `str` in order, from state `s`. */
  function Run(s: Scan, str: string): Scan
    decreases str
  {
    if str == [] then s else Run(Step(s, str[0]), str[1..])
  }

  /** What `parseRleMeta(str)` returns. */
  function ParseHeader(str: string): Header
  {
    var t := Run(Start, str);
    Header(t.x, t.y, t.rule)
  }

  /** `parseRleMeta`: one pass over the line with the mode and the digit accumulator. */
  method ParseRleMeta(str: string) returns (h: Header)
    ensures h == ParseHeader(str)
  {
    var xMax: Option<nat> := None;
    var yMax: Option<nat> := None;
    var nowParsing := Idle;
    var currNum: Digits := "";
    var rulestring := "";
    var c := 0;
    while c < |str|
      invariant c <= |str|
      invariant Run(Start, str) == Run(Scan(nowParsing, currNum, xMax, yMax, rulestring), str[c..])
    {
      ghost var before := Scan(nowParsing, currNum, xMax, yMax, rulestring);
      var ch := str[c];
      if ch == 'x' {
        nowParsing := ReadX;
        currNum := "";
      }
      if ch == 'y' {
        nowParsing := ReadY;
        currNum := "";
      }
      if IsDigit(ch) {
        currNum := currNum + [ch];
        if nowParsing == ReadX { xMax := Some(DecimalValue(currNum)); }
        if nowParsing == ReadY { yMax := Some(DecimalValue(currNum)); }
      }
      if ch == 'e' {
        nowParsing := WaitRule;
      } else if nowParsing == WaitRule && (ch == 'B' || IsDigit(ch)) {
        rulestring := rulestring + [ch];
        nowParsing := ReadRule;
      } else if nowParsing == ReadRule {
        rulestring := rulestring + [ch];
      }
      assert Scan(nowParsing, currNum, xMax, yMax, rulestring) == Step(before, ch);
      assert str[c..][1..] == str[c + 1..];
      c := c + 1;
    }
    h := Header(xMax, yMax, rulestring);
  }

  /** Scanning `a + b` is scanning `a`, then `b`. */
  lemma {:induction false} RunAppend(s: Scan, a: string, b: string)
    ensures Run(s, a + b) == Run(Run(s, a), b)
    decreases a
  {
    if a == [] {
      assert a + b == b;
    } else {
      assert (a + b)[0] == a[0] && (a + b)[1..] == a[1..] + b;
      RunAppend(Step(s, a[0]), a[1..], b);
    }
  }

  /** A character that leaves the state of the scan untouched in mode `m`. */
  predicate Inert(m: Mode, c: char)
  {
    !IsDigit(c) && c != 'x' && c != 'y' && c != 'e' && m != ReadRule && !(m == WaitRule && c == 'B')
  }

  lemma {:induction false} RunInert(s: Scan, str: string)
    requires forall i :: 0 <= i < |str| ==> Inert(s.mode, str[i])
    ensures Run(s, str) == s
    decreases str
  {
    if str != [] {
      assert Step(s, str[0]) == s;
      RunInert(s, str[1..]);
    }
  }

  /**
   * A run of digits read while a dimension is selected sets that dimension
   * to the decimal value of all digits accumulated since its 'x' or 'y'.
   */
  lemma {:induction false} RunDigits(s: Scan, ds: Digits)
    requires s.mode == ReadX || s.mode == ReadY
    requires |ds| > 0
    ensures var t := Run(s, ds);
      var v := Some(DecimalValue(s.currNum + ds));
      t == if s.mode == ReadX then s.(currNum := s.currNum + ds, x := v)
           else s.(currNum := s.currNum + ds, y := v)
    decreases ds
  {
    var t1 := Step(s, ds[0]);
    assert s.currNum + ds == (s.currNum + [ds[0]]) + ds[1..];
    if |ds| > 1 {
      RunDigits(t1, ds[1..]);
    } else {
      assert ds == [ds[0]];
    }
  }

  /** `x = ` or `y = ` selects that dimension with an empty accumulator. */
  lemma {:induction false} SelectDimension(s: Scan, c: char)
    requires c == 'x' || c == 'y'
    ensures Run(s, [c] + " = ") == s.(mode := if c == 'x' then ReadX else ReadY, currNum := "")
  {
    var t := s.(mode := if c == 'x' then ReadX else ReadY, currNum := "");
    assert Step(s, c) == t;
    calc {
      Run(s, [c] + " = ");
      { RunAppend(s, [c], " = "); }
      Run(Run(s, [c]), " = ");
      { assert [c][1..] == []; }
      Run(t, " = ");
      { RunInert(t, " = "); }
      t;
    }
  }

  /** Scanning `x = W` selects the width and sets it to W. */
  lemma {:induction false} WidthScan(w: nat)
    ensures Run(Start, "x = " + DecimalText(w)) == Scan(ReadX, DecimalText(w), Some(w), None, "")
  {
    var dw := DecimalText(w);
    var s1 := Scan(ReadX, "", None, None, "");
    calc {
      Run(Start, "x = " + dw);
      { RunAppend(Start, "x = ", dw); }
      Run(Run(Start, "x = "), dw);
      { assert "x = " == ['x'] + " = "; SelectDimension(Start, 'x'); }
      Run(s1, dw);
      { RunDigits(s1, dw); assert s1.currNum + dw == dw; DecimalRoundTrip(w); }
      Scan(ReadX, dw, Some(w), None, "");
    }
  }

  /** Then `, y = ` selects the height with an empty accumulator. */
  lemma {:induction false} HeightSelect(s: Scan)
    requires s.mode == ReadX
    ensures Run(s, ", y = ") == s.(mode := ReadY, currNum := "")
  {
    calc {
      Run(s, ", y = ");
      { assert ", y = " == ", " + (['y'] + " = "); RunAppend(s, ", ", ['y'] + " = "); }
      Run(Run(s, ", "), ['y'] + " = ");
      { RunInert(s, ", "); }
      Run(s, ['y'] + " = ");
      { SelectDimension(s, 'y'); }
      s.(mode := ReadY, currNum := "");
    }
  }

  /** Scanning `x = W, y = H` selects the height last and sets both dimensions. */
  lemma {:induction false} DimensionsScan(w: nat, h: nat)
    ensures var t := Run(Start, "x = " + DecimalText(w) + ", y = " + DecimalText(h));
      t.mode == ReadY && t.x == Some(w) && t.y == Some(h) && t.rule == ""
  {
    var dw, dh := DecimalText(w), DecimalText(h);
    var s1 := Scan(ReadX, dw, Some(w), None, "");
    var s2 := s1.(mode := ReadY, currNum := "");
    calc {
      Run(Start, "x = " + dw + ", y = " + dh);
      { RunAppend(Start, "x = " + dw + ", y = ", dh); }
      Run(Run(Start, "x = " + dw + ", y = "), dh);
      { RunAppend(Start, "x = " + dw, ", y = "); }
      Run(Run(Run(Start, "x = " + dw), ", y = "), dh);
      { WidthScan(w); }
      Run(Run(s1, ", y = "), dh);
      { HeightSelect(s1); }
      Run(s2, dh);
      { RunDigits(s2, dh); assert s2.currNum + dh == dh; DecimalRoundTrip(h); }
      s2.(currNum := dh, y := Some(h));
    }
  }

  /** Once a rule has started, every character that is not 'x', 'y' or 'e' is appended to it. */
  lemma {:induction false} RunRule(s: Scan, r: string)
    requires s.mode == ReadRule
    requires 'x' !in r && 'y' !in r && 'e' !in r
    ensures var t := Run(s, r);
      t.mode == ReadRule && t.x == s.x && t.y == s.y && t.rule == s.rule + r
    decreases r
  {
    if r != [] {
      var t1 := Step(s, r[0]);
      assert t1.rule == s.rule + [r[0]];
      RunRule(t1, r[1..]);
      assert s.rule + [r[0]] + r[1..] == s.rule + r;
    }
  }

  /** A header without a rule part: `x = W, y = H` gives `[W, H, ""]`. */
  lemma {:induction false} HeaderWithoutRule(w: nat, h: nat)
    ensures ParseHeader("x = " + DecimalText(w) + ", y = " + DecimalText(h)) == Header(Some(w), Some(h), "")
  {
    DimensionsScan(w, h);
  }

  /** `, rul` leaves a scan that is reading a dimension as it is. */
  lemma RuleWordInert(s: Scan)
    requires s.mode == ReadX || s.mode == ReadY
    ensures Run(s, ", rul") == s
  {
    RunInert(s, ", rul");
  }

  /** The 'e' of `rule` makes the scan wait for the rule; ` = ` leaves it waiting. */
  lemma RuleWordEnd(s: Scan)
    requires s.mode == ReadX || s.mode == ReadY
    ensures Run(s, "e = ") == s.(mode := WaitRule)
  {
    var s1 := s.(mode := WaitRule);
    assert Step(s, 'e') == s1;
    calc {
      Run(s, "e = ");
      { assert "e = " == "e" + " = "; RunAppend(s, "e", " = "); }
      Run(Run(s, "e"), " = ");
      { assert "e"[1..] == []; }
      Run(s1, " = ");
      { RunInert(s1, " = "); }
      s1;
    }
  }

  /**
   * A fact about the literal alone: `, rule = ` is `, rul` followed by `e = `.
   * Proved on its own so that the scan lemmas below split the keyword without
   * unfolding `Run` over the whole literal.
   */
  lemma KeywordSplit()
    ensures ", rule = " == ", rul" + "e = "
  {
  }

  /** `, rule = ` after a dimension waits for the rule. */
  lemma {:induction false} RuleKeyword(s: Scan)
    requires s.mode == ReadX || s.mode == ReadY
    ensures Run(s, ", rule = ") == s.(mode := WaitRule)
  {
    calc {
      Run(s, ", rule = ");
      { KeywordSplit(); }
      Run(s, ", rul" + "e = ");
      { RunAppend(s, ", rul", "e = "); }
      Run(Run(s, ", rul"), "e = ");
      { RuleWordInert(s); }
      Run(s, "e = ");
      { RuleWordEnd(s); }
      s.(mode := WaitRule);
    }
  }

  /** While waiting for a rule, a 'B' or a digit starts reading it and is its first character. */
  lemma StartRule(s: Scan, c: char)
    requires s.mode == WaitRule && (c == 'B' || IsDigit(c))
    ensures var t := Step(s, c); t.mode == ReadRule && t.x == s.x && t.y == s.y && t.rule == s.rule + [c]
  {
  }

  /** While waiting for a rule, a 'B' or a digit starts it and the rest of `r` follows. */
  lemma {:induction false} RuleScan(s: Scan, r: string)
    requires s.mode == WaitRule
    requires |r| > 0 && (r[0] == 'B' || IsDigit(r[0]))
    requires 'x' !in r && 'y' !in r && 'e' !in r
    ensures var t := Run(s, r); t.x == s.x && t.y == s.y && t.rule == s.rule + r
  {
    var s1 := Step(s, r[0]);
    StartRule(s, r[0]);
    assert Run(s, r) == Run(s1, r[1..]);
    RunRule(s1, r[1..]);
    assert s.rule + [r[0]] + r[1..] == s.rule + r;
  }

  /**
   * A full header `x = W, y = H, rule = R`, with R starting at a 'B' or a
   * digit and free of 'x', 'y' and 'e', gives `[W, H, R]`.
   */
  lemma {:induction false} HeaderWithRule(w: nat, h: nat, r: string)
    requires |r| > 0 && (r[0] == 'B' || IsDigit(r[0]))
    requires 'x' !in r && 'y' !in r && 'e' !in r
    ensures ParseHeader("x = " + DecimalText(w) + ", y = " + DecimalText(h) + ", rule = " + r)
      == Header(Some(w), Some(h), r)
  {
    var dims := "x = " + DecimalText(w) + ", y = " + DecimalText(h);
    var s0 := Run(Start, dims);
    DimensionsScan(w, h);
    calc {
      Run(Start, dims + ", rule = " + r);
      { RunAppend(Start, dims + ", rule = ", r); }
      Run(Run(Start, dims + ", rule = "), r);
      { RunAppend(Start, dims, ", rule = "); }
      Run(Run(s0, ", rule = "), r);
      { RuleKeyword(s0); }
      Run(s0.(mode := WaitRule), r);
    }
    RuleScan(s0.(mode := WaitRule), r);
  }

  /** Without an 'x' a scan that has not selected the width never sets it. */
  lemma {:induction false} NoXKeepsWidth(s: Scan, str: string)
    requires s.mode != ReadX && 'x' !in str
    ensures Run(s, str).x == s.x
    decreases str
  {
    if str != [] {
      assert str[0] in str;
      assert Step(s, str[0]).x == s.x && Step(s, str[0]).mode != ReadX;
      NoXKeepsWidth(Step(s, str[0]), str[1..]);
    }
  }

  /** Without a 'y' a scan that has not selected the height never sets it. */
  lemma {:induction false} NoYKeepsHeight(s: Scan, str: string)
    requires s.mode != ReadY && 'y' !in str
    ensures Run(s, str).y == s.y
    decreases str
  {
    if str != [] {
      assert str[0] in str;
      assert Step(s, str[0]).y == s.y && Step(s, str[0]).mode != ReadY;
      NoYKeepsHeight(Step(s, str[0]), str[1..]);
    }
  }

  /** Without an 'e' no rule is ever started, so the rule string stays empty. */
  lemma {:induction false} NoEKeepsRule(s: Scan, str: string)
    requires s.mode != WaitRule && s.mode != ReadRule
    requires 'e' !in str
    ensures Run(s, str).rule == s.rule
    decreases str
  {
    if str != [] {
      assert str[0] in str;
      var t := Step(s, str[0]);
      assert t.mode != WaitRule && t.mode != ReadRule && t.rule == s.rule;
      NoEKeepsRule(t, str[1..]);
    }
  }

  /** The missing parts of a header: no 'x', no width; no 'y', no height; no 'e', no rule. */
  lemma {:induction false} MissingParts(str: string)
    ensures 'x' !in str ==> ParseHeader(str).x == None
    ensures 'y' !in str ==> ParseHeader(str).y == None
    ensures 'e' !in str ==> ParseHeader(str).rule == ""
  {
    if 'x' !in str { NoXKeepsWidth(Start, str); }
    if 'y' !in str { NoYKeepsHeight(Start, str); }
    if 'e' !in str { NoEKeepsRule(Start, str); }
  }
}
