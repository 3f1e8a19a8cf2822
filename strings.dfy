/**
 * The string primitives the decoders rely on: `split("\n")` as JavaScript
 * defines it, and `parseInt` on a run of decimal digits.
 */
module Strings {

  /** Number of line feeds in `s`. */
  function NewlineCount(s: string): nat
  {
    if s == [] then 0 else (if s[0] == '\n' then 1 else 0) + NewlineCount(s[1..])
  }

  /**
   * `s.split("\n")`: one line per line feed plus one, so the empty string
   * gives one empty line and a trailing line feed gives a final empty line.
   */
  function Split(s: string): (lines: seq<string>)
    ensures |lines| == NewlineCount(s) + 1
  {
    if s == [] then [[]]
    else
      var rest := Split(s[1..]);
      if s[0] == '\n' then [[]] + rest
      else [[s[0]] + rest[0]] + rest[1..]
  }

  /** No line of `Split(s)` holds a line feed. */
  lemma {:induction false} SplitLinesHaveNoNewline(s: string)
    ensures forall i :: 0 <= i < |Split(s)| ==> '\n' !in Split(s)[i]
  {
    if s != [] {
      SplitLinesHaveNoNewline(s[1..]);
      var rest := Split(s[1..]);
      if s[0] != '\n' {
        assert '\n' !in [s[0]] + rest[0];
        assert forall i :: 1 <= i < |Split(s)| ==> Split(s)[i] == rest[i];
      } else {
        assert forall i :: 1 <= i < |Split(s)| ==> Split(s)[i] == rest[i - 1];
      }
    }
  }

  /** `lines.join("\n")`, the inverse of `Split`. */
  function Join(lines: seq<string>): string
    requires |lines| > 0
  {
    if |lines| == 1 then lines[0] else lines[0] + "\n" + Join(lines[1..])
  }

  /** A line without a line feed is glued to the first line of what follows it. */
  lemma {:induction false} SplitGlue(l: string, t: string)
    requires '\n' !in l
    ensures Split(l + t) == [l + Split(t)[0]] + Split(t)[1..]
  {
    var tail := Split(t);
    if l == [] {
      assert l + t == t && l + tail[0] == tail[0];
    } else {
      assert (l + t)[0] == l[0];
      assert (l + t)[1..] == l[1..] + t;
      SplitGlue(l[1..], t);
      var rest := Split(l[1..] + t);
      assert rest[0] == l[1..] + tail[0] && rest[1..] == tail[1..];
      assert [l[0]] + (l[1..] + tail[0]) == l + tail[0];
    }
  }

  /** Splitting the joined lines gives the lines back. */
  lemma {:induction false} SplitJoin(lines: seq<string>)
    requires |lines| > 0
    requires forall i :: 0 <= i < |lines| ==> '\n' !in lines[i]
    ensures Split(Join(lines)) == lines
  {
    if |lines| == 1 {
      SplitGlue(lines[0], []);
      assert lines[0] + [] == lines[0];
      assert Split([]) == [[]];
      assert [lines[0] + []] + Split([])[1..] == [lines[0]];
    } else {
      var t := "\n" + Join(lines[1..]);
      assert Join(lines) == lines[0] + t;
      SplitGlue(lines[0], t);
      assert t[0] == '\n' && t[1..] == Join(lines[1..]);
      SplitJoin(lines[1..]);
      assert Split(t) == [[]] + lines[1..];
      assert lines[0] + [] == lines[0];
      assert [lines[0]] + lines[1..] == lines;
    }
  }

  /** Joining the split lines gives the string back. */
  lemma {:induction false} JoinSplit(s: string)
    ensures Join(Split(s)) == s
  {
    if s != [] {
      JoinSplit(s[1..]);
      var rest := Split(s[1..]);
      if s[0] == '\n' {
        assert Split(s)[1..] == rest;
      } else {
        var lines := Split(s);
        assert lines[1..] == rest[1..];
        if |rest| > 1 {
          assert Join(rest) == rest[0] + "\n" + Join(rest[1..]);
        }
      }
    }
  }

  /** Appending a line feed appends an empty line. */
  lemma {:induction false} JoinEmptyLast(lines: seq<string>)
    requires |lines| > 0
    ensures Join(lines + [[]]) == Join(lines) + "\n"
  {
    if |lines| > 1 {
      assert (lines + [[]])[1..] == lines[1..] + [[]];
      JoinEmptyLast(lines[1..]);
    }
  }

  predicate IsDigit(c: char)
  {
    '0' <= c <= '9'
  }

  predicate AllDigits(s: string)
  {
    forall i :: 0 <= i < |s| ==> IsDigit(s[i])
  }

  /** A digit accumulator: it only ever holds decimal digits. */
  type Digits = s: string | AllDigits(s)

  function DigitValue(c: char): (d: nat)
    requires IsDigit(c)
    ensures d < 10
  {
    (c as int - '0' as int) as nat
  }

  function DigitChar(d: nat): (c: char)
    requires d < 10
    ensures IsDigit(c) && DigitValue(c) == d
  {
    ('0' as int + d) as char
  }

  /** `parseInt(ds)` for a non-empty string of decimal digits (leading zeros allowed). */
  function DecimalValue(ds: Digits): nat
  {
    if ds == [] then 0 else 10 * DecimalValue(ds[..|ds| - 1]) + DigitValue(ds[|ds| - 1])
  }

  /** The decimal numeral of `n`, without leading zeros. */
  function DecimalText(n: nat): (ds: Digits)
    ensures |ds| > 0
  {
    if n < 10 then [DigitChar(n)] else DecimalText(n / 10) + [DigitChar(n % 10)]
  }

  /** Reading back the numeral of `n` gives `n`. */
  lemma {:induction false} DecimalRoundTrip(n: nat)
    ensures DecimalValue(DecimalText(n)) == n
  {
    var ds := DecimalText(n);
    if n >= 10 {
      DecimalRoundTrip(n / 10);
      assert ds[..|ds| - 1] == DecimalText(n / 10);
    }
  }
}
