/**
 * Character classes, decimal rendering of numbers, and splitting text into lines,
 * restricted to ASCII (JavaScript's `toUpperCase` and `\s` are Unicode-aware).
 */
module Text {

  predicate IsDigit(c: char) { '0' <= c <= '9' }

  predicate IsUpper(c: char) { 'A' <= c <= 'Z' }

  predicate IsLower(c: char) { 'a' <= c <= 'z' }

  /** The ASCII members of the regular-expression class `\s`. */
  predicate IsWhitespace(c: char) {
    c == ' ' || c == '\t' || c == '\n' || c == '\U{000B}' || c == '\U{000C}' || c == '\r'
  }

  /** `toUpperCase` on one ASCII character: a lower-case letter becomes its capital, anything else stays. */
  function ToUpper(c: char): (u: char)
    ensures !IsLower(u)
    ensures IsLower(c) ==> IsUpper(u) && u as int - 'A' as int == c as int - 'a' as int
    ensures IsWhitespace(u) <==> IsWhitespace(c)
    ensures !IsLower(c) ==> u == c
  {
    if IsLower(c) then (c as int - 32) as char else c
  }

  // ---------------------------------------------------------------------------
  // Decimal rendering, as a template literal prints a non-negative integer.

  function DigitChar(d: nat): (c: char)
    requires d < 10
    ensures IsDigit(c) && c as int - '0' as int == d
  {
    ('0' as int + d) as char
  }

  predicate AllDigits(s: string) {
    forall i :: 0 <= i < |s| ==> IsDigit(s[i])
  }

  /** The decimal digits of n, most significant first, without leading zeros. */
  function NatToString(n: nat): (s: string)
    ensures s != [] && AllDigits(s)
    ensures (s == "0") <==> (n == 0)
    ensures s[0] == '0' ==> s == "0"
  {
    if n < 10 then [DigitChar(n)] else NatToString(n / 10) + [DigitChar(n % 10)]
  }

  /** The number a string of decimal digits denotes. */
  function DigitsValue(s: string): nat
    requires AllDigits(s)
  {
    if s == [] then 0 else DigitsValue(s[..|s| - 1]) * 10 + (s[|s| - 1] as int - '0' as int)
  }

  /** Reading back the rendered digits gives the number. */
  lemma {:induction false} DigitsValueOfNatToString(n: nat)
    ensures DigitsValue(NatToString(n)) == n
  {
    if n >= 10 {
      DigitsValueOfNatToString(n / 10);
      var s := NatToString(n);
      assert s[..|s| - 1] == NatToString(n / 10);
    }
  }

  /** An identifier made of some text, a dash and a number: the text and the number can be read back. */
  lemma DashedNumberParts(prefix: string, n: nat)
    ensures var id := prefix + "-" + NatToString(n);
      && |id| > |prefix| + 1 && id[..|prefix|] == prefix && id[|prefix|] == '-'
      && AllDigits(id[|prefix| + 1..]) && DigitsValue(id[|prefix| + 1..]) == n
  {
    var id := prefix + "-" + NatToString(n);
    assert id[|prefix| + 1..] == NatToString(n);
    DigitsValueOfNatToString(n);
  }

  // ---------------------------------------------------------------------------
  // Lines of text.

  predicate NoLineBreak(s: string) { '\n' !in s }

  /** Text put together from two pieces has a line break exactly when one of the pieces has. */
  lemma NoLineBreakConcat(a: string, b: string)
    ensures NoLineBreak(a + b) <==> NoLineBreak(a) && NoLineBreak(b)
  {
    if '\n' in a + b {
      var i :| 0 <= i < |a + b| && (a + b)[i] == '\n';
      if i >= |a| {
        assert b[i - |a|] == '\n';
      }
    }
  }

  predicate NoLineBreaks(lines: seq<string>) {
    forall i :: 0 <= i < |lines| ==> NoLineBreak(lines[i])
  }

  /** Eight lines are free of line breaks exactly when each of them is. */
  lemma NoLineBreaksOfEight(a: string, b: string, c: string, d: string, e: string, f: string, g: string, h: string)
    ensures NoLineBreaks([a, b, c, d, e, f, g, h]) <==>
      && NoLineBreak(a) && NoLineBreak(b) && NoLineBreak(c) && NoLineBreak(d)
      && NoLineBreak(e) && NoLineBreak(f) && NoLineBreak(g) && NoLineBreak(h)
  {
    var lines := [a, b, c, d, e, f, g, h];
    assert lines[0] == a && lines[1] == b && lines[2] == c && lines[3] == d;
    assert lines[4] == e && lines[5] == f && lines[6] == g && lines[7] == h;
  }

  /** The lines written one after another with a line break between neighbours,
      as a multi-line template literal lays them out. */
  function Join(lines: seq<string>): string
  {
    if |lines| == 0 then ""
    else if |lines| == 1 then lines[0]
    else lines[0] + "\n" + Join(lines[1..])
  }

  /** `s.split("\n")`: the pieces between line breaks; never empty. */
  function Split(s: string): (r: seq<string>)
    ensures |r| >= 1
  {
    if s == [] then [""]
    else
      var rest := Split(s[1..]);
      if s[0] == '\n' then [""] + rest else [[s[0]] + rest[0]] + rest[1..]
  }

  predicate EndsWith(s: string, suffix: string) {
    |suffix| <= |s| && s[|s| - |suffix|..] == suffix
  }

  predicate StartsWith(s: string, prefix: string) {
    |prefix| <= |s| && s[..|prefix|] == prefix
  }

  /** Text without a line break at the front of s becomes part of the first piece. */
  lemma {:induction false} SplitPrefix(a: string, t: string)
    requires NoLineBreak(a)
    ensures Split(a + t) == [a + Split(t)[0]] + Split(t)[1..]
  {
    if a == [] {
      assert a + t == t;
      assert a + Split(t)[0] == Split(t)[0];
      assert Split(t) == [Split(t)[0]] + Split(t)[1..];
    } else {
      assert a[0] != '\n' && NoLineBreak(a[1..]) by { assert a[0] in a; }
      SplitPrefix(a[1..], t);
      var rest, r := Split(t), Split(a[1..] + t);
      assert r[0] == a[1..] + rest[0] && r[1..] == rest[1..];
      assert (a + t)[0] == a[0] && (a + t)[1..] == a[1..] + t;
      assert [a[0]] + (a[1..] + rest[0]) == a + rest[0];
    }
  }

  /** A leading line break closes an empty first piece. */
  lemma SplitAfterBreak(u: string)
    ensures Split("\n" + u) == [""] + Split(u)
  {
    assert ("\n" + u)[1..] == u;
  }

  /** Splitting joined lines gives the lines back, when none holds a line break. */
  lemma {:induction false} SplitJoin(lines: seq<string>)
    requires |lines| >= 1 && NoLineBreaks(lines)
    ensures Split(Join(lines)) == lines
  {
    var a := lines[0];
    if |lines| == 1 {
      SplitPrefix(a, "");
      assert a + "" == a;
    } else {
      var rest := lines[1..];
      SplitJoin(rest);
      SplitAfterBreak(Join(rest));
      SplitPrefix(a, "\n" + Join(rest));
      assert a + "\n" + Join(rest) == a + ("\n" + Join(rest));
      assert a + "" == a;
      assert lines == [a] + rest;
    }
  }

  /** Joined lines end with the last line, after a line break when there are several. */
  lemma {:induction false} JoinEndsWithLast(lines: seq<string>)
    requires |lines| >= 2
    ensures EndsWith(Join(lines), "\n" + lines[|lines| - 1])
  {
    if |lines| > 2 {
      JoinEndsWithLast(lines[1..]);
    }
  }

  /** Joined lines start with the first line followed by a line break, when there are several. */
  lemma JoinStartsWithFirst(lines: seq<string>)
    requires |lines| >= 2
    ensures StartsWith(Join(lines), lines[0] + "\n")
  {
  }
}
