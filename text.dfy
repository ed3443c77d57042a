/** Character classes and the few Python string and bytes operations the automation relies on:
    the `\s` and `\d` classes of `re`, `bytes.splitlines`, `bytes.rstrip` and `'%d' % n`. */
module Text {

  datatype Option<+T> = None | Some(value: T)

  /** What `\s` matches in a `str` pattern: the characters `str.isspace` accepts. */
  predicate IsSpace(c: char) {
    || c == ' '
    || '\t' <= c <= '\r'
    || '\U{1c}' <= c <= '\U{1f}'
    || c == '\U{85}' || c == '\U{a0}' || c == '\U{1680}'
    || '\U{2000}' <= c <= '\U{200a}'
    || c == '\U{2028}' || c == '\U{2029}' || c == '\U{202f}' || c == '\U{205f}' || c == '\U{3000}'
  }

  /** A decimal digit, as `\d` matches it and `int` reads it (ASCII digits only). */
  predicate IsDigit(c: char) {
    '0' <= c <= '9'
  }

  /** The bytes `bytes.rstrip()` removes: space, tab, newline, carriage return, vertical tab, form feed. */
  predicate IsAsciiSpace(c: char) {
    c == ' ' || '\t' <= c <= '\r'
  }

  /** The bytes at which `bytes.splitlines()` ends a line. */
  predicate IsBreak(c: char) {
    c == '\n' || c == '\r'
  }

  predicate AllDigits(s: string) {
    forall i :: 0 <= i < |s| ==> IsDigit(s[i])
  }

  predicate NoBreak(s: string) {
    forall i :: 0 <= i < |s| ==> !IsBreak(s[i])
  }

  /** Length of the first line of `s`: the index of its first line break, or `|s|` when it has none. */
  function LineLength(s: string): (n: nat)
    ensures n <= |s| && NoBreak(s[..n])
    ensures n < |s| ==> IsBreak(s[n])
  {
    if s == [] || IsBreak(s[0]) then 0
    else
      var n := 1 + LineLength(s[1..]);
      assert s[..n] == [s[0]] + s[1..][..n - 1];
      n
  }

  /** `bytes.splitlines()`: lines end at `\n`, `\r` or `\r\n`; the terminators are dropped and a
      terminator at the very end does not open an empty last line. */
  function SplitLines(s: string): (lines: seq<string>)
    ensures forall k :: 0 <= k < |lines| ==> NoBreak(lines[k])
    ensures s != [] <==> lines != []
    decreases |s|
  {
    if s == [] then []
    else
      var n := LineLength(s);
      if n == |s| then [s]
      else if s[n] == '\r' && n + 1 < |s| && s[n + 1] == '\n' then [s[..n]] + SplitLines(s[n + 2..])
      else [s[..n]] + SplitLines(s[n + 1..])
  }

  /** The text written by emitting each line followed by `\n`. */
  function Terminated(lines: seq<string>): (s: string)
  {
    if lines == [] then [] else lines[0] + "\n" + Terminated(lines[1..])
  }

  lemma {:induction false} TerminatedSnoc(lines: seq<string>, line: string)
    ensures Terminated(lines + [line]) == Terminated(lines) + line + "\n"
    decreases |lines|
  {
    if lines == [] {
      assert lines + [line] == [line];
    } else {
      assert (lines + [line])[1..] == lines[1..] + [line];
      TerminatedSnoc(lines[1..], line);
    }
  }

  lemma LineLengthOfTerminated(line: string, rest: string)
    requires NoBreak(line)
    ensures LineLength(line + "\n" + rest) == |line|
  {
    var s := line + "\n" + rest;
    assert forall i :: 0 <= i < |line| ==> s[i] == line[i];
    assert s[|line|] == '\n';
  }

  /** Splitting text whose lines were each written with a trailing `\n` gives those lines back. */
  lemma {:induction false} SplitTerminated(lines: seq<string>)
    requires forall k :: 0 <= k < |lines| ==> NoBreak(lines[k])
    ensures SplitLines(Terminated(lines)) == lines
    decreases |lines|
  {
    if lines != [] {
      var rest := Terminated(lines[1..]);
      var s := lines[0] + "\n" + rest;
      LineLengthOfTerminated(lines[0], rest);
      var n := |lines[0]|;
      assert s[n] == '\n';
      assert s[..n] == lines[0];
      assert s[n + 1..] == rest;
      SplitTerminated(lines[1..]);
    }
  }

  /** `bytes.rstrip()`: the longest prefix of `s` that does not end in ASCII white space. */
  function RStrip(s: string): (r: string)
    ensures r <= s
    ensures r == [] || !IsAsciiSpace(r[|r| - 1])
    ensures forall i :: |r| <= i < |s| ==> IsAsciiSpace(s[i])
    decreases |s|
  {
    if s != [] && IsAsciiSpace(s[|s| - 1]) then RStrip(s[..|s| - 1]) else s
  }

  /** Stripping twice is stripping once, and trailing white space never changes the result. */
  lemma RStripAbsorbsTrailingSpace(s: string, pad: string)
    requires forall i :: 0 <= i < |pad| ==> IsAsciiSpace(pad[i])
    ensures RStrip(s + pad) == RStrip(s)
    ensures RStrip(RStrip(s)) == RStrip(s)
  {
    var a, b := RStrip(s + pad), RStrip(s);
    assert b <= s + pad;
    assert forall i :: |s| <= i < |s + pad| ==> IsAsciiSpace((s + pad)[i]);
  }

  function DigitChar(d: nat): (c: char)
    requires d < 10
    ensures IsDigit(c)
  {
    ['0', '1', '2', '3', '4', '5', '6', '7', '8', '9'][d]
  }

  /** `'%d' % n` for a non-negative `n`. */
  function Decimal(n: nat): (s: string)
    ensures |s| >= 1 && AllDigits(s)
  {
    if n < 10 then [DigitChar(n)] else Decimal(n / 10) + [DigitChar(n % 10)]
  }

  /** The value of a decimal digit. */
  function DigitValue(c: char): (d: nat)
    ensures d < 10
  {
    if IsDigit(c) then (c - '0') as nat else 0
  }

  /** `int(s)` for a string of decimal digits. */
  function DecimalValue(s: string): nat
  {
    if s == [] then 0 else 10 * DecimalValue(s[..|s| - 1]) + DigitValue(s[|s| - 1])
  }

  /** `int(s[lo:hi])`, read in place without taking the slice. */
  function DigitsValue(s: string, lo: nat, hi: nat): nat
    requires lo <= hi <= |s|
    decreases hi
  {
    if hi == lo then 0 else 10 * DigitsValue(s, lo, hi - 1) + DigitValue(s[hi - 1])
  }

  lemma {:induction false} DigitsValueIsDecimal(s: string, lo: nat, hi: nat)
    requires lo <= hi <= |s|
    ensures DigitsValue(s, lo, hi) == DecimalValue(s[lo..hi])
    decreases hi
  {
    if hi > lo {
      DigitsValueIsDecimal(s, lo, hi - 1);
      assert s[lo..hi][..hi - lo - 1] == s[lo..hi - 1];
    }
  }

  /** Reading back what `%d` printed gives the number. */
  lemma {:induction false} DecimalRoundTrip(n: nat)
    ensures DecimalValue(Decimal(n)) == n
  {
    if n >= 10 {
      var s := Decimal(n);
      assert s[..|s| - 1] == Decimal(n / 10);
      DecimalRoundTrip(n / 10);
    }
  }

}
