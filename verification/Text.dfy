/** Text helpers shared by the diff and summary models: prefixes, lines, decimal numbers. */
module Text {
  import opened Records

  predicate StartsWith(s: string, prefix: string) {
    |prefix| <= |s| && s[..|prefix|] == prefix
  }

  function Concat(parts: seq<string>): string {
    if parts == [] then "" else parts[0] + Concat(parts[1..])
  }

  lemma {:induction false} ConcatAppend(a: seq<string>, b: seq<string>)
    ensures Concat(a + b) == Concat(a) + Concat(b)
  {
    if a == [] {
      assert a + b == b;
    } else {
      assert (a + b)[1..] == a[1..] + b;
      ConcatAppend(a[1..], b);
    }
  }

  // ----- lines -----------------------------------------------------------------------------

  /** A line with its newline, which is its only one. */
  predicate FullLine(line: string) {
    |line| > 0 && line[|line| - 1] == '\n' && forall i :: 0 <= i < |line| - 1 ==> line[i] != '\n'
  }

  predicate FullLines(lines: seq<string>) {
    forall i :: 0 <= i < |lines| ==> FullLine(lines[i])
  }

  function LineLength(text: string): (n: nat)
    requires |text| > 0 && text[|text| - 1] == '\n'
    ensures 0 < n <= |text| && FullLine(text[..n])
  {
    if text[0] == '\n' then 1
    else
      var n := LineLength(text[1..]);
      assert text[..n + 1] == [text[0]] + text[1..][..n];
      n + 1
  }

  /** Splits text that ends in a newline at its newlines only. */
  function Lines(text: string): (r: seq<string>)
    requires text == "" || text[|text| - 1] == '\n'
    ensures FullLines(r)
    decreases |text|
  {
    if text == "" then [] else [text[..LineLength(text)]] + Lines(text[LineLength(text)..])
  }

  lemma {:induction false} LinesJoin(text: string)
    requires text == "" || text[|text| - 1] == '\n'
    ensures Concat(Lines(text)) == text
    decreases |text|
  {
    if text != "" {
      LinesJoin(text[LineLength(text)..]);
      assert Lines(text)[1..] == Lines(text[LineLength(text)..]);
    }
  }

  lemma {:induction false} LineLengthOf(line: string, rest: string)
    requires FullLine(line) && (rest == "" || rest[|rest| - 1] == '\n')
    ensures LineLength(line + rest) == |line|
    decreases |line|
  {
    if |line| > 1 {
      assert (line + rest)[1..] == line[1..] + rest;
      LineLengthOf(line[1..], rest);
    }
  }

  /** Joining full lines and splitting the text gives the lines back. */
  lemma {:induction false} JoinLines(lines: seq<string>)
    requires FullLines(lines)
    ensures Concat(lines) == "" || Concat(lines)[|Concat(lines)| - 1] == '\n'
    ensures Lines(Concat(lines)) == lines
  {
    if lines != [] {
      JoinLines(lines[1..]);
      var rest := Concat(lines[1..]);
      LineLengthOf(lines[0], rest);
      assert (lines[0] + rest)[..|lines[0]|] == lines[0] && (lines[0] + rest)[|lines[0]|..] == rest;
    }
  }

  // ----- decimal numbers -------------------------------------------------------------------

  /** The zeros of the other decimal digits of Unicode 14; each is followed by its nine digits. */
  const ZEROS := [
     0x660, 0x6f0, 0x7c0, 0x966, 0x9e6, 0xa66, 0xae6, 0xb66, 0xbe6, 0xc66, 0xce6, 0xd66, 0xde6,
     0xe50, 0xed0, 0xf20, 0x1040, 0x1090, 0x17e0, 0x1810, 0x1946, 0x19d0, 0x1a80, 0x1a90, 0x1b50, 0x1bb0,
     0x1c40, 0x1c50, 0xa620, 0xa8d0, 0xa900, 0xa9d0, 0xa9f0, 0xaa50, 0xabf0, 0xff10, 0x104a0, 0x10d30, 0x11066,
     0x110f0, 0x11136, 0x111d0, 0x112f0, 0x11450, 0x114d0, 0x11650, 0x116c0, 0x11730, 0x118e0, 0x11950, 0x11c50,
     0x11d50,
     0x11da0, 0x16a60, 0x16ac0, 0x16b50, 0x1d7ce, 0x1d7d8, 0x1d7e2, 0x1d7ec, 0x1d7f6, 0x1e140, 0x1e2f0, 0x1e950,
     0x1fbf0]

  /** The zero whose ten digits hold this code point, or the code point itself. */
  function ZeroOf(n: int, zeros: seq<int>): (z: int)
    ensures z <= n
  {
    if zeros == [] then n else if zeros[0] <= n <= zeros[0] + 9 then zeros[0] else ZeroOf(n, zeros[1..])
  }

  predicate OtherDigit(n: int) {
    n >= 0x660 && exists i :: 0 <= i < |ZEROS| && ZEROS[i] <= n <= ZEROS[i] + 9
  }

  /** What a decimal digit pattern matches. */
  predicate IsDigit(c: char) { '0' <= c <= '9' || OtherDigit(c as int) }

  function DigitValue(c: char): nat {
    if '0' <= c <= '9' then c as int - '0' as int else c as int - ZeroOf(c as int, ZEROS)
  }

  function Digit(d: nat): (c: char)
    requires d < 10
    ensures IsDigit(c) && DigitValue(c) == d
  {
    '0' + d as char
  }

  function Decimal(n: nat): (s: string)
    ensures |s| > 0 && forall c :: c in s ==> IsDigit(c)
  {
    if n < 10 then [Digit(n)] else Decimal(n / 10) + [Digit(n % 10)]
  }

  function Numeral(s: string): nat
    requires forall i :: 0 <= i < |s| ==> IsDigit(s[i])
  {
    if s == "" then 0 else 10 * Numeral(s[..|s| - 1]) + DigitValue(s[|s| - 1])
  }

  lemma {:induction false} NumeralOfDecimal(n: nat)
    ensures Numeral(Decimal(n)) == n
  {
    if n >= 10 {
      NumeralOfDecimal(n / 10);
      assert Decimal(n)[..|Decimal(n)| - 1] == Decimal(n / 10);
    } else {
      assert Decimal(n)[..0] == "";
    }
  }

  function DigitRun(s: string): (n: nat)
    ensures n <= |s| && forall i :: 0 <= i < n ==> IsDigit(s[i])
  {
    if s == "" || !IsDigit(s[0]) then 0 else 1 + DigitRun(s[1..])
  }

  lemma {:induction false} DigitRunOf(digits: string, rest: string)
    requires (forall i :: 0 <= i < |digits| ==> IsDigit(digits[i])) && (rest == "" || !IsDigit(rest[0]))
    ensures DigitRun(digits + rest) == |digits|
  {
    if digits == "" {
      assert digits + rest == rest;
    } else {
      assert (digits + rest)[1..] == digits[1..] + rest;
      DigitRunOf(digits[1..], rest);
    }
  }

  function Expect(s: string, literal: string): (r: Option<string>) {
    if StartsWith(s, literal) then Some(s[|literal|..]) else None
  }

  lemma ExpectLiteral(literal: string, rest: string)
    ensures Expect(literal + rest, literal) == Some(rest)
  {
    assert (literal + rest)[..|literal|] == literal;
    assert (literal + rest)[|literal|..] == rest;
  }

  function ReadNumber(s: string): Option<(nat, string)> {
    var n := DigitRun(s);
    if n == 0 then None else Some((Numeral(s[..n]), s[n..]))
  }

  lemma ReadDecimal(n: nat, rest: string)
    requires rest == "" || !IsDigit(rest[0])
    ensures ReadNumber(Decimal(n) + rest) == Some((n, rest))
  {
    DigitRunOf(Decimal(n), rest);
    NumeralOfDecimal(n);
    assert (Decimal(n) + rest)[..|Decimal(n)|] == Decimal(n);
    assert (Decimal(n) + rest)[|Decimal(n)|..] == rest;
  }

  /** A sequence that continues with `a` and then `b` from `i`. */
  lemma Continues(lines: seq<string>, i: nat, a: seq<string>, b: seq<string>)
    requires i <= |lines| && lines[i..] == a + b
    ensures i + |a| <= |lines| && lines[i + |a|..] == b && lines[i..i + |a|] == a
    ensures |a| > 0 ==> lines[i] == a[0]
    ensures |a| > 1 ==> lines[i + 1] == a[1]
    ensures a == [] && b != [] ==> i < |lines| && lines[i] == b[0]
    ensures a == [] && b == [] ==> i == |lines|
  {
    assert lines[i + |a|..] == lines[i..][|a|..];
    assert lines[i..i + |a|] == lines[i..][..|a|];
    if |a| > 0 { assert lines[i] == lines[i..][0]; }
    if |a| > 1 { assert lines[i + 1] == lines[i..][1]; }
    if a == [] && b != [] { assert lines[i] == lines[i..][0]; }
  }

  lemma FullLinesJoin(a: seq<string>, b: seq<string>)
    requires FullLines(a) && FullLines(b)
    ensures FullLines(a + b)
  {
    hide FullLine;
  }

  predicate NoBreak(s: string) {
    forall i :: 0 <= i < |s| ==> s[i] != '\n'
  }

  lemma LineOf(s: string)
    requires NoBreak(s)
    ensures FullLine(s + "\n")
  {
  }

  lemma NoBreakJoin(a: string, b: string)
    requires NoBreak(a) && NoBreak(b)
    ensures NoBreak(a + b)
  {
  }
}
