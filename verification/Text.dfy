/** String operations the parsers share: stripping, searching, lines, decimal numbers. */
module Text {
  import opened Prelude

  // ----- Stripping -----

  function StripLeft(s: string, blanks: string): string {
    if s == [] || s[0] !in blanks then s else StripLeft(s[1..], blanks)
  }

  function StripRight(s: string, blanks: string): string {
    if s == [] || s[|s| - 1] !in blanks then s else StripRight(s[..|s| - 1], blanks)
  }

  predicate CleanLeft(s: string, blanks: string) {
    s == [] || s[0] !in blanks
  }

  predicate CleanRight(s: string, blanks: string) {
    s == [] || s[|s| - 1] !in blanks
  }

  predicate AllIn(s: string, chars: string) {
    forall i :: 0 <= i < |s| ==> s[i] in chars
  }

  lemma {:induction false} StripLeftPadding(pad: string, s: string, blanks: string)
    requires AllIn(pad, blanks) && CleanLeft(s, blanks)
    ensures StripLeft(pad + s, blanks) == s
  {
    if pad == [] {
      assert pad + s == s;
    } else {
      assert (pad + s)[1..] == pad[1..] + s;
      StripLeftPadding(pad[1..], s, blanks);
    }
  }

  lemma {:induction false} StripRightPadding(s: string, pad: string, blanks: string)
    requires AllIn(pad, blanks) && CleanRight(s, blanks)
    ensures StripRight(s + pad, blanks) == s
  {
    if pad == [] {
      assert s + pad == s;
    } else {
      assert (s + pad)[..|s + pad| - 1] == s + pad[..|pad| - 1];
      StripRightPadding(s, pad[..|pad| - 1], blanks);
    }
  }

  // ----- Searching -----

  /** The first position of `c`, or the length. */
  function IndexOf(s: string, c: char): (i: nat)
    ensures i <= |s| && (i < |s| ==> s[i] == c)
    ensures forall j :: 0 <= j < i ==> s[j] != c
  {
    if s == [] || s[0] == c then 0 else 1 + IndexOf(s[1..], c)
  }

  lemma {:induction false} IndexAfter(s: string, c: char, rest: string)
    requires c !in s
    ensures IndexOf(s + [c] + rest, c) == |s|
  {
    var whole := s + [c] + rest;
    assert whole[|s|] == c;
    assert forall i :: 0 <= i < |s| ==> whole[i] == s[i];
  }

  lemma {:induction false} NoIndex(s: string, c: char)
    requires c !in s
    ensures IndexOf(s, c) == |s|
  {
  }

  // ----- Lines -----

  /** getline: the text up to the next separator, which is consumed; fails at the end. */
  function NextLine(stream: string, separator: char): Option<(string, string)> {
    if stream == [] then None
    else
      var i := IndexOf(stream, separator);
      if i < |stream| then Some((stream[..i], stream[i + 1..])) else Some((stream, []))
  }

  lemma NextLineOf(line: string, separator: char, rest: string)
    requires separator !in line
    ensures NextLine(line + [separator] + rest, separator) == Some((line, rest))
  {
    IndexAfter(line, separator, rest);
    var whole := line + [separator] + rest;
    assert whole[..|line|] == line && whole[|line| + 1..] == rest;
  }

  // ----- Decimal numbers -----

  const DIGITS := "0123456789"

  /** The decimal digits of `n`, as operator<< and the configuration files write them. */
  function ToDecimal(n: nat): (s: string)
    ensures s != [] && AllIn(s, DIGITS)
  {
    if n < 10 then [DIGITS[n]] else ToDecimal(n / 10) + [DIGITS[n % 10]]
  }

  function DigitValue(c: char): nat {
    if '0' <= c <= '9' then (c - '0') as nat else 0
  }

  /** The number a string of digits denotes, as stoi reads it. */
  function FromDecimal(s: string): nat {
    if s == [] then 0 else 10 * FromDecimal(s[..|s| - 1]) + DigitValue(s[|s| - 1])
  }

  lemma DigitRoundTrip(d: nat)
    requires d < 10
    ensures DigitValue(DIGITS[d]) == d
  {
  }

  lemma {:induction false} DecimalRoundTrip(n: nat)
    ensures FromDecimal(ToDecimal(n)) == n
  {
    DigitRoundTrip(n % 10);
    if n < 10 {
      assert FromDecimal([DIGITS[n]]) == 10 * FromDecimal([DIGITS[n]][..0]) + DigitValue(DIGITS[n]);
    } else {
      DecimalRoundTrip(n / 10);
      assert ToDecimal(n)[..|ToDecimal(n)| - 1] == ToDecimal(n / 10);
    }
  }
}
