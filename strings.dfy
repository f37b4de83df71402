/**
 * The .NET string primitives the repository status code relies on:
 * string.IsNullOrWhiteSpace, string.Trim, string.TrimEnd(params char[])
 * and the decimal rendering of a count inside an interpolated string.
 */
module Strings {

  /** The characters Char.IsWhiteSpace accepts: U+0009..U+000D, U+0085 and the
      Unicode space, line and paragraph separators. */
  const WhiteSpace: set<char> := {
    '\t', '\n', '\U{000B}', '\U{000C}', '\r', ' ', '\U{0085}', '\U{00A0}', '\U{1680}',
    '\U{2000}', '\U{2001}', '\U{2002}', '\U{2003}', '\U{2004}', '\U{2005}', '\U{2006}',
    '\U{2007}', '\U{2008}', '\U{2009}', '\U{200A}', '\U{2028}', '\U{2029}', '\U{202F}',
    '\U{205F}', '\U{3000}'
  }

  /** string.IsNullOrWhiteSpace on a non-null string: empty or whitespace only. */
  predicate IsBlank(s: string) {
    forall i :: 0 <= i < |s| ==> s[i] in WhiteSpace
  }

  /** Removes the leading characters that belong to `cs`. */
  function TrimStart(s: string, cs: set<char>): string {
    if s != [] && s[0] in cs then TrimStart(s[1..], cs) else s
  }

  /** TrimStart drops a run of characters of `cs` from the front and stops at one outside it. */
  lemma {:induction false} TrimStartSpec(s: string, cs: set<char>)
    ensures var r := TrimStart(s, cs);
      && |r| <= |s| && r == s[|s| - |r|..]
      && (r == [] || r[0] !in cs)
      && (forall i :: 0 <= i < |s| - |r| ==> s[i] in cs)
  {
    if s != [] && s[0] in cs {
      TrimStartSpec(s[1..], cs);
      var r := TrimStart(s, cs);
      forall i | 0 <= i < |s| - |r| ensures s[i] in cs {
        if i > 0 { assert s[i] == s[1..][i - 1]; }
      }
    }
  }

  /** Removes the trailing characters that belong to `cs` (string.TrimEnd). */
  function TrimEnd(s: string, cs: set<char>): string {
    if s != [] && s[|s| - 1] in cs then TrimEnd(s[..|s| - 1], cs) else s
  }

  /** TrimEnd drops a run of characters of `cs` from the back and stops at one outside it. */
  lemma {:induction false} TrimEndSpec(s: string, cs: set<char>)
    ensures var r := TrimEnd(s, cs);
      && |r| <= |s| && r == s[..|r|]
      && (r == [] || r[|r| - 1] !in cs)
      && (forall i :: |r| <= i < |s| ==> s[i] in cs)
  {
    if s != [] && s[|s| - 1] in cs {
      TrimEndSpec(s[..|s| - 1], cs);
    }
  }

  /** string.Trim(): removes leading and trailing whitespace. */
  function Trim(s: string): string {
    TrimEnd(TrimStart(s, WhiteSpace), WhiteSpace)
  }

  /** Trim leaves nothing exactly for a blank string, and otherwise a string that neither
      starts nor ends with whitespace and is no longer than the input. */
  lemma TrimSpec(s: string)
    ensures var r := Trim(s);
      && |r| <= |s|
      && (r == [] <==> IsBlank(s))
      && (r != [] ==> r[0] !in WhiteSpace && r[|r| - 1] !in WhiteSpace)
  {
    var front := TrimStart(s, WhiteSpace);
    TrimStartSpec(s, WhiteSpace);
    TrimEndSpec(front, WhiteSpace);
    var r := TrimEnd(front, WhiteSpace);
    if r == [] {
      assert front == [];
    } else {
      assert r[0] == front[0];
    }
  }

  /** Trimming a trimmed string changes nothing. */
  lemma TrimIdempotent(s: string)
    ensures Trim(Trim(s)) == Trim(s)
  {
    var t := Trim(s);
    TrimSpec(s);
    if t != [] {
      assert TrimStart(t, WhiteSpace) == t;
      assert TrimEnd(t, WhiteSpace) == t;
    }
  }

  /** A trimmed string is blank only when it is empty. */
  lemma TrimmedBlankIsEmpty(s: string)
    ensures IsBlank(Trim(s)) <==> Trim(s) == []
  {
    var t := Trim(s);
    TrimSpec(s);
    if t != [] {
      assert t[0] !in WhiteSpace;
    }
  }

  /** Trimming the end of `s + tail`, when every character of `tail` is trimmed, trims `s`. */
  lemma {:induction false} TrimEndIgnoresTrimmedTail(s: string, tail: string, cs: set<char>)
    requires forall i :: 0 <= i < |tail| ==> tail[i] in cs
    ensures TrimEnd(s + tail, cs) == TrimEnd(s, cs)
    decreases |tail|
  {
    if tail == [] {
      assert s + tail == s;
    } else {
      var shorter := tail[..|tail| - 1];
      assert tail[|tail| - 1] in cs;
      var whole := s + tail;
      assert whole[..|whole| - 1] == s + shorter;
      assert TrimEnd(whole, cs) == TrimEnd(s + shorter, cs);
      TrimEndIgnoresTrimmedTail(s, shorter, cs);
    }
  }

  /** A string that starts with a non-blank prefix is not blank. */
  lemma NonBlankPrefix(s: string, t: string)
    requires !IsBlank(s)
    ensures !IsBlank(s + t)
  {
    var i :| 0 <= i < |s| && s[i] !in WhiteSpace;
    assert (s + t)[i] == s[i];
  }

  function DigitChar(d: nat): (c: char)
    requires d < 10
    ensures '0' <= c <= '9'
  {
    ('0' as int + d) as char
  }

  function DigitValue(c: char): nat
    requires '0' <= c <= '9'
  {
    c as int - '0' as int
  }

  predicate IsDigits(s: string) {
    forall i :: 0 <= i < |s| ==> '0' <= s[i] <= '9'
  }

  /** Int32.ToString() of a non-negative count: decimal digits, no leading zero. */
  function DecimalString(n: nat): (r: string)
    ensures |r| >= 1 && IsDigits(r)
    ensures r[0] == '0' <==> n == 0
  {
    if n < 10 then [DigitChar(n)] else DecimalString(n / 10) + [DigitChar(n % 10)]
  }

  /** The value of a string of decimal digits. */
  function DecimalValue(s: string): nat
    requires IsDigits(s)
  {
    if s == [] then 0 else 10 * DecimalValue(s[..|s| - 1]) + DigitValue(s[|s| - 1])
  }

  /** Reading back a rendered count gives the count. */
  lemma {:induction false} DecimalRoundTrip(n: nat)
    ensures DecimalValue(DecimalString(n)) == n
  {
    if n >= 10 {
      DecimalRoundTrip(n / 10);
      var r := DecimalString(n);
      assert r[..|r| - 1] == DecimalString(n / 10);
    }
  }
}
