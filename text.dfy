/** The string operations the app applies to user input and data keys:
    `toUpperCase` (ASCII letters only), `substring(0, n)`, `split(c)[0]`,
    `trim` and "first letter upper-cased". */
module Text {

  predicate IsAsciiLower(c: char) {
    'a' <= c <= 'z'
  }

  /** `toUpperCase` on one character, restricted to the ASCII letters. */
  function UpperChar(c: char): (u: char)
    ensures IsAsciiLower(c) ==> u as int == c as int - 32 && 'A' <= u <= 'Z'
    ensures !IsAsciiLower(c) ==> u == c
    ensures !IsAsciiLower(u)
  {
    if IsAsciiLower(c) then (c as int - 32) as char else c
  }

  /** `s.toUpperCase()`, character by character. */
  function Upper(s: string): (r: string)
    ensures |r| == |s|
    ensures forall i :: 0 <= i < |s| ==> r[i] == UpperChar(s[i])
  {
    if s == [] then [] else [UpperChar(s[0])] + Upper(s[1..])
  }

  /** `s.substring(0, n)`: the first `n` characters, or all of them when fewer. */
  function Take(s: string, n: nat): (r: string)
    ensures |r| == if |s| < n then |s| else n
    ensures r <= s
  {
    if |s| < n then s else s[..n]
  }

  /** `s.split(sep)[0]`: the text before the first `sep`, or all of `s`. */
  function BeforeFirst(s: string, sep: char): (r: string)
    ensures r <= s
    ensures sep !in r
    ensures |r| < |s| ==> s[|r|] == sep
  {
    if s == [] then []
    else if s[0] == sep then []
    else [s[0]] + BeforeFirst(s[1..], sep)
  }

  /** The part before the first separator is exactly the separator-free prefix. */
  lemma {:induction false} BeforeFirstSplit(p: string, sep: char, q: string)
    requires sep !in p
    ensures BeforeFirst(p + [sep] + q, sep) == p
  {
    if p != [] {
      assert (p + [sep] + q)[1..] == p[1..] + [sep] + q;
      BeforeFirstSplit(p[1..], sep, q);
    }
  }

  /** The characters `String.prototype.trim` removes: the ECMAScript
      WhiteSpace and LineTerminator code points. */
  predicate IsWhitespace(c: char) {
    var n := c as int;
    n == 0x09 || n == 0x0A || n == 0x0B || n == 0x0C || n == 0x0D || n == 0x20
    || n == 0xA0 || n == 0x1680 || (0x2000 <= n <= 0x200A)
    || n == 0x2028 || n == 0x2029 || n == 0x202F || n == 0x205F
    || n == 0x3000 || n == 0xFEFF
  }

  predicate IsBlank(s: string) {
    forall i :: 0 <= i < |s| ==> IsWhitespace(s[i])
  }

  /** Drops the leading whitespace. */
  function TrimStart(s: string): (r: string)
    ensures |r| <= |s| && r == s[|s| - |r|..]
    ensures forall i :: 0 <= i < |s| - |r| ==> IsWhitespace(s[i])
    ensures r != [] ==> !IsWhitespace(r[0])
  {
    if s != [] && IsWhitespace(s[0]) then TrimStart(s[1..]) else s
  }

  /** Drops the trailing whitespace. */
  function TrimEnd(s: string): (r: string)
    ensures r <= s
    ensures forall i :: |r| <= i < |s| ==> IsWhitespace(s[i])
    ensures r != [] ==> !IsWhitespace(r[|r| - 1])
  {
    if s != [] && IsWhitespace(s[|s| - 1]) then TrimEnd(s[..|s| - 1]) else s
  }

  /** `s.trim()`: what is left after dropping whitespace at both ends. */
  function Trim(s: string): (r: string)
    ensures |r| <= |s|
    ensures r != [] ==> !IsWhitespace(r[0]) && !IsWhitespace(r[|r| - 1])
  {
    TrimEnd(TrimStart(s))
  }

  /** `trim` removes a blank prefix and a blank suffix and nothing else:
      the result is the run of `s` between them. */
  lemma TrimDropsOnlyBlankEnds(s: string)
    ensures var r := Trim(s);
            exists a :: 0 <= a <= |s| - |r| && IsBetweenBlankEnds(s, a, r)
  {
    var t := TrimStart(s);
    var r := TrimEnd(t);
    BetweenBlankEnds(s, t, r);
    assert Trim(s) == r;
  }

  /** `r` is the run of `s` starting at `a`, and everything outside it is
      whitespace. */
  predicate IsBetweenBlankEnds(s: string, a: int, r: string)
    requires 0 <= a <= |s| - |r|
  {
    && (forall i :: 0 <= i < |r| ==> r[i] == s[a + i])
    && (forall i :: 0 <= i < a ==> IsWhitespace(s[i]))
    && (forall i :: a + |r| <= i < |s| ==> IsWhitespace(s[i]))
  }

  /** `t` is `s` without a blank prefix, `r` is `t` without a blank suffix. */
  lemma BetweenBlankEnds(s: string, t: string, r: string)
    requires |t| <= |s| && t == s[|s| - |t|..]
    requires forall i :: 0 <= i < |s| - |t| ==> IsWhitespace(s[i])
    requires r <= t
    requires forall i :: |r| <= i < |t| ==> IsWhitespace(t[i])
    ensures |s| - |t| + |r| <= |s| && IsBetweenBlankEnds(s, |s| - |t|, r)
  {
    var a := |s| - |t|;
    forall i | a + |r| <= i < |s| ensures IsWhitespace(s[i]) {
      assert s[i] == t[i - a];
    }
  }

  /** `s.trim()` is falsy (empty) exactly when `s` is whitespace only. */
  lemma TrimEmptyIffBlank(s: string)
    ensures Trim(s) == [] <==> IsBlank(s)
  {
    var t := TrimStart(s);
    if t != [] {
      // the first kept character is a non-whitespace character of s,
      // and TrimEnd keeps at least that one
      assert t[0] == s[|s| - |t|];
    }
  }

  /** Evaluates `s.trim()` for truthiness, as an event handler does: the
      trimmed text is non-empty exactly when `s` is not all whitespace. */
  method HasText(s: string) returns (b: bool)
    ensures b <==> !IsBlank(s)
  {
    var trimmed := Trim(s);
    TrimEmptyIffBlank(s);
    b := trimmed != [];
  }

  /** `s.charAt(0).toUpperCase() + s.slice(1)`. */
  function Capitalize(s: string): (r: string)
    ensures |r| == |s|
    ensures s != [] ==> r[0] == UpperChar(s[0]) && r[1..] == s[1..]
  {
    if s == [] then [] else [UpperChar(s[0])] + s[1..]
  }

  /** Capitalising an already capitalised key changes nothing. */
  lemma CapitalizeIdempotent(s: string)
    ensures Capitalize(Capitalize(s)) == Capitalize(s)
  {
  }
}
