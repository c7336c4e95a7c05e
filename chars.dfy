/** Character classes the scanner tests (the ASCII part of Python's str.isspace,
    str.isalpha, str.isdigit and str.isalnum) and the prefix splitting its loops perform. */
module Chars {

  /** Whitespace as Python's str.isspace sees it in the ASCII range: the usual six
      layout characters and the four separators 0x1C..0x1F. */
  predicate IsSpace(c: char) {
    c == ' ' || c == '\t' || c == '\n' || c == '\r' || c == '\U{0B}' || c == '\U{0C}'
    || ('\U{1C}' <= c <= '\U{1F}')
  }

  predicate IsAlpha(c: char) {
    ('a' <= c <= 'z') || ('A' <= c <= 'Z')
  }

  predicate IsDigit(c: char) {
    '0' <= c <= '9'
  }

  predicate IsAlnum(c: char) {
    IsAlpha(c) || IsDigit(c)
  }

  function DigitValue(c: char): (d: nat)
    requires IsDigit(c)
    ensures d < 10
  {
    (c as int) - ('0' as int)
  }

  /** The length of the longest prefix of `s` whose characters all satisfy `p`: every
      character before it satisfies `p`, and the one at it (if any) does not. */
  function Span(p: char -> bool, s: seq<char>): (n: nat)
    ensures n <= |s|
    ensures forall i :: 0 <= i < n ==> p(s[i])
    ensures n < |s| ==> !p(s[n])
  {
    if s == [] || !p(s[0]) then 0 else 1 + Span(p, s[1..])
  }

  /** The longest prefix of `s` whose characters all satisfy `p`. */
  function TakeWhile(p: char -> bool, s: seq<char>): seq<char> {
    s[..Span(p, s)]
  }

  /** What is left of `s` once its longest `p`-prefix is removed. */
  function DropWhile(p: char -> bool, s: seq<char>): seq<char> {
    s[Span(p, s)..]
  }

  /** The value of a run of decimal digits, read left to right as n := 10 * n + d. */
  function DecimalValue(ds: seq<char>): (n: nat)
    requires forall i :: 0 <= i < |ds| ==> IsDigit(ds[i])
    ensures ds == [] ==> n == 0
  {
    if ds == [] then 0
    else 10 * DecimalValue(ds[..|ds| - 1]) + DigitValue(ds[|ds| - 1])
  }

  /** Reading one more digit of `s`: the value of the first k+1 characters is ten times
      that of the first k plus the new digit. */
  lemma DecimalStep(s: seq<char>, k: nat)
    requires k < |s| && forall i :: 0 <= i <= k ==> IsDigit(s[i])
    ensures DecimalValue(s[..k + 1]) == 10 * DecimalValue(s[..k]) + DigitValue(s[k])
  {
    assert s[..k + 1][..k] == s[..k];
  }

  /** A digit run denotes a value below 10^length: no digit is lost or added. */
  lemma {:induction false} DecimalValueBound(ds: seq<char>)
    requires forall i :: 0 <= i < |ds| ==> IsDigit(ds[i])
    ensures DecimalValue(ds) < Pow10(|ds|)
  {
    if ds != [] {
      DecimalValueBound(ds[..|ds| - 1]);
    }
  }

  function Pow10(k: nat): (r: nat)
    ensures r >= 1
  {
    if k == 0 then 1 else 10 * Pow10(k - 1)
  }

  /** One more character satisfying `p` moves from the remainder into the prefix. */
  lemma WhileStep(p: char -> bool, s: seq<char>)
    requires s != [] && p(s[0])
    ensures TakeWhile(p, s) == [s[0]] + TakeWhile(p, s[1..])
    ensures DropWhile(p, s) == DropWhile(p, s[1..])
  {
    var n := Span(p, s[1..]);
    assert Span(p, s) == 1 + n;
    assert s[..1 + n] == [s[0]] + s[1..][..n];
  }

  /** A stream that does not start with a `p`-character has an empty `p`-prefix. */
  lemma WhileStop(p: char -> bool, s: seq<char>)
    requires s == [] || !p(s[0])
    ensures TakeWhile(p, s) == [] && DropWhile(p, s) == s
  {
  }

  /** Any maximal `p`-prefix is the one TakeWhile finds, and DropWhile leaves the rest. */
  lemma TakeWhileUnique(p: char -> bool, s: seq<char>, t: seq<char>)
    requires |t| <= |s| && t == s[..|t|]
    requires forall i :: 0 <= i < |t| ==> p(t[i])
    requires |t| < |s| ==> !p(s[|t|])
    ensures Span(p, s) == |t|
    ensures TakeWhile(p, s) == t && DropWhile(p, s) == s[|t|..]
  {
    assert forall i :: 0 <= i < |t| ==> p(s[i]) by {
      forall i | 0 <= i < |t| ensures p(s[i]) { assert s[i] == t[i]; }
    }
  }
}
