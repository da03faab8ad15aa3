/**
 * The Python string operations the model relies on: `str.strip`, `str.startswith`,
 * the first field after a separator of `str.split`, ASCII `str.lower`, `", ".join`,
 * and the decimal renderings used by f-strings (`{n}` for integers, `{x:.2f}` for reals).
 */
module Text {

  /** Python's `str.isspace` for one code point (bidi classes WS, B, S and category Zs). */
  predicate IsSpace(c: char) {
    || c == ' ' || c == '\t' || c == '\n' || c == '\r' || c == '\U{0B}' || c == '\U{0C}'
    || ('\U{1C}' <= c <= '\U{1F}') || c == '\U{85}' || c == '\U{A0}' || c == '\U{1680}'
    || ('\U{2000}' <= c <= '\U{200A}') || c == '\U{2028}' || c == '\U{2029}'
    || c == '\U{202F}' || c == '\U{205F}' || c == '\U{3000}'
  }

  /** `s.lstrip()`: drops the leading white space and nothing else. */
  function TrimStart(s: string): (r: string)
    ensures |r| <= |s| && r == s[|s| - |r|..]
    ensures r == [] || !IsSpace(r[0])
    ensures forall i :: 0 <= i < |s| - |r| ==> IsSpace(s[i])
  {
    if |s| > 0 && IsSpace(s[0]) then TrimStart(s[1..]) else s
  }

  /** `s.rstrip()`: drops the trailing white space and nothing else. */
  function TrimEnd(s: string): (r: string)
    ensures |r| <= |s| && r == s[..|r|]
    ensures r == [] || !IsSpace(r[|r| - 1])
    ensures forall i :: |r| <= i < |s| ==> IsSpace(s[i])
  {
    if |s| > 0 && IsSpace(s[|s| - 1]) then TrimEnd(s[..|s| - 1]) else s
  }

  /** Neither end of `s` is white space. */
  predicate Trimmed(s: string) {
    s == [] || (!IsSpace(s[0]) && !IsSpace(s[|s| - 1]))
  }

  /** `s.strip()`: the slice of `s` left once white space is cut from both ends. */
  function Strip(s: string): (r: string)
    ensures exists i :: 0 <= i <= |s| - |r| && r == s[i..][..|r|]
    ensures Trimmed(r)
  {
    var t := TrimStart(s);
    var r := TrimEnd(t);
    var k := |s| - |t|;
    assert t == s[k..];
    assert r == t[..|r|];
    assert 0 <= k <= |s| - |r| && r == s[k..][..|r|];
    r
  }

  /** Stripping twice cuts nothing more. */
  lemma {:induction false} StripIdempotent(s: string)
    ensures Strip(Strip(s)) == Strip(s)
  {
    var r := Strip(s);
    if r != [] {
      assert TrimStart(r) == r;
      assert TrimEnd(r) == r;
    }
  }

  predicate StartsWith(s: string, prefix: string) {
    |prefix| <= |s| && s[..|prefix|] == prefix
  }

  /** True when `pattern` occurs in `s` at position `i`. */
  predicate OccursAt(s: string, i: int, pattern: string) {
    0 <= i && i + |pattern| <= |s| && s[i..i + |pattern|] == pattern
  }

  /**
   * The text of `s` before the first occurrence of `sep`, or all of `s` when `sep`
   * does not occur: the first field of `s.split(sep)`.
   */
  function Before(s: string, sep: string): (r: string)
    requires |sep| > 0
    ensures |r| <= |s| && r == s[..|r|]
    ensures forall i :: 0 <= i < |r| ==> !OccursAt(s, i, sep)
    ensures |r| == |s| || OccursAt(s, |r|, sep)
  {
    if |s| < |sep| then
      s
    else if s[..|sep|] == sep then
      []
    else
      var rest := Before(s[1..], sep);
      OccursShift(s, sep);
      [s[0]] + rest
  }

  /** When the first occurrence of `sep` is at `p`, the text before it is `s[..p]`. */
  lemma BeforeFirst(s: string, sep: string, p: int)
    requires |sep| > 0 && OccursAt(s, p, sep)
    requires forall i :: 0 <= i < p ==> !OccursAt(s, i, sep)
    ensures Before(s, sep) == s[..p]
  {
  }

  /** A pattern cannot occur where its first character does not. */
  lemma NoOccurrenceBefore(s: string, sep: string, p: int)
    requires |sep| > 0 && p <= |s| && forall i :: 0 <= i < p ==> s[i] != sep[0]
    ensures forall i :: 0 <= i < p ==> !OccursAt(s, i, sep)
  {
    forall i | 0 <= i < p
      ensures !OccursAt(s, i, sep)
    {
      if i + |sep| <= |s| {
        assert s[i..i + |sep|][0] == s[i];
      }
    }
  }

  /** An occurrence in the tail `s[1..]` is an occurrence in `s` one position later. */
  lemma OccursShift(s: string, sep: string)
    requires |s| > 0
    ensures forall i :: 1 <= i < |s| ==> (OccursAt(s, i, sep) <==> OccursAt(s[1..], i - 1, sep))
  {
    forall i | 1 <= i < |s|
      ensures OccursAt(s, i, sep) <==> OccursAt(s[1..], i - 1, sep)
    {
      if i + |sep| <= |s| {
        assert s[1..][i - 1..i - 1 + |sep|] == s[i..i + |sep|];
      }
    }
  }

  /** An occurrence inside a slice `t` of `s` taken at offset `off` is an occurrence in `s`. */
  lemma OccursInPiece(s: string, off: int, t: string, pattern: string)
    requires 0 <= off <= |s| - |t| && t == s[off..][..|t|]
    ensures forall i :: OccursAt(t, i, pattern) ==> OccursAt(s, off + i, pattern)
  {
    forall i | OccursAt(t, i, pattern)
      ensures OccursAt(s, off + i, pattern)
    {
      assert t[i..i + |pattern|] == s[off + i..off + i + |pattern|];
    }
  }

  /** ASCII `str.lower`: upper-case Latin letters become lower case, every other code point stays. */
  function Lower(s: string): (r: string)
    ensures |r| == |s|
    ensures forall i :: 0 <= i < |s| ==> r[i] == (if 'A' <= s[i] <= 'Z' then (s[i] as int + 32) as char else s[i])
  {
    if s == [] then [] else
      var c := s[0];
      [if 'A' <= c <= 'Z' then (c as int + 32) as char else c] + Lower(s[1..])
  }

  /** `sep.join(parts)`. */
  function Join(parts: seq<string>, sep: string): (r: string)
    ensures |parts| == 1 ==> r == parts[0]
  {
    if |parts| == 0 then ""
    else if |parts| == 1 then parts[0]
    else parts[0] + sep + Join(parts[1..], sep)
  }

  function Digit(d: int): char
    requires 0 <= d < 10
  {
    "0123456789"[d]
  }

  /** The decimal numeral of a natural number, as `str(n)` prints it. */
  function NatToString(n: nat): (r: string)
    ensures |r| > 0
    ensures forall i :: 0 <= i < |r| ==> '0' <= r[i] <= '9'
  {
    if n < 10 then [Digit(n)] else NatToString(n / 10) + [Digit(n % 10)]
  }

  /** `str(i)` for an integer: a minus sign for negative numbers, then the digits. */
  function IntToString(i: int): string {
    if i < 0 then "-" + NatToString(-i) else NatToString(i)
  }

  /** Rounds a non-negative real to the nearest integer, ties to the even one. */
  function RoundHalfEven(y: real): (n: nat)
    requires y >= 0.0
    ensures (n as real) - 0.5 <= y <= (n as real) + 0.5
  {
    var f := y.Floor;
    var frac := y - f as real;
    if frac < 0.5 then f
    else if frac > 0.5 then f + 1
    else if f % 2 == 0 then f else f + 1
  }

  /**
   * `f"{x:.2f}"` on the exact value `x`: a minus sign when `x` is negative (so a small
   * negative number prints as "-0.00", as in Python), then the magnitude rounded to
   * hundredths with ties to even, with two digits after the point.
   */
  function Fixed2(x: real): string {
    var cents := RoundHalfEven(if x < 0.0 then -x * 100.0 else x * 100.0);
    var frac := cents % 100;
    (if x < 0.0 then "-" else "") + NatToString(cents / 100) + "."
      + [Digit(frac / 10), Digit(frac % 10)]
  }
}
