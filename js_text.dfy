/**
 * Character classes and small string operations shared by the frontend
 * (JavaScript string semantics) and the backend (Python string semantics).
 * A string is a `seq<char>` of Unicode scalar values; its length agrees with
 * JavaScript's `.length` (UTF-16 code units) only for text in the Basic
 * Multilingual Plane.
 */
module JsText {

  datatype Option<+T> = None | Some(value: T)

  /** White space as JavaScript's `\s` and `String.prototype.trim` see it. */
  predicate IsSpace(c: char) {
    c == ' ' || c == '\t' || c == '\n' || c == '\r' || c == '\U{B}' || c == '\U{C}'
    || c == '\U{A0}' || c == '\U{1680}' || ('\U{2000}' <= c <= '\U{200A}')
    || c == '\U{2028}' || c == '\U{2029}' || c == '\U{202F}' || c == '\U{205F}'
    || c == '\U{3000}' || c == '\U{FEFF}'
  }

  /** White space as Python's `str.strip()` sees it. */
  predicate IsPySpace(c: char) {
    c == ' ' || ('\t' <= c <= '\r') || ('\U{1C}' <= c <= '\U{1F}') || c == '\U{85}'
    || c == '\U{A0}' || c == '\U{1680}' || ('\U{2000}' <= c <= '\U{200A}')
    || c == '\U{2028}' || c == '\U{2029}' || c == '\U{202F}' || c == '\U{205F}'
    || c == '\U{3000}'
  }

  /** The characters a JavaScript `.` refuses to match. */
  predicate IsLineTerminator(c: char) {
    c == '\n' || c == '\r' || c == '\U{2028}' || c == '\U{2029}'
  }

  predicate IsDigit(c: char) { '0' <= c <= '9' }

  predicate AllDigits(s: string) { forall i :: 0 <= i < |s| ==> IsDigit(s[i]) }

  predicate NoSpace(s: string) { forall i :: 0 <= i < |s| ==> !IsSpace(s[i]) }

  predicate AllSpace(s: string) { forall i :: 0 <= i < |s| ==> IsSpace(s[i]) }

  /** `s` occurs in `t` starting at index `i`. */
  predicate OccursAt(t: string, s: string, i: int) {
    0 <= i && i + |s| <= |t| && t[i..i + |s|] == s
  }

  /** JavaScript `t.includes(s)`, Python `s in t`. */
  predicate Contains(t: string, s: string) {
    exists i :: 0 <= i <= |t| - |s| && OccursAt(t, s, i)
  }

  predicate StartsWith(t: string, s: string) { |s| <= |t| && t[..|s|] == s }

  /** Drops leading characters satisfying `sp`. */
  function TrimStartBy(s: string, sp: char -> bool): (r: string)
    ensures |r| <= |s| && r == s[|s| - |r|..]
    ensures forall i :: 0 <= i < |s| - |r| ==> sp(s[i])
    ensures r == [] || !sp(r[0])
  {
    if s != [] && sp(s[0]) then TrimStartBy(s[1..], sp) else s
  }

  /** Drops trailing characters satisfying `sp`. */
  function TrimEndBy(s: string, sp: char -> bool): (r: string)
    ensures |r| <= |s| && r == s[..|r|]
    ensures forall i :: |r| <= i < |s| ==> sp(s[i])
    ensures r == [] || !sp(r[|r| - 1])
  {
    if s != [] && sp(s[|s| - 1]) then TrimEndBy(s[..|s| - 1], sp) else s
  }

  /** A string that does not start with white space has nothing to trim at its start. */
  lemma TrimStartOfNonSpace(s: string)
    requires s == [] || !IsSpace(s[0])
    ensures TrimStartBy(s, IsSpace) == s
  {
  }

  /** A string that neither starts nor ends with white space is its own trim. */
  lemma TrimOfUnpadded(s: string)
    requires s == [] || (!IsSpace(s[0]) && !IsSpace(s[|s| - 1]))
    ensures Trim(s) == s
  {
    TrimStartOfNonSpace(s);
  }

  /** JavaScript `s.trim()`. */
  function Trim(s: string): string {
    TrimEndBy(TrimStartBy(s, IsSpace), IsSpace)
  }

  /** Python `s.strip()`. */
  function PyStrip(s: string): string {
    TrimEndBy(TrimStartBy(s, IsPySpace), IsPySpace)
  }

  /** A trimmed string is the middle of its input, with only white space cut off. */
  lemma TrimIsInfix(s: string)
    ensures exists a, b :: 0 <= a <= b <= |s| && Trim(s) == s[a..b]
                           && AllSpace(s[..a]) && AllSpace(s[b..])
    ensures Trim(s) == [] || (!IsSpace(Trim(s)[0]) && !IsSpace(Trim(s)[|Trim(s)| - 1]))
  {
    var a, b := TrimBounds(s);
    var t := TrimStartBy(s, IsSpace);
    var r := TrimEndBy(t, IsSpace);
    if r != [] {
      assert r[0] == t[0];
    }
  }

  lemma TrimBounds(s: string) returns (a: nat, b: nat)
    ensures a <= b <= |s| && Trim(s) == s[a..b] && AllSpace(s[..a]) && AllSpace(s[b..])
  {
    var t := TrimStartBy(s, IsSpace);
    a := |s| - |t|;
    assert t == s[a..];
    PrefixAllSpace(s, a);
    var r := TrimEndBy(t, IsSpace);
    assert Trim(s) == r;
    assert r == t[..|r|];
    b := a + |r|;
    SuffixAllSpace(t, |r|);
    SliceOfSuffix(s, a, |r|);
    assert s[a..b] == r;
    assert s[b..] == t[|r|..];
  }

  lemma SliceOfSuffix(s: string, a: nat, k: nat)
    requires a + k <= |s|
    ensures s[a + k..] == s[a..][k..] && s[a..a + k] == s[a..][..k]
  {
  }

  lemma PrefixAllSpace(s: string, a: nat)
    requires a <= |s| && forall i :: 0 <= i < a ==> IsSpace(s[i])
    ensures AllSpace(s[..a])
  {
    forall i | 0 <= i < a ensures IsSpace(s[..a][i]) {
      assert s[..a][i] == s[i];
    }
  }

  lemma SuffixAllSpace(t: string, k: nat)
    requires k <= |t| && forall i :: k <= i < |t| ==> IsSpace(t[i])
    ensures AllSpace(t[k..])
  {
    forall i | 0 <= i < |t| - k ensures IsSpace(t[k..][i]) {
      assert t[k..][i] == t[k + i];
    }
  }

  /** Trimming gives the empty string exactly when the input is all white space. */
  lemma {:induction false} TrimEmptyIffAllSpace(s: string)
    ensures Trim(s) == [] <==> AllSpace(s)
  {
    var t := TrimStartBy(s, IsSpace);
    if !AllSpace(s) {
      var k :| 0 <= k < |s| && !IsSpace(s[k]);
      assert k >= |s| - |t|;
      assert t != [] && !IsSpace(t[0]);
    }
  }

  /** JavaScript `s.replace(/\s+/g, '')`: every white-space character removed. */
  function RemoveSpaces(s: string): (r: string)
    ensures NoSpace(r)
    ensures |r| <= |s|
    ensures NoSpace(s) ==> r == s
    ensures |s| == 1 ==> r == (if IsSpace(s[0]) then [] else s)
  {
    if s == [] then []
    else if IsSpace(s[0]) then RemoveSpaces(s[1..])
    else [s[0]] + RemoveSpaces(s[1..])
  }

  /**
   * Removal works piece by piece: with the one-character case above this fixes
   * the result as the non-space characters of `s`, in their order.
   */
  lemma {:induction false} RemoveSpacesAppend(a: string, b: string)
    ensures RemoveSpaces(a + b) == RemoveSpaces(a) + RemoveSpaces(b)
  {
    if a == [] {
      assert a + b == b;
    } else {
      var ab := a + b;
      assert ab[0] == a[0] && ab[1..] == a[1..] + b;
      RemoveSpacesAppend(a[1..], b);
      if IsSpace(a[0]) {
        assert RemoveSpaces(ab) == RemoveSpaces(a[1..]) + RemoveSpaces(b);
      } else {
        assert RemoveSpaces(ab) == [a[0]] + RemoveSpaces(a[1..]) + RemoveSpaces(b);
      }
    }
  }

  /** Removing white space twice removes nothing more. */
  lemma RemoveSpacesIdempotent(s: string)
    ensures RemoveSpaces(RemoveSpaces(s)) == RemoveSpaces(s)
  {
  }

  /** JavaScript `s.replace(/\D/g, "")`: only the digits, in order. */
  function KeepDigits(s: string): (r: string)
    ensures AllDigits(r) && |r| <= |s|
    ensures AllDigits(s) ==> r == s
    ensures |s| == 1 ==> r == (if IsDigit(s[0]) then s else [])
  {
    if s == [] then []
    else if IsDigit(s[0]) then [s[0]] + KeepDigits(s[1..])
    else KeepDigits(s[1..])
  }

  /** Digits are kept piece by piece, so the result is the digits of `s` in their order. */
  lemma {:induction false} KeepDigitsAppend(a: string, b: string)
    ensures KeepDigits(a + b) == KeepDigits(a) + KeepDigits(b)
  {
    if a == [] {
      assert a + b == b;
    } else {
      var ab := a + b;
      assert ab[0] == a[0] && ab[1..] == a[1..] + b;
      KeepDigitsAppend(a[1..], b);
      if IsDigit(a[0]) {
        assert KeepDigits(ab) == [a[0]] + KeepDigits(a[1..]) + KeepDigits(b);
      } else {
        assert KeepDigits(ab) == KeepDigits(a[1..]) + KeepDigits(b);
      }
    }
  }

  /** Concatenation of a list of strings with a separator (JavaScript `join`). */
  function Join(parts: seq<string>, sep: string): string {
    if parts == [] then ""
    else if |parts| == 1 then parts[0]
    else parts[0] + sep + Join(parts[1..], sep)
  }

  /** Concatenation of a list of strings (JavaScript `join("")`). */
  function Concat(parts: seq<string>): (r: string)
    ensures |parts| == 0 ==> r == ""
    ensures |parts| == 1 ==> r == parts[0]
  {
    if parts == [] then "" else parts[0] + Concat(parts[1..])
  }

  /** Joining two lists of pieces is joining each and putting the two texts side by side. */
  lemma {:induction false} ConcatAppend(a: seq<string>, b: seq<string>)
    ensures Concat(a + b) == Concat(a) + Concat(b)
  {
    if a == [] {
      assert a + b == b;
    } else {
      ConcatAppend(a[1..], b);
      assert (a + b)[1..] == a[1..] + b;
    }
  }

  /** The decimal digits of a natural number, most significant first (Python `str(n)`). */
  function DecimalString(n: nat): (r: string)
    ensures |r| >= 1 && AllDigits(r)
    ensures n < 10 <==> |r| == 1
    decreases n
  {
    if n < 10 then [('0' as int + n) as char]
    else DecimalString(n / 10) + [('0' as int + n % 10) as char]
  }

  /** The value of a string of decimal digits. */
  function DigitsValue(s: string): nat
    requires AllDigits(s)
  {
    if s == [] then 0
    else DigitsValue(s[..|s| - 1]) * 10 + (s[|s| - 1] as int - '0' as int)
  }

  /** Reading back the decimal digits of `n` gives `n`. */
  lemma {:induction false} DecimalRoundTrip(n: nat)
    ensures DigitsValue(DecimalString(n)) == n
  {
    if n >= 10 {
      DecimalRoundTrip(n / 10);
      var r := DecimalString(n);
      assert r[..|r| - 1] == DecimalString(n / 10);
    }
  }

  /** A number with d digits lies between 10^(d-1) and 10^d. */
  lemma {:induction false} DecimalLength(n: nat, d: nat)
    requires d >= 1 && Pow10(d - 1) <= n < Pow10(d)
    ensures |DecimalString(n)| == d
  {
    if d > 1 {
      assert n >= 10;
      DecimalLength(n / 10, d - 1);
    }
  }

  function Pow10(d: nat): nat { if d == 0 then 1 else 10 * Pow10(d - 1) }
}
