/**
 * The password rule shared by the signup and change-password forms, and the
 * shape of the issues a Zod schema reports.
 *
 * The rule is a `.min(8)` length check followed by a regular expression made
 * of four lookaheads anchored at the start of the string. Inside a lookahead
 * `.` does not cross a line terminator, so the character classes and the
 * eight-character run must all be found on the first line.
 */
module PasswordRule {
  import opened JsText

  /** One issue reported by a schema: the field path it is attached to and its message. */
  datatype Issue = Issue(path: string, message: string)

  /** The message shown under a field: the first issue reported on its path. */
  function FieldError(issues: seq<Issue>, path: string): (r: Option<string>)
    ensures r.None? <==> forall i :: 0 <= i < |issues| ==> issues[i].path != path
    ensures r.Some? ==> exists i :: 0 <= i < |issues| && issues[i] == Issue(path, r.value)
  {
    if issues == [] then None
    else if issues[0].path == path then Some(issues[0].message)
    else FieldError(issues[1..], path)
  }

  /** Issues on other paths do not change which message a field shows. */
  lemma {:induction false} FieldErrorSkips(xs: seq<Issue>, ys: seq<Issue>, path: string)
    requires forall x :: x in xs ==> x.path != path
    ensures FieldError(xs + ys, path) == FieldError(ys, path)
  {
    if xs != [] {
      var zs := xs + ys;
      assert zs != [] && zs[0] == xs[0] && xs[0] in xs;
      assert zs[1..] == xs[1..] + ys;
      FieldErrorSkips(xs[1..], ys, path);
    } else {
      assert xs + ys == ys;
    }
  }

  /** An issue first in the list is the one its path shows. */
  lemma FieldErrorOfFirst(issues: seq<Issue>, path: string)
    requires issues != [] && issues[0].path == path
    ensures FieldError(issues, path) == Some(issues[0].message)
  {
  }

  const TooShortMessage: string := "Password must be at least 8 characters long"
  const ClassesMessage: string :=
    "Password must contain at least one uppercase letter, one lowercase letter, one number and one special character"

  predicate IsLower(c: char) { 'a' <= c <= 'z' }
  predicate IsUpper(c: char) { 'A' <= c <= 'Z' }
  /** The class `[!@#$%^&*]`. */
  predicate IsSpecial(c: char) { c in "!@#$%^&*" }

  predicate HasLower(s: string) { exists i :: 0 <= i < |s| && IsLower(s[i]) }
  predicate HasUpper(s: string) { exists i :: 0 <= i < |s| && IsUpper(s[i]) }
  predicate HasDigit(s: string) { exists i :: 0 <= i < |s| && IsDigit(s[i]) }
  predicate HasSpecial(s: string) { exists i :: 0 <= i < |s| && IsSpecial(s[i]) }

  /** The text `.` can run over from the start: everything before the first line terminator. */
  function FirstLine(s: string): (r: string)
    ensures |r| <= |s| && r == s[..|r|]
    ensures forall i :: 0 <= i < |r| ==> !IsLineTerminator(r[i])
    ensures |r| < |s| ==> IsLineTerminator(s[|r|])
  {
    if s == [] || IsLineTerminator(s[0]) then []
    else [s[0]] + FirstLine(s[1..])
  }

  /** `passwordValidationRegex.test(s)` */
  predicate RegexMatches(s: string) {
    var line := FirstLine(s);
    HasLower(line) && HasUpper(line) && HasDigit(line) && HasSpecial(line) && |line| >= 8
  }

  /** The issues of `z.string().min(8, …).regex(passwordValidationRegex, …)` on `path`, in order. */
  function PasswordIssues(path: string, s: string): (r: seq<Issue>)
    ensures r == [] <==> RegexMatches(s)
    ensures |r| <= 2 && forall i :: 0 <= i < |r| ==> r[i].path == path
    ensures |s| < 8 ==> r != [] && r[0] == Issue(path, TooShortMessage)
  {
    (if |s| < 8 then [Issue(path, TooShortMessage)] else [])
    + (if RegexMatches(s) then [] else [Issue(path, ClassesMessage)])
  }

  /**
   * An accepted password is at least eight characters long and holds a
   * lowercase letter, an uppercase letter, a digit and a special character.
   */
  lemma {:induction false} AcceptedPasswordHasEveryClass(s: string)
    requires RegexMatches(s)
    ensures |s| >= 8 && HasLower(s) && HasUpper(s) && HasDigit(s) && HasSpecial(s)
  {
    var line := FirstLine(s);
    var a :| 0 <= a < |line| && IsLower(line[a]);
    assert s[a] == line[a];
    var b :| 0 <= b < |line| && IsUpper(line[b]);
    assert s[b] == line[b];
    var c :| 0 <= c < |line| && IsDigit(line[c]);
    assert s[c] == line[c];
    var d :| 0 <= d < |line| && IsSpecial(line[d]);
    assert s[d] == line[d];
  }

  /** A string without line terminators is its own first line. */
  lemma {:induction false} SingleLineIsFirstLine(s: string)
    requires forall i :: 0 <= i < |s| ==> !IsLineTerminator(s[i])
    ensures FirstLine(s) == s
  {
    if s != [] {
      assert !IsLineTerminator(s[0]);
      SingleLineIsFirstLine(s[1..]);
    }
  }

  /**
   * For a password typed on one line, the rule is exactly: length at least
   * eight and each of the four character classes present.
   */
  lemma SingleLineRule(s: string)
    requires forall i :: 0 <= i < |s| ==> !IsLineTerminator(s[i])
    ensures PasswordIssues("password", s) == [] <==>
            |s| >= 8 && HasLower(s) && HasUpper(s) && HasDigit(s) && HasSpecial(s)
  {
    SingleLineIsFirstLine(s);
  }

  /** The first line of `a`, a line break, then anything, is `a`. */
  lemma {:induction false} FirstLineBeforeBreak(a: string, t: char, rest: string)
    requires forall i :: 0 <= i < |a| ==> !IsLineTerminator(a[i])
    requires IsLineTerminator(t)
    ensures FirstLine(a + [t] + rest) == a
  {
    var s := a + [t] + rest;
    if a == [] {
      assert s[0] == t;
    } else {
      assert s[0] == a[0] && !IsLineTerminator(a[0]);
      assert s[1..] == a[1..] + [t] + rest;
      FirstLineBeforeBreak(a[1..], t, rest);
    }
  }

  /** Classes that only appear after a line break do not count. */
  lemma ClassesAfterLineBreakRejected()
    ensures !RegexMatches("abcdefgh\nA1!")
  {
    FirstLineBeforeBreak("abcdefgh", '\n', "A1!");
    assert "abcdefgh" + ['\n'] + "A1!" == "abcdefgh\nA1!";
    assert !HasUpper("abcdefgh");
  }
}
