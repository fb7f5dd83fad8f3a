/**
 * `formatTextToHtml`: turns generated post text into HTML paragraphs. The
 * trimmed text is split on a newline, optional white space and a newline;
 * each block is trimmed, its newlines become `<br>`, `**x**` becomes bold,
 * then `*x*` italic, then every hashtag is wrapped in a coloured span.
 *
 * The regular expressions are modelled by the matches JavaScript finds:
 * leftmost first, `\s*` greedy, `.*?` lazy and unable to cross a line
 * terminator, and a global replace that resumes after each match without
 * rescanning what it inserted.
 */
module FormatText {
  import opened JsText

  // The two long openers are written in short pieces, which the verifier reads character by character.
  const ParagraphOpen: string := "<p style=\"ma" + "rgin-bottom:" + " 1rem;\">"
  const ParagraphClose: string := "</p>"
  const HashtagOpen: string := "<span style=" + "\"color: #00" + "77B5; font-" + "weight: 600;" + "\">"
  const HashtagClose: string := "</span>"

  // ---------------------------------------------------------------------
  // Splitting into blocks: `split(/\n\s*\n/)`

  /** The length of the longest prefix of `s` made of white space. */
  function LeadingSpace(s: string): (n: nat)
    ensures n <= |s| && AllSpace(s[..n]) && (n == |s| || !IsSpace(s[n]))
  {
    if s != [] && IsSpace(s[0]) then 1 + LeadingSpace(s[1..]) else 0
  }

  /** The last index below `w` holding a newline. */
  function LastNewlineBefore(s: string, w: nat): (r: Option<nat>)
    requires w <= |s|
    ensures r.Some? ==> r.value < w && s[r.value] == '\n' && '\n' !in s[r.value + 1..w]
    ensures r.None? ==> '\n' !in s[..w]
  {
    if w == 0 then None
    else if s[w - 1] == '\n' then Some(w - 1)
    else
      var r := LastNewlineBefore(s, w - 1);
      assert s[..w] == s[..w - 1] + [s[w - 1]];
      if r.Some? then
        assert s[r.value + 1..w] == s[r.value + 1..w - 1] + [s[w - 1]];
        r
      else r
  }

  /**
   * The length of the match of `\n\s*\n` at the start of `s`: the greedy
   * `\s*` backs off to the last newline of the white-space run.
   */
  function MatchAt(s: string): (r: Option<nat>)
    ensures r.Some? ==> 2 <= r.value <= |s| && s[0] == '\n' && s[r.value - 1] == '\n'
    ensures r.Some? ==> AllSpace(s[1..r.value])
  {
    if s == [] || s[0] != '\n' then None
    else
      var rest := s[1..];
      var w := LeadingSpace(rest);
      var l := LastNewlineBefore(rest, w);
      if l.None? then None
      else
        assert s[1..l.value + 2] == rest[..l.value + 1];
        assert rest[..l.value + 1] == rest[..w][..l.value + 1];
        Some(l.value + 2)
  }

  /** The leftmost match of the separator in `s`, as its start and its end. */
  function FirstMatch(s: string): (r: Option<(nat, nat)>)
    ensures r.Some? ==> r.value.0 < r.value.1 <= |s|
  {
    if s == [] then None
    else
      var here := MatchAt(s);
      if here.Some? then Some((0, here.value))
      else
        var later := FirstMatch(s[1..]);
        if later.None? then None
        else
          Some((later.value.0 + 1, later.value.1 + 1))
  }

  /** `s.split(/\n\s*\n/)` */
  function SplitBlocks(s: string): (r: seq<string>)
    ensures |r| >= 1
    decreases |s|
  {
    var m := FirstMatch(s);
    if m.None? then [s]
    else [s[..m.value.0]] + SplitBlocks(s[m.value.1..])
  }

  /** A string without newlines holds no separator. */
  lemma {:induction false} NoMatchWithoutNewline(s: string)
    requires '\n' !in s
    ensures FirstMatch(s).None?
    decreases |s|
  {
    if s != [] {
      assert s[0] != '\n';
      assert forall c :: c in s[1..] ==> c in s;
      NoMatchWithoutNewline(s[1..]);
    }
  }

  /** Text before the first newline is skipped by the search. */
  lemma {:induction false} FirstMatchAfterPrefix(a: string, t: string)
    requires '\n' !in a
    ensures FirstMatch(a + t) == if FirstMatch(t).None? then None
                                else Some((FirstMatch(t).value.0 + |a|, FirstMatch(t).value.1 + |a|))
    decreases |a|
  {
    if a != [] {
      var s := a + t;
      assert s[0] == a[0] && a[0] != '\n';
      assert MatchAt(s).None?;
      assert s[1..] == a[1..] + t;
      assert forall c :: c in a[1..] ==> c in a;
      FirstMatchAfterPrefix(a[1..], t);
    } else {
      assert a + t == t;
    }
  }

  /** A blank line opens the separator when the next block's leading white space has no newline. */
  lemma {:induction false} SeparatorMatch(b: string)
    requires '\n' !in b[..LeadingSpace(b)]
    ensures MatchAt("\n\n" + b) == Some(2)
  {
    var s := "\n\n" + b;
    var rest := s[1..];
    assert rest == "\n" + b;
    assert rest[1..] == b;
    var w := LeadingSpace(rest);
    assert w == 1 + LeadingSpace(b);
    LastNewlineAtStart(rest, w);
  }

  lemma {:induction false} LastNewlineAtStart(s: string, w: nat)
    requires 1 <= w <= |s| && s[0] == '\n' && '\n' !in s[1..w]
    ensures LastNewlineBefore(s, w) == Some(0)
  {
    if w > 1 {
      assert s[w - 1] in s[1..w];
      assert s[1..w - 1] == s[1..w][..w - 2];
      LastNewlineAtStart(s, w - 1);
    }
  }

  /**
   * Blocks without newlines joined by blank lines split back into the same
   * blocks, provided no block between two separators is pure white space
   * (such a block would merge its two separators into one).
   */
  lemma {:induction false} SplitJoinRoundTrip(ps: seq<string>)
    requires |ps| >= 1
    requires forall i :: 0 <= i < |ps| ==> '\n' !in ps[i]
    requires forall i :: 1 <= i < |ps| - 1 ==> !AllSpace(ps[i])
    ensures SplitBlocks(Join(ps, "\n\n")) == ps
    decreases |ps|
  {
    if |ps| == 1 {
      NoMatchWithoutNewline(ps[0]);
    } else {
      var b := Join(ps[1..], "\n\n");
      assert Join(ps, "\n\n") == ps[0] + "\n\n" + b;
      LeadingSpaceOfJoin(ps[1..]);
      SplitAtSeparator(ps[0], b);
      SplitJoinRoundTrip(ps[1..]);
      assert ps == [ps[0]] + ps[1..];
    }
  }

  /** The first blank line of `a + "\n\n" + b` is the one between `a` and `b`. */
  lemma SplitAtSeparator(a: string, b: string)
    requires '\n' !in a && '\n' !in b[..LeadingSpace(b)]
    ensures SplitBlocks(a + "\n\n" + b) == [a] + SplitBlocks(b)
  {
    var t := "\n\n" + b;
    var s := a + "\n\n" + b;
    SeparatorMatch(b);
    assert FirstMatch(t) == Some((0, 2));
    assert s == a + t;
    FirstMatchAfterPrefix(a, t);
    assert FirstMatch(s) == Some((|a|, |a| + 2));
    assert s[..|a|] == a && s[|a| + 2..] == b;
  }

  /** The white space at the start of the joined remainder stays inside its first block. */
  lemma LeadingSpaceOfJoin(ps: seq<string>)
    requires |ps| >= 1
    requires forall i :: 0 <= i < |ps| ==> '\n' !in ps[i]
    requires |ps| > 1 ==> !AllSpace(ps[0])
    ensures var j := Join(ps, "\n\n"); '\n' !in j[..LeadingSpace(j)]
  {
    var j := Join(ps, "\n\n");
    if |ps| == 1 {
      assert j == ps[0];
      NoNewlineInSlice(ps[0], 0, LeadingSpace(j));
    } else {
      var k :| 0 <= k < |ps[0]| && !IsSpace(ps[0][k]);
      assert j == ps[0] + "\n\n" + Join(ps[1..], "\n\n");
      LeadingSpaceStops(j, ps[0], k);
    }
  }

  /** White space at the start of `p + rest` ends before a non-space character of `p`. */
  lemma LeadingSpaceStops(j: string, p: string, k: nat)
    requires k < |p| && StartsWith(j, p) && !IsSpace(p[k]) && '\n' !in p
    ensures '\n' !in j[..LeadingSpace(j)]
  {
    var n := LeadingSpace(j);
    assert j[k] == p[k];
    assert j[..n] == p[..n];
    NoNewlineInSlice(p, 0, n);
  }

  // ---------------------------------------------------------------------
  // Inline formatting

  /** `s.replace(/\n/g, "<br>")` */
  function NewlinesToBreaks(s: string): (r: string)
    ensures '\n' !in r
    ensures '\n' !in s ==> r == s
  {
    if s == [] then []
    else (if s[0] == '\n' then "<br>" else [s[0]]) + NewlinesToBreaks(s[1..])
  }

  /**
   * Where the lazy `.*?` of `d(.*?)d` stops when scanning from index `k` of
   * `s`: the first later occurrence of `d`, unless a line terminator comes
   * first or `d` never occurs again.
   */
  function LazyClose(s: string, d: string, k: nat): (r: Option<nat>)
    requires |d| > 0 && k <= |s|
    ensures r.Some? ==> k <= r.value && OccursAt(s, d, r.value)
    ensures r.Some? ==> forall i :: k <= i < r.value ==> !IsLineTerminator(s[i]) && !OccursAt(s, d, i)
    decreases |s| - k
  {
    if k + |d| > |s| then None
    else if s[k..k + |d|] == d then Some(k)
    else if IsLineTerminator(s[k]) then None
    else LazyClose(s, d, k + 1)
  }

  /** `s.replace(/d(.*?)d/g, open + "$1" + close)` for a delimiter `d` of asterisks. */
  function ReplacePairs(s: string, d: string, open: string, close: string): (r: string)
    requires |d| > 0
    ensures '\n' !in s && '\n' !in open && '\n' !in close ==> '\n' !in r
    decreases |s|
  {
    if s == [] then []
    else if StartsWith(s, d) && LazyClose(s, d, |d|).Some? then
      var j := LazyClose(s, d, |d|).value;
      var rest := ReplacePairs(s[j + |d|..], d, open, close);
      if '\n' !in s && '\n' !in open && '\n' !in close then
        NoNewlineInSlice(s, j + |d|, |s|);
        PairStepKeepsNoNewline(s, d, open, close, j, rest);
        open + s[|d|..j] + close + rest
      else open + s[|d|..j] + close + rest
    else
      var rest := ReplacePairs(s[1..], d, open, close);
      if '\n' !in s && '\n' !in open && '\n' !in close then
        NoNewlineInSlice(s, 1, |s|);
        AppendKeepsNoNewline([s[0]], rest);
        [s[0]] + rest
      else [s[0]] + rest
  }

  /** Text without the delimiter's first character passes the pass unchanged. */
  lemma {:induction false} ReplacePairsWithoutDelimiter(s: string, d: string, open: string, close: string)
    requires |d| > 0 && d[0] !in s
    ensures ReplacePairs(s, d, open, close) == s
    decreases |s|
  {
    if s != [] {
      assert d[0] !in s[1..];
      ReplacePairsWithoutDelimiter(s[1..], d, open, close);
    }
  }

  function Bold(s: string): string { ReplacePairs(s, "**", "<strong>", "</strong>") }

  function Italic(s: string): string { ReplacePairs(s, "*", "<em>", "</em>") }

  /** `\w` */
  predicate IsWordChar(c: char) {
    ('a' <= c <= 'z') || ('A' <= c <= 'Z') || ('0' <= c <= '9') || c == '_'
  }

  /** The length of the longest prefix of `s` made of word characters. */
  function WordRun(s: string): (n: nat)
    ensures n <= |s| && (forall i :: 0 <= i < n ==> IsWordChar(s[i])) && (n == |s| || !IsWordChar(s[n]))
  {
    if s != [] && IsWordChar(s[0]) then 1 + WordRun(s[1..]) else 0
  }

  /** `s.replace(/(#\w+)/g, HashtagOpen + "$1" + HashtagClose)`, one pass over `s`. */
  function Hashtags(s: string): (r: string)
    ensures '#' !in s ==> r == s
    decreases |s|
  {
    if s == [] then []
    else if s[0] == '#' && WordRun(s[1..]) > 0 then
      var n := 1 + WordRun(s[1..]);
      HashtagOpen + s[..n] + HashtagClose + Hashtags(s[n..])
    else
      assert '#' !in s ==> '#' !in s[1..];
      [s[0]] + Hashtags(s[1..])
  }

  /** One block of the split text, formatted. */
  function FormatBlock(block: string): (r: string)
    ensures Framed(r)
  {
    var inner := Hashtags(Italic(Bold(NewlinesToBreaks(Trim(block)))));
    assert (ParagraphOpen + inner + ParagraphClose)[..|ParagraphOpen|] == ParagraphOpen;
    ParagraphOpen + inner + ParagraphClose
  }

  /** Text that is one paragraph or several: it opens with `<p …>` and closes with `</p>`. */
  predicate Framed(s: string) {
    |s| >= |ParagraphOpen| + |ParagraphClose|
    && StartsWith(s, ParagraphOpen) && s[|s| - |ParagraphClose|..] == ParagraphClose
  }

  /** Paragraphs side by side are framed as a whole. */
  lemma {:induction false} ConcatFramed(parts: seq<string>)
    requires |parts| >= 1 && forall i :: 0 <= i < |parts| ==> Framed(parts[i])
    ensures Framed(Concat(parts))
  {
    if |parts| > 1 {
      ConcatFramed(parts[1..]);
      var a := parts[0];
      var b := Concat(parts[1..]);
      assert Framed(a) && Framed(b);
      assert (a + b)[..|ParagraphOpen|] == a[..|ParagraphOpen|];
      assert (a + b)[|a + b| - |ParagraphClose|..] == b[|b| - |ParagraphClose|..];
    }
  }

  /** `formatTextToHtml(text)` */
  function FormatTextToHtml(text: string): (r: string)
    ensures Framed(r)
  {
    var blocks := SplitBlocks(Trim(text));
    var formatted := seq(|blocks|, i requires 0 <= i < |blocks| => FormatBlock(blocks[i]));
    ConcatFramed(formatted);
    Concat(formatted)
  }

  // ---------------------------------------------------------------------
  // What the formatting guarantees

  /** Slicing a string never brings in a newline. */
  lemma NoNewlineInSlice(s: string, a: int, b: int)
    requires '\n' !in s && 0 <= a <= b <= |s|
    ensures '\n' !in s[a..b]
  {
  }

  /** One replaced pair followed by a newline-free rest has no newline. */
  lemma PairStepKeepsNoNewline(s: string, d: string, open: string, close: string, j: nat, rest: string)
    requires '\n' !in s && '\n' !in open && '\n' !in close && '\n' !in rest
    requires |d| <= j <= |s|
    ensures '\n' !in open + s[|d|..j] + close + rest
  {
    NoNewlineInSlice(s, |d|, j);
    WrapKeepsNoNewline(open, s[|d|..j], close);
    AppendKeepsNoNewline(open + s[|d|..j] + close, rest);
  }

  lemma AppendKeepsNoNewline(a: string, b: string)
    requires '\n' !in a && '\n' !in b
    ensures '\n' !in a + b
  {
  }

  lemma {:induction false} HashtagsKeepNoNewline(s: string)
    requires '\n' !in s
    ensures '\n' !in Hashtags(s)
    decreases |s|
  {
    if s != [] {
      if s[0] == '#' && WordRun(s[1..]) > 0 {
        var n := 1 + WordRun(s[1..]);
        NoNewlineInSlice(s, 0, n);
        NoNewlineInSlice(s, n, |s|);
        HashtagsKeepNoNewline(s[n..]);
        MarkupHasNoNewline();
        assert Hashtags(s) == HashtagOpen + s[..n] + HashtagClose + Hashtags(s[n..]);
      } else {
        NoNewlineInSlice(s, 1, |s|);
        HashtagsKeepNoNewline(s[1..]);
        assert Hashtags(s) == [s[0]] + Hashtags(s[1..]);
      }
    }
  }

  lemma MarkupHasNoNewline()
    ensures '\n' !in HashtagOpen && '\n' !in HashtagClose
    ensures '\n' !in ParagraphOpen && '\n' !in ParagraphClose
  {
  }

  lemma BoldKeepsNoNewline(s: string)
    requires '\n' !in s
    ensures '\n' !in Bold(s)
  {
    assert '\n' !in "<strong>" && '\n' !in "</strong>";
  }

  lemma ItalicKeepsNoNewline(s: string)
    requires '\n' !in s
    ensures '\n' !in Italic(s)
  {
    assert '\n' !in "<em>" && '\n' !in "</em>";
  }

  lemma WrapKeepsNoNewline(open: string, s: string, close: string)
    requires '\n' !in open && '\n' !in s && '\n' !in close
    ensures '\n' !in open + s + close
  {
  }

  /** A formatted block is one line. */
  lemma FormatBlockHasNoNewline(block: string)
    ensures '\n' !in FormatBlock(block)
  {
    var t := NewlinesToBreaks(Trim(block));
    BoldKeepsNoNewline(t);
    ItalicKeepsNoNewline(Bold(t));
    HashtagsKeepNoNewline(Italic(Bold(t)));
    MarkupHasNoNewline();
    WrapKeepsNoNewline(ParagraphOpen, Hashtags(Italic(Bold(t))), ParagraphClose);
  }

  lemma {:induction false} ConcatKeepsNoNewline(parts: seq<string>)
    requires forall i :: 0 <= i < |parts| ==> '\n' !in parts[i]
    ensures '\n' !in Concat(parts)
  {
    if parts != [] {
      ConcatKeepsNoNewline(parts[1..]);
    }
  }

  /** Every newline of the input is gone from the HTML: between blocks, or as `<br>` within one. */
  lemma NoNewlineInOutput(text: string)
    ensures '\n' !in FormatTextToHtml(text)
  {
    var blocks := SplitBlocks(Trim(text));
    var formatted := seq(|blocks|, i requires 0 <= i < |blocks| => FormatBlock(blocks[i]));
    forall i | 0 <= i < |formatted| ensures '\n' !in formatted[i] {
      FormatBlockHasNoNewline(blocks[i]);
    }
    ConcatKeepsNoNewline(formatted);
  }

  /** Empty or white-space-only text gives exactly one empty paragraph. */
  lemma BlankTextIsOneEmptyParagraph(text: string)
    requires AllSpace(text)
    ensures FormatTextToHtml(text) == ParagraphOpen + ParagraphClose
  {
    TrimEmptyIffAllSpace(text);
    SplitEmpty();
    EmptyBlock();
    var formatted := seq(1, i requires 0 <= i < 1 => FormatBlock([""][i]));
    assert formatted == [ParagraphOpen + ParagraphClose];
    ConcatOfOne(ParagraphOpen + ParagraphClose);
  }

  lemma SplitEmpty()
    ensures SplitBlocks("") == [""]
  {
    assert FirstMatch("").None?;
  }

  lemma ConcatOfOne(s: string)
    ensures Concat([s]) == s
  {
    assert [s][1..] == [];
  }

  lemma EmptyBlock()
    ensures FormatBlock("") == ParagraphOpen + ParagraphClose
  {
    assert Trim("") == "";
    assert NewlinesToBreaks("") == "";
    assert Bold("") == "" && Italic("") == "" && Hashtags("") == "";
  }

  /** A lazy pair around text free of the delimiter's first character and of line terminators is wrapped. */
  lemma {:induction false} PairWrapped(d: string, x: string, open: string, close: string)
    requires |d| > 0 && d[0] !in x
    requires forall i :: 0 <= i < |x| ==> !IsLineTerminator(x[i])
    ensures ReplacePairs(d + x + d, d, open, close) == open + x + close
  {
    var s := d + x + d;
    assert StartsWith(s, d);
    LazyCloseSkips(s, d, x, |d|);
    var j := |d| + |x|;
    assert s[|d|..j] == x;
    assert s[j + |d|..] == [];
  }

  lemma {:induction false} LazyCloseSkips(s: string, d: string, x: string, k: nat)
    requires |d| > 0 && s == d + x + d && d[0] !in x && |d| <= k <= |d| + |x|
    requires forall i :: 0 <= i < |x| ==> !IsLineTerminator(x[i])
    ensures LazyClose(s, d, k) == Some(|d| + |x|)
    decreases |d| + |x| - k
  {
    if k < |d| + |x| {
      assert s[k] == x[k - |d|];
      assert s[k..k + |d|][0] == s[k];
      LazyCloseSkips(s, d, x, k + 1);
    } else {
      assert s[k..k + |d|] == d;
    }
  }

  /** `**x**` becomes bold, and the bold markup holds no star for the italic pass to take. */
  lemma BoldBeforeItalic(x: string)
    requires '*' !in x && forall i :: 0 <= i < |x| ==> !IsLineTerminator(x[i])
    ensures Italic(Bold("**" + x + "**")) == Italic("<strong>" + x + "</strong>")
    ensures Italic("*" + x + "*") == "<em>" + x + "</em>"
  {
    PairWrapped("**", x, "<strong>", "</strong>");
    PairWrapped("*", x, "<em>", "</em>");
  }

  /** `#` followed by word characters is wrapped once, and what follows the word is left for the next match. */
  lemma {:induction false} HashtagWrapped(w: string, rest: string)
    requires |w| > 0 && forall i :: 0 <= i < |w| ==> IsWordChar(w[i])
    requires rest == [] || !IsWordChar(rest[0])
    ensures Hashtags("#" + w + rest) == HashtagOpen + "#" + w + HashtagClose + Hashtags(rest)
  {
    var s := "#" + w + rest;
    var n := 1 + |w|;
    assert s[0] == '#';
    assert s[1..] == w + rest;
    WordRunOfWord(w, rest);
    assert s[..n] == "#" + w;
    assert s[n..] == rest;
    assert Hashtags(s) == HashtagOpen + s[..n] + HashtagClose + Hashtags(s[n..]);
  }

  lemma {:induction false} WordRunOfWord(w: string, rest: string)
    requires forall i :: 0 <= i < |w| ==> IsWordChar(w[i])
    requires rest == [] || !IsWordChar(rest[0])
    ensures WordRun(w + rest) == |w|
  {
    if w != [] {
      assert (w + rest)[1..] == w[1..] + rest;
      WordRunOfWord(w[1..], rest);
    } else {
      assert w + rest == rest;
    }
  }
}
