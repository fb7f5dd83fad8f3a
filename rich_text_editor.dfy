/**
 * The rich-text editor's own logic: the rewrite of YouTube and Vimeo page
 * URLs into embeddable player URLs, the whitespace-insensitive check before
 * the parent's value replaces the editor content, the guards of the link and
 * video handlers, and the markup the handlers insert. The DOM itself (the
 * selection, `execCommand`) is outside the model: a handler records the HTML
 * it asks the browser to insert and the `onChange` notifications it sends.
 */
module RichTextEditor {
  import opened JsText

  // Regular expressions

  /** The two patterns the video handler matches, each with one capture group. */
  datatype Pattern = YouTubePattern | VimeoPattern

  // The literal parts of the patterns, written in pieces so that the
  // verifier can relate them to the `includes` guards.
  const WatchPage: string := "youtube.com/watch"
  const WatchPrefix: string := WatchPage + "?v="
  const ShortHost: string := "youtu.be"
  const ShortPrefix: string := ShortHost + "/"
  const VimeoHost: string := "vimeo.com"
  const VimeoPrefix: string := VimeoHost + "/"

  const YouTubeEmbedBase: string := "https://www.youtube.com/embed/"
  const VimeoPlayerBase: string := "https://player.vimeo.com/video/"

  /** `[^&\s]`: a character of a YouTube video id. */
  predicate IdChar(c: char) { c != '&' && !IsSpace(c) }

  /** `\d` */
  predicate DigitChar(c: char) { IsDigit(c) }

  /** The length of the longest run of characters satisfying `p` that starts at `i`. */
  function RunOf(s: string, i: nat, p: char -> bool): (n: nat)
    requires i <= |s|
    ensures i + n <= |s|
    ensures forall k :: i <= k < i + n ==> p(s[k])
    ensures i + n == |s| || !p(s[i + n])
    decreases |s| - i
  {
    if i < |s| && p(s[i]) then 1 + RunOf(s, i + 1, p) else 0
  }

  /** The greedy `+` group after `prefix` at `i`, if the prefix occurs there and the group is not empty. */
  function GroupAfter(s: string, i: nat, prefix: string, p: char -> bool): (r: Option<string>)
    requires i <= |s|
    ensures r.Some? ==> OccursAt(s, prefix, i) && r.value != []
  {
    if OccursAt(s, prefix, i) && RunOf(s, i + |prefix|, p) > 0 then
      Some(s[i + |prefix|..i + |prefix| + RunOf(s, i + |prefix|, p)])
    else None
  }

  /**
   * The capture group when the pattern matches at `i`. The YouTube pattern
   * is `(?:youtube\.com\/watch\?v=|youtu\.be\/)([^&\s]+)`: its first
   * alternative is tried first. The Vimeo pattern is `vimeo\.com\/(\d+)`.
   */
  function CaptureAt(pat: Pattern, s: string, i: nat): Option<string>
    requires i <= |s|
  {
    match pat
    case YouTubePattern =>
      var w := GroupAfter(s, i, WatchPrefix, IdChar);
      if w.Some? then w else GroupAfter(s, i, ShortPrefix, IdChar)
    case VimeoPattern => GroupAfter(s, i, VimeoPrefix, DigitChar)
  }

  /** The position of the leftmost match at or after `from`. */
  function FirstMatch(pat: Pattern, s: string, from: nat): (r: Option<nat>)
    requires from <= |s|
    ensures r.Some? ==> from <= r.value <= |s| && CaptureAt(pat, s, r.value).Some?
    ensures r.Some? ==> forall j :: from <= j < r.value ==> CaptureAt(pat, s, j).None?
    ensures r.None? ==> forall j :: from <= j <= |s| ==> CaptureAt(pat, s, j).None?
    decreases |s| - from
  {
    if CaptureAt(pat, s, from).Some? then Some(from)
    else if from == |s| then None
    else FirstMatch(pat, s, from + 1)
  }

  /** `s.match(pattern)?.[1]`: the capture of the leftmost match. */
  function Search(pat: Pattern, s: string): Option<string> {
    var at := FirstMatch(pat, s, 0);
    if at.Some? then CaptureAt(pat, s, at.value) else None
  }

  /** The group after a prefix is the whole run of matching characters there, and it is never empty. */
  lemma GroupShape(s: string, i: nat, prefix: string, p: char -> bool) returns (j: nat)
    requires i <= |s| && GroupAfter(s, i, prefix, p).Some?
    ensures var c := GroupAfter(s, i, prefix, p).value;
            && c != [] && j == i + |prefix| && j + |c| <= |s| && s[j..j + |c|] == c
            && (forall k :: 0 <= k < |c| ==> p(c[k]))
            && (j + |c| == |s| || !p(s[j + |c|]))
  {
    j := i + |prefix|;
    var c := GroupAfter(s, i, prefix, p).value;
    var n := RunOf(s, j, p);
    assert c == s[j..j + n];
    forall k | 0 <= k < |c| ensures p(c[k]) {
      assert c[k] == s[j + k];
    }
  }

  /** A YouTube match lies inside text the `includes` guard looks for. */
  lemma YouTubeMatchPassesGuard(s: string, i: nat)
    requires i <= |s| && CaptureAt(YouTubePattern, s, i).Some?
    ensures Contains(s, WatchPage) || Contains(s, ShortHost)
  {
    if GroupAfter(s, i, WatchPrefix, IdChar).Some? {
      assert s[i..i + |WatchPage|] == s[i..i + |WatchPrefix|][..|WatchPage|];
      assert OccursAt(s, WatchPage, i);
    } else {
      assert s[i..i + |ShortHost|] == s[i..i + |ShortPrefix|][..|ShortHost|];
      assert OccursAt(s, ShortHost, i);
    }
  }

  /** A Vimeo match lies inside text the `includes` guard looks for. */
  lemma VimeoMatchPassesGuard(s: string, i: nat)
    requires i <= |s| && CaptureAt(VimeoPattern, s, i).Some?
    ensures Contains(s, VimeoHost)
  {
    assert s[i..i + |VimeoHost|] == s[i..i + |VimeoPrefix|][..|VimeoHost|];
    assert OccursAt(s, VimeoHost, i);
  }

  // The video handler

  /** `finalVideoUrl`: the embeddable form of the URL typed into the video popover. */
  function EmbedUrl(url: string): (r: string)
    ensures r == url || StartsWith(r, YouTubeEmbedBase) || StartsWith(r, VimeoPlayerBase)
    ensures !Contains(url, WatchPage) && !Contains(url, ShortHost) && !Contains(url, VimeoHost) ==> r == url
  {
    if Contains(url, WatchPage) || Contains(url, ShortHost) then
      var id := Search(YouTubePattern, url);
      if id.Some? then YouTubeEmbedBase + id.value else url
    else if Contains(url, VimeoHost) then
      var id := Search(VimeoPattern, url);
      if id.Some? then VimeoPlayerBase + id.value else url
    else url
  }

  /**
   * The rewrite, case by case. A YouTube id found by the pattern becomes a
   * youtube.com/embed URL; otherwise a URL naming a YouTube page is kept as
   * it is and the Vimeo rule is not tried; a Vimeo video number found by its
   * pattern becomes a player.vimeo.com URL; anything else is kept.
   */
  lemma EmbedUrlCases(url: string)
    ensures var yt := Search(YouTubePattern, url);
            var vm := Search(VimeoPattern, url);
            && (yt.Some? ==> EmbedUrl(url) == YouTubeEmbedBase + yt.value)
            && (yt.None? && (Contains(url, WatchPage) || Contains(url, ShortHost)) ==> EmbedUrl(url) == url)
            && (!(Contains(url, WatchPage) || Contains(url, ShortHost)) && vm.Some? ==>
                  EmbedUrl(url) == VimeoPlayerBase + vm.value)
            && (yt.None? && vm.None? ==> EmbedUrl(url) == url)
  {
    var yt := Search(YouTubePattern, url);
    var vm := Search(VimeoPattern, url);
    if yt.Some? {
      YouTubeMatchPassesGuard(url, FirstMatch(YouTubePattern, url, 0).value);
    }
    if vm.Some? {
      VimeoMatchPassesGuard(url, FirstMatch(VimeoPattern, url, 0).value);
    }
  }

  /**
   * The search finds a capture exactly when the pattern matches somewhere,
   * and the capture is the one of the leftmost match.
   */
  lemma SearchIsLeftmost(pat: Pattern, s: string)
    ensures Search(pat, s).Some? <==> exists i :: 0 <= i <= |s| && CaptureAt(pat, s, i).Some?
    ensures Search(pat, s).Some? ==>
              exists i :: 0 <= i <= |s| && Search(pat, s) == CaptureAt(pat, s, i)
                          && forall j :: 0 <= j < i ==> CaptureAt(pat, s, j).None?
  {
    var at := FirstMatch(pat, s, 0);
    if at.Some? {
      assert Search(pat, s) == CaptureAt(pat, s, at.value);
    }
  }

  /** The id put into a YouTube embed URL contains no `&` and no white space, so query parameters are dropped. */
  lemma YouTubeIdIsClean(url: string)
    requires Search(YouTubePattern, url).Some?
    ensures var id := Search(YouTubePattern, url).value;
            id != [] && forall k :: 0 <= k < |id| ==> id[k] != '&' && !IsSpace(id[k])
  {
    var i := FirstMatch(YouTubePattern, url, 0).value;
    if GroupAfter(url, i, WatchPrefix, IdChar).Some? {
      var _ := GroupShape(url, i, WatchPrefix, IdChar);
    } else {
      var _ := GroupShape(url, i, ShortPrefix, IdChar);
    }
  }

  /** The number put into a Vimeo player URL is a non-empty run of digits. */
  lemma VimeoIdIsDigits(url: string)
    requires Search(VimeoPattern, url).Some?
    ensures var id := Search(VimeoPattern, url).value;
            id != [] && AllDigits(id)
  {
    var i := FirstMatch(VimeoPattern, url, 0).value;
    var _ := GroupShape(url, i, VimeoPrefix, DigitChar);
  }

  const VideoEmbedHead: string :=
    "<div class=\"video-embed\" contenteditable=\"false\">\n          <iframe \n            src=\""
  const VideoEmbedTail: string :=
    "\" \n            frameborder=\"0\" \n            allow=\"accelerometer; autoplay; clipboard-write; "
    + "encrypted-media; gyroscope; picture-in-picture\" \n            allowfullscreen\n"
    + "            class=\"editor-video\">\n          </iframe>\n        </div>"

  /** `videoEmbed`: the iframe markup around the final URL. */
  function VideoEmbed(finalUrl: string): (r: string)
    ensures StartsWith(r, VideoEmbedHead)
    ensures OccursAt(r, finalUrl + VideoEmbedTail, |VideoEmbedHead|)
  {
    PartsOfConcat(VideoEmbedHead, finalUrl + VideoEmbedTail);
    VideoEmbedHead + (finalUrl + VideoEmbedTail)
  }

  /** The two parts of a concatenation are found where they were put. */
  lemma PartsOfConcat(a: string, b: string)
    ensures StartsWith(a + b, a) && OccursAt(a + b, b, |a|)
  {
    assert (a + b)[..|a|] == a;
    assert (a + b)[|a|..|a| + |b|] == b;
  }

  /** `<a href="…" target="_blank" rel="noopener noreferrer">…</a>` */
  function Anchor(url: string, text: string): (r: string)
    ensures OccursAt(r, url, |"<a href=\""|)
  {
    "<a href=\"" + url + "\" target=\"_blank\" rel=\"noopener noreferrer\">" + text + "</a>"
  }

  const EmojiOpen: string := "<span class=\"emoji\" " + "style=\"font-size: " + "1.2em;\">"
  const EmojiClose: string := "</span>"

  /** `enhancedEmoji` */
  function EmojiSpan(emoji: string): (r: string)
    ensures StartsWith(r, EmojiOpen) && OccursAt(r, emoji, |EmojiOpen|)
    ensures |r| == |EmojiOpen| + |emoji| + |EmojiClose|
  {
    EmojiOpen + emoji + EmojiClose
  }

  /** The effect of the parent-update check: replace the content only if it differs once white space is ignored. */
  predicate ShouldReplace(editing: bool, initialLoad: bool, value: string, current: string)
    ensures ShouldReplace(editing, initialLoad, value, current)
            <==> !editing && !initialLoad && RemoveSpaces(value) != RemoveSpaces(current)
  {
    !editing && !initialLoad && value != current && RemoveSpaces(value) != RemoveSpaces(current)
  }

  /** What a handler asks the browser to do. */
  datatype Command =
    | InsertHtml(html: string)    // `execCommand('insertHTML', …)`
    | CreateLink(url: string)     // `execCommand('createLink', …)`, then `target="_blank"` on the new links
    | NotifyChange                // `onChange(editorRef.current.innerHTML)`

  class Editor {
    /** `editorRef.current.innerHTML` as far as the effects set it. */
    var html: string
    var initialLoad: bool
    /** `isUserEditing.current` */
    var isUserEditing: bool
    /** Whether `savedSelection.current` holds a range. */
    var hasSavedSelection: bool
    var linkUrl: string
    var linkText: string
    var showLinkInput: bool
    var videoUrl: string
    var showVideoInput: bool
    /** The commands issued so far, in order. */
    var commands: seq<Command>

    constructor()
      ensures html == "" && initialLoad && !isUserEditing && !hasSavedSelection
      ensures linkUrl == "" && linkText == "" && !showLinkInput
      ensures videoUrl == "" && !showVideoInput && commands == []
    {
      html := "";
      initialLoad := true;
      isUserEditing := false;
      hasSavedSelection := false;
      linkUrl := "";
      linkText := "";
      showLinkInput := false;
      videoUrl := "";
      showVideoInput := false;
      commands := [];
    }

    /** The first effect: the first non-empty value is copied in once. */
    method InitialLoadEffect(value: string)
      modifies this
      ensures old(initialLoad) && value != "" ==> html == value && !initialLoad
      ensures !(old(initialLoad) && value != "") ==> html == old(html) && initialLoad == old(initialLoad)
      ensures commands == old(commands) && isUserEditing == old(isUserEditing)
    {
      if initialLoad && value != "" {
        html := value;
        initialLoad := false;
      }
    }

    /**
     * The second effect. After it runs outside an edit, the editor shows the
     * parent's value up to white space; a value that differs only in white
     * space leaves the content (and the cursor) alone. `rangeMissing` says the
     * page has a selection with no range in it: `getRangeAt(0)` then throws
     * before the content is replaced, and nothing changes.
     */
    method ParentUpdateEffect(value: string, rangeMissing: bool)
      modifies this
      ensures html == if ShouldReplace(old(isUserEditing), old(initialLoad), value, old(html)) && !rangeMissing
                      then value else old(html)
      ensures !isUserEditing && !initialLoad && !rangeMissing ==> RemoveSpaces(html) == RemoveSpaces(value)
      ensures RemoveSpaces(value) == RemoveSpaces(old(html)) ==> html == old(html)
      ensures rangeMissing ==> html == old(html)
      ensures initialLoad == old(initialLoad) && isUserEditing == old(isUserEditing) && commands == old(commands)
    {
      if !isUserEditing && !initialLoad {
        if value != html && RemoveSpaces(value) != RemoveSpaces(html) {
          if !rangeMissing {
            html := value;
          }
        }
      }
    }

    /** `handleEditorChange`, on typing and at the end of a blur: the user is editing, and `onChange` gets the current content. */
    method HandleEditorChange(current: string)
      modifies this
      ensures isUserEditing && html == current
      ensures commands == old(commands) + [NotifyChange]
      ensures initialLoad == old(initialLoad)
    {
      isUserEditing := true;
      html := current;
      commands := commands + [NotifyChange];
    }

    /** `handleEditorFocus` */
    method HandleEditorFocus()
      modifies this
      ensures isUserEditing && html == old(html) && commands == old(commands)
      ensures initialLoad == old(initialLoad)
    {
      isUserEditing := true;
    }

    /** The 100 ms timer after an edit, and the blur handler's first step. */
    method EndEditing()
      modifies this
      ensures !isUserEditing && html == old(html) && commands == old(commands)
      ensures initialLoad == old(initialLoad)
    {
      isUserEditing := false;
    }

    /** `handleEditorBlur`: editing ends, then the change handler runs with the current content. */
    method HandleEditorBlur(current: string)
      modifies this
      ensures isUserEditing && html == current
      ensures commands == old(commands) + [NotifyChange]
      ensures initialLoad == old(initialLoad)
    {
      EndEditing();
      HandleEditorChange(current);
    }

    /**
     * The link button: a present selection is kept, its text becomes the
     * link text unless it is blank, and the popover opens.
     */
    method OpenLinkInput(selectionPresent: bool, selectionText: string)
      modifies this
      ensures showLinkInput && hasSavedSelection == (old(hasSavedSelection) || selectionPresent)
      ensures linkText == if selectionPresent && Trim(selectionText) != "" then selectionText else old(linkText)
      ensures commands == old(commands) && html == old(html) && linkUrl == old(linkUrl)
    {
      if selectionPresent {
        hasSavedSelection := true;
        if Trim(selectionText) != "" {
          linkText := selectionText;
        }
      }
      showLinkInput := true;
    }

    /** Typing in the link popover's URL and text inputs. */
    method SetLinkInput(url: string, text: string)
      modifies this
      ensures linkUrl == url && linkText == text
      ensures commands == old(commands) && html == old(html) && showLinkInput == old(showLinkInput)
      ensures hasSavedSelection == old(hasSavedSelection)
    {
      linkUrl := url;
      linkText := text;
    }

    /** Closing the link popover without adding: its inputs and the saved selection are dropped. */
    method CloseLinkInput()
      modifies this
      ensures linkUrl == "" && linkText == "" && !hasSavedSelection && !showLinkInput
      ensures commands == old(commands) && html == old(html) && videoUrl == old(videoUrl)
    {
      linkUrl := "";
      linkText := "";
      hasSavedSelection := false;
      showLinkInput := false;
    }

    /** Closing the video popover without adding. */
    method CloseVideoInput()
      modifies this
      ensures videoUrl == "" && !hasSavedSelection && !showVideoInput
      ensures commands == old(commands) && html == old(html) && linkUrl == old(linkUrl) && linkText == old(linkText)
    {
      videoUrl := "";
      hasSavedSelection := false;
      showVideoInput := false;
    }

    /** Typing in the video popover's URL input. */
    method SetVideoUrl(url: string)
      modifies this
      ensures videoUrl == url
      ensures commands == old(commands) && html == old(html) && showVideoInput == old(showVideoInput)
      ensures hasSavedSelection == old(hasSavedSelection)
    {
      videoUrl := url;
    }

    /** The video button: the current selection is kept and the popover opens. */
    method OpenVideoInput(selectionPresent: bool)
      modifies this
      ensures showVideoInput && hasSavedSelection == (old(hasSavedSelection) || selectionPresent)
      ensures commands == old(commands) && html == old(html) && videoUrl == old(videoUrl)
    {
      hasSavedSelection := hasSavedSelection || selectionPresent;
      showVideoInput := true;
    }

    /**
     * `handleLink`, with the text of the restored selection. An empty URL
     * does nothing. With a saved selection, an empty selection and a link
     * text insert a new anchor, and anything else turns the selection into a
     * link; without one, only a link text inserts an anchor. Then `onChange`
     * is notified and the popover is cleared.
     */
    method HandleLink(selectedText: string)
      modifies this
      ensures old(linkUrl) == "" ==>
                commands == old(commands) && linkText == old(linkText) && showLinkInput == old(showLinkInput)
                && hasSavedSelection == old(hasSavedSelection)
      ensures old(linkUrl) != "" ==>
                && commands == old(commands)
                     + (if old(hasSavedSelection) then
                          (if Trim(selectedText) == "" && old(linkText) != "" then [InsertHtml(Anchor(old(linkUrl), old(linkText)))]
                           else [CreateLink(old(linkUrl))])
                        else if old(linkText) != "" then [InsertHtml(Anchor(old(linkUrl), old(linkText)))]
                        else [])
                     + [NotifyChange]
                && linkUrl == "" && linkText == "" && !showLinkInput && !hasSavedSelection
      ensures html == old(html) && videoUrl == old(videoUrl)
    {
      if linkUrl == "" {
        return;
      }
      if hasSavedSelection {
        if Trim(selectedText) == "" && linkText != "" {
          commands := commands + [InsertHtml(Anchor(linkUrl, linkText))];
        } else {
          commands := commands + [CreateLink(linkUrl)];
        }
      } else if linkText != "" {
        commands := commands + [InsertHtml(Anchor(linkUrl, linkText))];
      }
      commands := commands + [NotifyChange];
      linkUrl := "";
      linkText := "";
      showLinkInput := false;
      hasSavedSelection := false;
    }

    /**
     * `handleVideo`: an empty URL does nothing; otherwise the iframe for the
     * rewritten URL is inserted, `onChange` is notified and the popover is
     * cleared.
     */
    method HandleVideo()
      modifies this
      ensures old(videoUrl) == "" ==>
                commands == old(commands) && showVideoInput == old(showVideoInput)
                && hasSavedSelection == old(hasSavedSelection) && videoUrl == ""
      ensures old(videoUrl) != "" ==>
                && commands == old(commands) + [InsertHtml(VideoEmbed(EmbedUrl(old(videoUrl)))), NotifyChange]
                && videoUrl == "" && !showVideoInput && !hasSavedSelection
      ensures html == old(html) && linkUrl == old(linkUrl) && linkText == old(linkText)
    {
      if videoUrl == "" {
        return;
      }
      var embed := VideoEmbed(EmbedUrl(videoUrl));
      commands := commands + [InsertHtml(embed), NotifyChange];
      videoUrl := "";
      showVideoInput := false;
      hasSavedSelection := false;
    }

    /** `handleEmoji`: the emoji goes in wrapped in its styled span. */
    method HandleEmoji(emoji: string)
      modifies this
      ensures commands == old(commands) + [InsertHtml(EmojiSpan(emoji)), NotifyChange]
      ensures html == old(html) && isUserEditing == old(isUserEditing)
    {
      commands := commands + [InsertHtml(EmojiSpan(emoji)), NotifyChange];
    }
  }

  /** Once the parent's value is shown, running the update check again with it changes nothing. */
  lemma ReplaceSettles(value: string, current: string)
    requires ShouldReplace(false, false, value, current)
    ensures !ShouldReplace(false, false, value, value)
    ensures RemoveSpaces(value) != RemoveSpaces(current)
  {
  }

  /** Content that differs from the value only in white space is never replaced. */
  lemma WhitespaceOnlyDifferenceKept(editing: bool, initialLoad: bool, value: string, current: string)
    requires RemoveSpaces(value) == RemoveSpaces(current)
    ensures !ShouldReplace(editing, initialLoad, value, current)
  {
  }
}
