/**
 * The `Healthcare` service object of the backend: a fixed catalogue of five
 * post templates, ONE selected template shared by every user, and a record of
 * generated hooks per user email, with the number of the hook the user chose.
 * The OpenAI call is replaced by its reply (None when the call fails) and
 * `json.loads` by a decoding function passed in.
 */
module Healthcare {
  import opened JsText

  /** A value as Python's `json.loads` returns it (floats are not modelled). */
  datatype PyValue =
    | PNone
    | PBool(b: bool)
    | PInt(i: int)
    | PStr(s: string)
    | PList(items: seq<PyValue>)
    | PDict(entries: map<string, PyValue>)

  /**
   * `Template(number, name, description, style, post_length)`. The long
   * description text is read through `description()`, from the number.
   */
  datatype Template = Template(number: int, name: string, style: string, postLength: int) {
    function description(): string { DescriptionOf(number) }
  }

  /** The `description` of each template. */
  function DescriptionOf(number: int): string {
    match number
    case 1 => "This template focuses on employee retention in healthcare, addressing the revolving door problem in the healthcare industry. The content should emphasize the importance of retaining top healthcare professionals and why it's crucial to avoid burnout."
    case 2 => "This template addresses toxic work cultures in healthcare. It should highlight the negative effects of toxic work environments on healthcare professionals and suggest ways to mitigate them, such as promoting work-life balance and offering proper support."
    case 3 => "This template is centered on healthcare branding. It should emphasize that a healthcare brand is not just about the logo, but the emotional connection with patients and professionals, and the values the organization promotes."
    case 4 => "This template is for brief but impactful messages, focusing on employee retention and ways to keep top healthcare talent motivated and engaged in their work."
    case _ => "This template incorporates emojis to make the content more engaging and lighthearted. The focus should be on the key qualities needed in healthcare professionals and why long-term investment in talent matters."
  }

  /** `self.templates`, in the insertion order of the dictionary. */
  const Templates: seq<Template> := [
    Template(1, "Standard", "Standard", 300),
    Template(2, "Formatted", "Formatted", 500),
    Template(3, "Chunky", "Chunky", 400),
    Template(4, "Short", "Short", 150),
    Template(5, "Emojis", "Emojis", 200)]

  /** The catalogue: five templates numbered 1 to 5 in the order Standard, Formatted, Chunky, Short, Emojis. */
  lemma CatalogueShape()
    ensures |Templates| == 5
    ensures forall i :: 0 <= i < |Templates| ==> Templates[i].number == i + 1
    ensures forall i :: 0 <= i < |Templates| ==> Templates[i].name == Templates[i].style
    ensures [Templates[0].name, Templates[1].name, Templates[2].name, Templates[3].name, Templates[4].name]
            == ["Standard", "Formatted", "Chunky", "Short", "Emojis"]
  {
  }

  /**
   * The position Python's `xs[i]` reads in a list of length `len`: a negative
   * index counts from the end; None stands for `IndexError`.
   */
  function PyIndex(len: nat, i: int): (r: Option<nat>)
    ensures r.Some? <==> -(len as int) <= i < len
    ensures r.Some? ==> r.value < len
    ensures r.Some? && i >= 0 ==> r.value == i
    ensures r.Some? && i < 0 ==> r.value == len + i
  {
    if 0 <= i < len then Some(i)
    else if -(len as int) <= i < 0 then Some(len + i)
    else None
  }

  /** `list(self.templates.values())[n - 1]`; None stands for `IndexError`. */
  function TemplateAt(n: int): (r: Option<Template>)
    ensures r.Some? <==> -4 <= n <= 5
    ensures 1 <= n <= 5 ==> r == Some(Templates[n - 1])
    ensures -4 <= n <= 0 ==> r == Some(Templates[n + 4])
  {
    match PyIndex(|Templates|, n - 1)
    case Some(k) => Some(Templates[k])
    case None => None
  }

  /** Number 0 wraps around to the last template, and any number above 5 is out of range. */
  lemma TemplateNumberEdges(n: int)
    requires n > 5
    ensures TemplateAt(0) == Some(Templates[4]) && Templates[4].name == "Emojis"
    ensures TemplateAt(n).None?
  {
  }

  /** What a user's hooks value can be once stored: a list of hooks, or a string that stood in for one. */
  predicate IsSequence(v: PyValue) { v.PList? || v.PStr? }

  /** `len(v)` of a list or a string. */
  function PyLen(v: PyValue): nat
    requires IsSequence(v)
  {
    if v.PList? then |v.items| else |v.s|
  }

  /** `v[:5]` of a list or a string. */
  function TakeFive(v: PyValue): (r: PyValue)
    requires IsSequence(v)
    ensures IsSequence(r) && PyLen(r) <= 5
    ensures PyLen(v) <= 5 ==> r == v
    ensures v.PList? && |v.items| > 5 ==> r == PList(v.items[..5])
    ensures v.PStr? && |v.s| > 5 ==> r == PStr(v.s[..5])
  {
    if v.PList? then PList(if |v.items| <= 5 then v.items else v.items[..5])
    else PStr(if |v.s| <= 5 then v.s else v.s[..5])
  }

  /** `v[k]` of a list or a string, for an index in range; a string gives a one-character string. */
  function ItemAt(v: PyValue, k: nat): PyValue
    requires IsSequence(v) && k < PyLen(v)
  {
    if v.PList? then v.items[k] else PStr([v.s[k]])
  }

  /** `s.split(c)[-1]`: the text after the last `c`, or all of `s` when it has none. */
  function AfterLast(s: string, c: char): string
  {
    if s == [] then []
    else if s[|s| - 1] == c then []
    else
      var r := AfterLast(s[..|s| - 1], c);
      if c in s[..|s| - 1] then r + [s[|s| - 1]]
      else s
  }

  /** `s.split(c)[0]`: the text before the first `c`, or all of `s` when it has none. */
  function BeforeFirst(s: string, c: char): string
  {
    if s == [] then []
    else if s[0] == c then []
    else [s[0]] + BeforeFirst(s[1..], c)
  }
  /** What `split(c)[-1]` leaves: the part after the last `c`, a suffix free of `c`. */
  lemma {:induction false} AfterLastSpec(s: string, c: char)
    ensures var r := AfterLast(s, c);
            && c !in r
            && (c !in s ==> r == s)
            && |r| <= |s| && r == s[|s| - |r|..]
            && (c in s ==> |r| < |s| && s[|s| - |r| - 1] == c)
  {
    if s != [] && s[|s| - 1] != c {
      var t := s[..|s| - 1];
      AfterLastSpec(t, c);
      if c in t {
        var r := AfterLast(t, c);
        assert AfterLast(s, c) == r + [s[|s| - 1]];
        assert s == t + [s[|s| - 1]];
      } else {
        assert c !in s by { assert s == t + [s[|s| - 1]]; }
      }
    }
  }

  /** What `split(c)[0]` leaves: the part before the first `c`, a prefix free of `c`. */
  lemma {:induction false} BeforeFirstSpec(s: string, c: char)
    ensures var r := BeforeFirst(s, c);
            && c !in r
            && (c !in s ==> r == s)
            && |r| <= |s| && r == s[..|r|]
            && (c in s ==> |r| < |s| && s[|r|] == c)
  {
    if s != [] && s[0] != c {
      BeforeFirstSpec(s[1..], c);
      assert s == [s[0]] + s[1..];
    }
  }


  /** `content.strip().split("(")[-1].split(")")[0]`: the text taken as the hooks JSON. */
  function HookJsonText(reply: string): (r: string)
    ensures '(' !in r && ')' !in r
  {
    var inner := AfterLast(PyStrip(reply), '(');
    AfterLastSpec(PyStrip(reply), '(');
    BeforeFirstSpec(inner, ')');
    BeforeFirst(inner, ')')
  }

  /** A string with no white space at either end is left as it is by `strip()`. */
  lemma StripLeavesTrimmed(s: string)
    requires s == [] || (!IsPySpace(s[0]) && !IsPySpace(s[|s| - 1]))
    ensures PyStrip(s) == s
  {
  }

  /**
   * A reply of the form `pre(json)post` yields exactly `json` when `json` has
   * no parentheses, `post` no opening one, and the reply no white space at
   * either end.
   */
  lemma HookJsonTextOfWrapped(pre: string, json: string, post: string)
    requires '(' !in json && ')' !in json && '(' !in post
    requires pre == [] || !IsPySpace(pre[0])
    requires post == [] || !IsPySpace(post[|post| - 1])
    ensures HookJsonText(pre + "(" + json + ")" + post) == json
  {
    var head := pre + "(";
    var tail := json + ")" + post;
    WrappedIsTrimmed(pre, json, post);
    Regroup(pre, json, post);
    AfterLastOfTail(head, tail);
    BeforeFirstOfHead(json, post);
  }

  lemma Regroup(pre: string, json: string, post: string)
    ensures pre + "(" + json + ")" + post == (pre + "(") + (json + ")" + post)
  {
  }

  lemma WrappedIsTrimmed(pre: string, json: string, post: string)
    requires pre == [] || !IsPySpace(pre[0])
    requires post == [] || !IsPySpace(post[|post| - 1])
    ensures PyStrip(pre + "(" + json + ")" + post) == pre + "(" + json + ")" + post
  {
    var front := pre + "(";
    var back := json + ")" + post;
    var s := front + back;
    assert s[0] == front[0];
    assert s[|s| - 1] == back[|back| - 1];
    assert pre + "(" + json + ")" + post == s;
    StripLeavesTrimmed(s);
  }

  lemma {:induction false} AfterLastOfTail(head: string, tail: string)
    requires head != [] && head[|head| - 1] == '(' && '(' !in tail
    ensures AfterLast(head + tail, '(') == tail
  {
    if tail == [] {
      assert head + tail == head;
    } else {
      var s := head + tail;
      assert s[..|s| - 1] == head + tail[..|tail| - 1];
      assert '(' in s[..|s| - 1] by { assert s[..|s| - 1][|head| - 1] == '('; }
      AfterLastOfTail(head, tail[..|tail| - 1]);
      assert tail == tail[..|tail| - 1] + [tail[|tail| - 1]];
    }
  }

  lemma {:induction false} BeforeFirstOfHead(json: string, post: string)
    requires ')' !in json
    ensures BeforeFirst(json + ")" + post, ')') == json
  {
    if json != [] {
      assert (json + ")" + post)[1..] == json[1..] + ")" + post;
      BeforeFirstOfHead(json[1..], post);
    }
  }

  /**
   * How the parse in `generate_hooks` ends: with hooks to return and store,
   * or with an exception after which `returned` is what the variable `hooks`
   * held.
   */
  datatype HookParse = Parsed(hooks: PyValue) | Failed(returned: PyValue)

  /**
   * The parse of the reply: `json.loads(text).get("hooks", [])` and then
   * `hooks[:5]`. A failed call, undecodable text or a decoded value without
   * `.get` leave `hooks` at `[]`; a "hooks" value that cannot be sliced has
   * already been assigned when the slice raises, so it is what is returned.
   */
  function ParseHooks(reply: Option<string>, decode: string -> Option<PyValue>): (r: HookParse)
    ensures r.Parsed? ==> IsSequence(r.hooks) && PyLen(r.hooks) <= 5
    ensures r.Failed? ==> !IsSequence(r.returned) || r.returned == PList([])
  {
    if reply.None? then Failed(PList([]))
    else
      match decode(HookJsonText(reply.value))
      case None => Failed(PList([]))
      case Some(doc) =>
        if !doc.PDict? then Failed(PList([]))
        else
          var hooks := if "hooks" in doc.entries then doc.entries["hooks"] else PList([]);
          if IsSequence(hooks) then Parsed(TakeFive(hooks)) else Failed(hooks)
  }

  /** The value `generate_hooks` returns. */
  function Returned(p: HookParse): PyValue {
    if p.Parsed? then p.hooks else p.returned
  }

  /** A failed call, or a reply that does not decode to an object, gives `[]`. */
  lemma FailuresReturnEmpty(reply: Option<string>, decode: string -> Option<PyValue>)
    requires reply.None? || decode(HookJsonText(reply.value)).None?
             || !decode(HookJsonText(reply.value)).value.PDict?
    ensures ParseHooks(reply, decode) == Failed(PList([]))
  {
  }

  /** An object reply with a list under "hooks" yields its first five items. */
  lemma ListRepliesKeepFirstFive(reply: string, decode: string -> Option<PyValue>, items: seq<PyValue>)
    requires decode(HookJsonText(reply)).Some?
    requires decode(HookJsonText(reply)).value.PDict?
    requires "hooks" in decode(HookJsonText(reply)).value.entries
    requires decode(HookJsonText(reply)).value.entries["hooks"] == PList(items)
    ensures ParseHooks(Some(reply), decode)
            == Parsed(PList(if |items| <= 5 then items else items[..5]))
  {
  }

  /** `{"hooks": [...], "user_input": ..., "selected_hook_number": n}` */
  datatype HookRecord = HookRecord(hooks: PyValue, userInput: string, selectedHookNumber: Option<int>)

  /** Stored hooks are a list or a string of at most five items, and a selected number indexes them. */
  predicate RecordValid(r: HookRecord) {
    IsSequence(r.hooks) && PyLen(r.hooks) <= 5
    && (r.selectedHookNumber.Some? ==> 1 <= r.selectedHookNumber.value <= PyLen(r.hooks))
  }

  /** `if user_email:` — None and the empty string are falsy. */
  predicate EmailGiven(email: Option<string>) {
    email.Some? && email.value != ""
  }

  lemma StoreKeepsValid(m: map<string, HookRecord>, k: string, record: HookRecord, m': map<string, HookRecord>)
    requires forall e :: e in m ==> RecordValid(m[e])
    requires RecordValid(record) && m' == m[k := record]
    ensures forall e :: e in m' ==> RecordValid(m'[e])
  {
  }

  class Service {
    /** `self.selected_template`, shared by every user of the process. */
    var selectedTemplate: Option<Template>
    /** `self.user_hooks` */
    var userHooks: map<string, HookRecord>

    ghost predicate Valid()
      reads this
    {
      (selectedTemplate.Some? ==> selectedTemplate.value in Templates)
      && forall e :: e in userHooks ==> RecordValid(userHooks[e])
    }

    /** `Healthcare()` */
    constructor()
      ensures Valid()
      ensures selectedTemplate == None && userHooks == map[]
    {
      selectedTemplate := None;
      userHooks := map[];
    }

    /**
     * `select_template(n)`. Returns the confirmation message, or None for the
     * `IndexError` raised outside -4..5 (then nothing changes).
     */
    method SelectTemplate(n: int) returns (message: Option<string>)
      requires Valid()
      modifies this
      ensures Valid()
      ensures message.Some? <==> TemplateAt(n).Some?
      ensures message.Some? ==> (selectedTemplate == TemplateAt(n)
              && message.value == "Template '" + selectedTemplate.value.name + "' selected successfully.")
      ensures message.None? ==> selectedTemplate == old(selectedTemplate)
      ensures userHooks == old(userHooks)
    {
      var t := TemplateAt(n);
      if t.None? {
        return None;
      }
      selectedTemplate := t;
      message := Some("Template '" + t.value.name + "' selected successfully.");
    }

    /**
     * `generate_hooks(user_input, user_email)` after the OpenAI call has
     * answered `reply`. On a successful parse with an email given, the
     * user's whole record is replaced, so an earlier selected hook number is
     * dropped.
     */
    method GenerateHooks(userInput: string, userEmail: Option<string>, reply: Option<string>,
                         decode: string -> Option<PyValue>) returns (hooks: PyValue)
      requires Valid()
      modifies this
      ensures Valid()
      ensures hooks == Returned(ParseHooks(reply, decode))
      ensures userHooks == if ParseHooks(reply, decode).Parsed? && EmailGiven(userEmail)
                           then old(userHooks)[userEmail.value := HookRecord(hooks, userInput, None)]
                           else old(userHooks)
      ensures selectedTemplate == old(selectedTemplate)
    {
      var parse := ParseHooks(reply, decode);
      hooks := Returned(parse);
      if parse.Parsed? && EmailGiven(userEmail) {
        var record := HookRecord(hooks, userInput, None);
        StoreKeepsValid(userHooks, userEmail.value, record, userHooks[userEmail.value := record]);
        userHooks := userHooks[userEmail.value := record];
      }
    }

    /** `select_hook(user_email, hook_number)` */
    method SelectHook(userEmail: string, hookNumber: int) returns (ok: bool)
      requires Valid()
      modifies this
      ensures Valid()
      ensures ok <==> userEmail in old(userHooks)
                      && 1 <= hookNumber <= PyLen(old(userHooks)[userEmail].hooks)
      ensures userHooks == if ok
                           then old(userHooks)[userEmail := old(userHooks)[userEmail].(selectedHookNumber := Some(hookNumber))]
                           else old(userHooks)
      ensures selectedTemplate == old(selectedTemplate)
    {
      if userEmail !in userHooks {
        return false;
      }
      var hooks := userHooks[userEmail].hooks;
      if hookNumber < 1 || hookNumber > PyLen(hooks) {
        return false;
      }
      userHooks := userHooks[userEmail := userHooks[userEmail].(selectedHookNumber := Some(hookNumber))];
      ok := true;
    }

    /** `get_user_hooks(user_email)`: the stored record, or None. */
    function UserHooks(userEmail: string): (r: Option<HookRecord>)
      reads this
      requires Valid()
      ensures r.Some? <==> userEmail in userHooks
      ensures r.Some? ==> r.value == userHooks[userEmail] && RecordValid(r.value)
    {
      if userEmail in userHooks then Some(userHooks[userEmail]) else None
    }
  }
}
