/**
 * The backend's route handlers for users, one-time passwords, saved posts and
 * post generation. MongoDB's `users` and `saved_posts` collections and the
 * module-level `otp_store` dictionary are fields of one `Backend` object; the
 * caller of a protected route is given by the email of the user its bearer
 * token resolved to. Random tokens, random OTPs and clock readings are
 * parameters, and the regular-expression search of MongoDB is a function
 * parameter.
 */
module Server {
  import opened JsText
  import opened Healthcare

  /** A route's answer: a value, or the `HTTPException` it raised. */
  datatype Response<T> = Ok(value: T) | Err(status: int, detail: string)

  datatype UserDoc = UserDoc(
    name: string,
    email: string,
    password: string,
    mobile: string,
    /** The `bearer_token` field; None when the document has none. */
    bearerToken: Option<string>,
    /** The `profile` sub-document saved by `POST /user-profile`. */
    profile: Option<map<string, PyValue>>)

  /** A document of `saved_posts`; `id` is its ObjectId as 24 lower-case hex digits. */
  datatype PostDoc = PostDoc(
    id: string,
    userEmail: string,
    content: string,
    createdAt: int,
    updatedAt: int,
    status: string,
    tags: seq<string>,
    characterCount: int)

  /** An entry of `otp_store`. */
  datatype OtpEntry = OtpEntry(otp: string, purpose: string, createdAt: int)

  /** The statuses a post may have. */
  const ValidStatuses: seq<string> := ["draft", "published", "favorite", "archived"]

  const InvalidPostId: string := "Invalid post ID"

  // ---------------------------------------------------------------------
  // ObjectId parsing
  // ---------------------------------------------------------------------

  predicate IsHexDigit(c: char) {
    '0' <= c <= '9' || 'a' <= c <= 'f' || 'A' <= c <= 'F'
  }

  function LowerHex(c: char): (r: char)
    requires IsHexDigit(c)
    ensures '0' <= r <= '9' || 'a' <= r <= 'f'
  {
    if 'A' <= c <= 'F' then (c as int - 'A' as int + 'a' as int) as char else c
  }

  /**
   * `ObjectId(post_id)`: a string is accepted when it is 24 hexadecimal
   * digits, and two spellings that differ only in letter case name the same
   * id. None stands for the `InvalidId` exception.
   */
  function ParseObjectId(s: string): (r: Option<string>)
    ensures r.Some? <==> |s| == 24 && forall i :: 0 <= i < |s| ==> IsHexDigit(s[i])
    ensures r.Some? ==> |r.value| == 24
    ensures r.Some? ==> forall i :: 0 <= i < 24 ==> '0' <= r.value[i] <= '9' || 'a' <= r.value[i] <= 'f'
  {
    if |s| == 24 && forall i :: 0 <= i < |s| ==> IsHexDigit(s[i])
    then Some(seq(24, i requires 0 <= i < 24 => LowerHex(s[i])))
    else None
  }

  /** An id in canonical form parses to itself. */
  lemma ParseCanonicalId(s: string)
    requires |s| == 24 && forall i :: 0 <= i < 24 ==> '0' <= s[i] <= '9' || 'a' <= s[i] <= 'f'
    ensures ParseObjectId(s) == Some(s)
  {
    assert forall i :: 0 <= i < 24 ==> IsHexDigit(s[i]);
    assert seq(24, i requires 0 <= i < 24 => LowerHex(s[i])) == s;
  }

  // ---------------------------------------------------------------------
  // Saved posts
  // ---------------------------------------------------------------------

  /** The filter `{"_id": oid, "user_email": email}`: the first matching document. */
  function FindOwned(posts: seq<PostDoc>, oid: string, email: string): (r: Option<nat>)
    ensures r.Some? ==> r.value < |posts| && posts[r.value].id == oid && posts[r.value].userEmail == email
    ensures r.Some? ==> forall j :: 0 <= j < r.value ==> !(posts[j].id == oid && posts[j].userEmail == email)
    ensures r.None? <==> forall j :: 0 <= j < |posts| ==> !(posts[j].id == oid && posts[j].userEmail == email)
  {
    if posts == [] then None
    else if posts[0].id == oid && posts[0].userEmail == email then Some(0)
    else match FindOwned(posts[1..], oid, email)
      case Some(k) => Some(k + 1)
      case None => None
  }

  /** A post owned by someone else is never found, whatever its id. */
  lemma OthersPostsNotFound(posts: seq<PostDoc>, oid: string, email: string, k: nat)
    requires k < |posts| && posts[k].id == oid && posts[k].userEmail != email
    ensures FindOwned(posts, oid, email) != Some(k)
  {
  }

  /** `PostDoc` after `{"$set": update_data}` of `update_post`. */
  function ApplyUpdate(p: PostDoc, content: Option<string>, tags: Option<seq<string>>,
                       status: Option<string>, now: int): (r: PostDoc)
    ensures r.id == p.id && r.userEmail == p.userEmail && r.createdAt == p.createdAt
    ensures r.updatedAt == now
    ensures r.content == (if content.Some? then content.value else p.content)
    ensures r.characterCount == (if content.Some? then |content.value| else p.characterCount)
    ensures r.tags == (if tags.Some? then tags.value else p.tags)
    ensures r.status == (if status.Some? then status.value else p.status)
  {
    var q := p.(updatedAt := now);
    var q := if content.Some? then q.(content := content.value, characterCount := |content.value|) else q;
    var q := if tags.Some? then q.(tags := tags.value) else q;
    if status.Some? then q.(status := status.value) else q
  }

  /** An update whose fields are all None changes only `updated_at`. */
  lemma EmptyUpdateOnlyTouches(p: PostDoc, now: int)
    ensures ApplyUpdate(p, None, None, None, now) == p.(updatedAt := now)
  {
  }

  /** Whether `status and status in [...]` holds for an optional query parameter. */
  predicate StatusFilterApplies(status: Option<string>) {
    status.Some? && status.value != "" && status.value in ValidStatuses
  }

  /** Whether `if search:` holds. */
  predicate SearchApplies(search: Option<string>) {
    search.Some? && search.value != ""
  }

  /** The query of `get_posts`; `matches(pattern, text)` is MongoDB's case-insensitive `$regex`. */
  predicate Matches(p: PostDoc, email: string, status: Option<string>, search: Option<string>,
                    matches: (string, string) -> bool)
    ensures Matches(p, email, status, search, matches) ==> p.userEmail == email
    ensures !StatusFilterApplies(status) && !SearchApplies(search)
            ==> (Matches(p, email, status, search, matches) <==> p.userEmail == email)
  {
    p.userEmail == email
    && (StatusFilterApplies(status) ==> p.status == status.value)
    && (SearchApplies(search) ==> matches(search.value, p.content))
  }

  /** The documents the query selects, in the collection's natural order. */
  function Select(posts: seq<PostDoc>, email: string, status: Option<string>, search: Option<string>,
                  matches: (string, string) -> bool): (r: seq<PostDoc>)
    ensures |r| <= |posts|
    ensures forall p :: p in r <==> p in posts && Matches(p, email, status, search, matches)
    ensures multiset(r) <= multiset(posts)
  {
    if posts == [] then []
    else
      var rest := Select(posts[1..], email, status, search, matches);
      assert posts == [posts[0]] + posts[1..];
      if Matches(posts[0], email, status, search, matches) then [posts[0]] + rest else rest
  }

  predicate NewestFirst(xs: seq<PostDoc>) {
    forall i, j :: 0 <= i < j < |xs| ==> xs[i].createdAt >= xs[j].createdAt
  }

  /** Inserts `p` after every post at least as new, keeping the order of the others. */
  function InsertByDate(xs: seq<PostDoc>, p: PostDoc): (r: seq<PostDoc>)
    requires NewestFirst(xs)
    ensures NewestFirst(r)
    ensures multiset(r) == multiset(xs) + multiset{p}
    ensures |r| == |xs| + 1
  {
    if xs == [] then [p]
    else if xs[0].createdAt >= p.createdAt then
      var rest := InsertByDate(xs[1..], p);
      assert xs == [xs[0]] + xs[1..];
      HeadStaysNewest(xs[0], xs[1..], p, rest);
      [xs[0]] + rest
    else
      NewerHeadStaysNewest(p, xs);
      [p] + xs
  }

  lemma NewerHeadStaysNewest(p: PostDoc, xs: seq<PostDoc>)
    requires NewestFirst(xs) && xs != [] && xs[0].createdAt < p.createdAt
    ensures NewestFirst([p] + xs)
  {
    var ys := [p] + xs;
    forall i, j | 0 <= i < j < |ys| ensures ys[i].createdAt >= ys[j].createdAt {
      if i == 0 {
        assert ys[j] == xs[j - 1];
      } else {
        assert ys[i] == xs[i - 1] && ys[j] == xs[j - 1];
      }
    }
  }

  lemma HeadStaysNewest(x: PostDoc, tail: seq<PostDoc>, p: PostDoc, rest: seq<PostDoc>)
    requires NewestFirst([x] + tail) && x.createdAt >= p.createdAt
    requires NewestFirst(rest) && multiset(rest) == multiset(tail) + multiset{p}
    ensures NewestFirst([x] + rest)
  {
    forall j | 0 <= j < |rest| ensures x.createdAt >= rest[j].createdAt {
      assert rest[j] in multiset(rest);
      if rest[j] != p {
        assert multiset(rest)[rest[j]] == multiset(tail)[rest[j]] + multiset{p}[rest[j]];
        assert rest[j] in multiset(tail);
        assert rest[j] in tail;
        var i :| 0 <= i < |tail| && tail[i] == rest[j];
        var xs := [x] + tail;
        assert xs[0] == x && xs[i + 1] == tail[i];
        assert xs[0].createdAt >= xs[i + 1].createdAt;
      }
    }
  }

  /** `.sort("created_at", -1)`; posts created at the same time keep the order the model chooses. */
  function SortNewestFirst(xs: seq<PostDoc>): (r: seq<PostDoc>)
    ensures NewestFirst(r)
    ensures multiset(r) == multiset(xs)
    ensures |r| == |xs|
  {
    if xs == [] then []
    else
      var init := xs[..|xs| - 1];
      assert xs == init + [xs[|xs| - 1]];
      InsertByDate(SortNewestFirst(init), xs[|xs| - 1])
  }

  /** `.skip(offset).limit(limit)` for offset >= 0: a limit of 0 means none, a negative one its absolute value. */
  function Window<T>(xs: seq<T>, offset: nat, limit: int): (r: seq<T>)
    ensures offset <= |xs| ==> offset + |r| <= |xs| && r == xs[offset..offset + |r|]
    ensures limit != 0 ==> |r| <= if limit < 0 then -limit else limit
    ensures offset >= |xs| ==> r == []
  {
    var rest := if offset <= |xs| then xs[offset..] else [];
    var n := if limit < 0 then -limit else limit;
    if limit == 0 || n >= |rest| then rest else rest[..n]
  }

  datatype PostsPage = PostsPage(posts: seq<PostDoc>, total: int, limit: int, offset: int, hasMore: bool)

  /**
   * `GET /posts`: the caller's posts, filtered by a valid status and the
   * search pattern, newest first, one page of them. A search text the
   * database cannot compile as a regular expression (`patternValid` false)
   * makes `count_documents` fail, and a negative offset makes `skip` raise;
   * the route catches neither.
   */
  function GetPosts(posts: seq<PostDoc>, email: string, status: Option<string>, search: Option<string>,
                    limit: int, offset: int, matches: (string, string) -> bool,
                    patternValid: string -> bool): (r: Response<PostsPage>)
    ensures r.Err? <==> offset < 0 || (SearchApplies(search) && !patternValid(search.value))
    ensures r.Err? ==> r.status == 500
    ensures r.Ok? ==> forall p :: p in r.value.posts ==> p in posts && Matches(p, email, status, search, matches)
    ensures r.Ok? ==> NewestFirst(r.value.posts)
    ensures r.Ok? ==> r.value.total == |Select(posts, email, status, search, matches)|
  {
    var selected := Select(posts, email, status, search, matches);
    var total := |selected|;
    if (SearchApplies(search) && !patternValid(search.value)) || offset < 0 then Err(500, "Internal Server Error")
    else
      var sorted := SortNewestFirst(selected);
      var page := Window(sorted, offset, limit);
      PageOfSorted(selected, sorted, offset, limit);
      Ok(PostsPage(page, total, limit, offset, offset + limit < total))
  }

  /** A page of a newest-first ordering of `selected` is newest first and holds only selected posts. */
  lemma PageOfSorted(selected: seq<PostDoc>, sorted: seq<PostDoc>, offset: nat, limit: int)
    requires NewestFirst(sorted) && multiset(sorted) == multiset(selected)
    ensures NewestFirst(Window(sorted, offset, limit))
    ensures forall p :: p in Window(sorted, offset, limit) ==> p in selected
  {
    var page := Window(sorted, offset, limit);
    forall p | p in page ensures p in selected {
      assert p in sorted;
      assert p in multiset(sorted);
    }
  }

  /** Only posts of the caller are ever listed, and a valid status narrows the list to that status. */
  lemma ListsOnlyOwnPosts(posts: seq<PostDoc>, email: string, status: Option<string>, search: Option<string>,
                          limit: int, offset: int, matches: (string, string) -> bool,
                          patternValid: string -> bool, p: PostDoc)
    requires GetPosts(posts, email, status, search, limit, offset, matches, patternValid).Ok?
    requires p in GetPosts(posts, email, status, search, limit, offset, matches, patternValid).value.posts
    ensures p.userEmail == email
    ensures status.Some? && status.value in ValidStatuses ==> p.status == status.value
  {
  }

  /** An unknown status does not filter at all: the caller's posts are listed as with no status. */
  lemma UnknownStatusIgnored(posts: seq<PostDoc>, email: string, status: string, search: Option<string>,
                             limit: int, offset: int, matches: (string, string) -> bool,
                             patternValid: string -> bool)
    requires status !in ValidStatuses
    ensures GetPosts(posts, email, Some(status), search, limit, offset, matches, patternValid)
            == GetPosts(posts, email, None, search, limit, offset, matches, patternValid)
  {
    assert forall p :: Matches(p, email, Some(status), search, matches) == Matches(p, email, None, search, matches);
    SelectSameQuery(posts, email, Some(status), None, search, matches);
  }

  lemma {:induction false} SelectSameQuery(posts: seq<PostDoc>, email: string, s1: Option<string>, s2: Option<string>,
                                           search: Option<string>, matches: (string, string) -> bool)
    requires forall p :: Matches(p, email, s1, search, matches) == Matches(p, email, s2, search, matches)
    ensures Select(posts, email, s1, search, matches) == Select(posts, email, s2, search, matches)
  {
    if posts != [] {
      SelectSameQuery(posts[1..], email, s1, s2, search, matches);
    }
  }

  /**
   * With a positive limit and an offset inside the result, `has_more` says
   * exactly whether posts remain after the page.
   */
  lemma HasMoreIffPostsRemain(posts: seq<PostDoc>, email: string, status: Option<string>, search: Option<string>,
                              limit: int, offset: int, matches: (string, string) -> bool,
                              patternValid: string -> bool)
    requires limit > 0 && offset >= 0
    requires SearchApplies(search) ==> patternValid(search.value)
    requires offset <= |Select(posts, email, status, search, matches)|
    ensures var r := GetPosts(posts, email, status, search, limit, offset, matches, patternValid);
            r.Ok? && (r.value.hasMore <==> offset + |r.value.posts| < r.value.total)
  {
  }

  /** `len(content)` */
  function CharacterCount(content: string): (n: nat)
    ensures n == |content|
  {
    |content|
  }

  // ---------------------------------------------------------------------
  // Post generation
  // ---------------------------------------------------------------------

  /**
   * The target length of `generate_post_stream`: "short" 300 words, "long"
   * 800, and 500 for "medium", for any other value and for a user without
   * a profile preference.
   */
  function PostLength(profile: Option<map<string, PyValue>>): (r: string)
    ensures r in {"300", "500", "800"}
    ensures r == "300" <==> profile.Some? && "preferred_post_length" in profile.value
                            && profile.value["preferred_post_length"] == PStr("short")
    ensures r == "800" <==> profile.Some? && "preferred_post_length" in profile.value
                            && profile.value["preferred_post_length"] == PStr("long")
  {
    if profile.Some? && "preferred_post_length" in profile.value then
      var v := profile.value["preferred_post_length"];
      if v == PStr("short") then "300"
      else if v == PStr("medium") then "500"
      else if v == PStr("long") then "800"
      else "500"
    else "500"
  }

  /** What the prompt of `generate_post_stream` is built from. */
  datatype GenerationInput = GenerationInput(template: Template, hook: PyValue, userInput: string, postLength: string)

  /**
   * The checks of `POST /generate_linkedin_post/stream`, in order: a selected
   * template, stored hooks, a selected hook and a hook number in range. The
   * last never fails, because `select_hook` only stores numbers in range and
   * a new hook list replaces the whole record.
   */
  function GenerationRequest(selected: Option<Template>, userHooks: map<string, HookRecord>,
                             caller: UserDoc): (r: Response<GenerationInput>)
    requires forall e :: e in userHooks ==> RecordValid(userHooks[e])
    ensures r.Ok? <==> selected.Some? && caller.email in userHooks
                       && userHooks[caller.email].selectedHookNumber.Some?
    ensures r.Err? ==> r.status == 400
    ensures r.Ok? ==> r.value.template == selected.value
                      && r.value.userInput == userHooks[caller.email].userInput
                      && r.value.postLength == PostLength(caller.profile)
    ensures r.Ok? ==> var rec := userHooks[caller.email];
                      IsSequence(rec.hooks) && 1 <= rec.selectedHookNumber.value <= PyLen(rec.hooks)
                      && r.value.hook == ItemAt(rec.hooks, rec.selectedHookNumber.value - 1)
  {
    if selected.None? then Err(400, "No template selected. Please select a template first.")
    else if caller.email !in userHooks then Err(400, "No hooks generated. Please generate hooks first.")
    else
      var rec := userHooks[caller.email];
      assert RecordValid(rec);
      if rec.selectedHookNumber.None? then Err(400, "No hook selected. Please select a hook first.")
      else
        var n := rec.selectedHookNumber.value;
        if n < 1 || n > PyLen(rec.hooks) then Err(400, "Invalid hook number")
        else Ok(GenerationInput(selected.value, ItemAt(rec.hooks, n - 1), rec.userInput,
                                PostLength(caller.profile)))
  }

  /**
   * Generating hooks again replaces the user's record without a selected
   * hook, so generation is refused until a hook is selected anew.
   */
  lemma RegeneratedHooksNeedNewSelection(selected: Option<Template>, userHooks: map<string, HookRecord>,
                                         caller: UserDoc, hooks: PyValue, userInput: string)
    requires selected.Some?
    requires forall e :: e in userHooks ==> RecordValid(userHooks[e])
    requires IsSequence(hooks) && PyLen(hooks) <= 5
    ensures var after := userHooks[caller.email := HookRecord(hooks, userInput, None)];
            GenerationRequest(selected, after, caller) == Err(400, "No hook selected. Please select a hook first.")
  {
    var after := userHooks[caller.email := HookRecord(hooks, userInput, None)];
    assert forall e :: e in after ==> RecordValid(after[e]);
  }

  // ---------------------------------------------------------------------
  // One-time passwords
  // ---------------------------------------------------------------------

  /** `str(n)` of a draw of `random.randint(100000, 999999)`: six decimal digits that read back as the draw. */
  lemma OtpIsSixDigits(n: int)
    requires 100000 <= n <= 999999
    ensures |DecimalString(n)| == 6 && AllDigits(DecimalString(n))
    ensures DigitsValue(DecimalString(n)) == n
  {
    assert Pow10(5) == 100000 && Pow10(6) == 1000000;
    DecimalLength(n, 6);
    DecimalRoundTrip(n);
  }

  datatype OtpSent = OtpSent(purpose: string)

  /** The purposes for which `generate_otp` insists that the email be registered. */
  predicate NeedsAccount(purpose: string) {
    purpose == "login" || purpose == "reset_password"
  }

  // ---------------------------------------------------------------------
  // The stores and the handlers that change them
  // ---------------------------------------------------------------------

  class Backend {
    /** `users`, by email. */
    var users: map<string, UserDoc>
    /** `saved_posts`, in natural order. */
    var posts: seq<PostDoc>
    /** `otp_store` */
    var otpStore: map<string, OtpEntry>

    ghost predicate Valid()
      reads this
    {
      forall e :: e in users ==> users[e].email == e
    }

    constructor()
      ensures Valid()
      ensures users == map[] && posts == [] && otpStore == map[]
    {
      users := map[];
      posts := [];
      otpStore := map[];
    }

    /** `POST /signup`; `token` is the draw of `secrets.token_hex(32)`, made before the check. */
    method Signup(name: string, email: string, password: string, mobile: string, token: string)
      returns (r: Response<string>)
      requires Valid()
      modifies this
      ensures Valid()
      ensures r.Err? <==> email in old(users)
      ensures r.Err? ==> r == Err(400, "Email already exists") && users == old(users)
      ensures r.Ok? ==> r.value == token
                        && users == old(users)[email := UserDoc(name, email, password, mobile, Some(token), None)]
      ensures posts == old(posts) && otpStore == old(otpStore)
    {
      if email in users {
        return Err(400, "Email already exists");
      }
      users := users[email := UserDoc(name, email, password, mobile, Some(token), None)];
      r := Ok(token);
    }

    /**
     * `POST /login`. An existing non-empty bearer token is handed out again;
     * otherwise `freshToken`, the draw of `secrets.token_hex(32)`, is stored.
     */
    method Login(email: string, password: string, freshToken: string) returns (r: Response<string>)
      requires Valid()
      modifies this
      ensures Valid()
      ensures r.Err? <==> email !in old(users) || old(users)[email].password != password
      ensures r.Err? ==> r == Err(401, "Invalid credentials") && users == old(users)
      ensures r.Ok? ==> var u := old(users)[email];
              if u.bearerToken.Some? && u.bearerToken.value != ""
              then r.value == u.bearerToken.value && users == old(users)
              else r.value == freshToken && users == old(users)[email := u.(bearerToken := Some(freshToken))]
      ensures posts == old(posts) && otpStore == old(otpStore)
    {
      if email !in users || users[email].password != password {
        return Err(401, "Invalid credentials");
      }
      var u := users[email];
      if u.bearerToken.None? || u.bearerToken.value == "" {
        users := users[email := u.(bearerToken := Some(freshToken))];
        r := Ok(freshToken);
      } else {
        r := Ok(u.bearerToken.value);
      }
    }

    /**
     * `POST /generate-otp`. `draw` is the value of `random.randint(100000,
     * 999999)` and `now` the value of `time.time()`. Sending the email always
     * succeeds.
     */
    method GenerateOtp(email: string, purpose: string, draw: int, now: int) returns (r: Response<OtpSent>)
      requires Valid()
      requires 100000 <= draw <= 999999
      modifies this
      ensures Valid()
      ensures purpose == "signup" && email in old(users)
              ==> r == Err(400, "Email already registered. Please login instead.")
      ensures NeedsAccount(purpose) && email !in old(users)
              ==> r == Err(404, "Account not found. Please sign up first.")
      ensures r.Ok? <==> !(purpose == "signup" && email in old(users)) && !(NeedsAccount(purpose) && email !in old(users))
      ensures r.Ok? ==> r.value == OtpSent(purpose)
                        && otpStore == old(otpStore)[email := OtpEntry(DecimalString(draw), purpose, now)]
      ensures r.Err? ==> otpStore == old(otpStore)
      ensures users == old(users) && posts == old(posts)
    {
      if purpose == "signup" {
        if email in users {
          return Err(400, "Email already registered. Please login instead.");
        }
      } else if NeedsAccount(purpose) {
        if email !in users {
          return Err(404, "Account not found. Please sign up first.");
        }
      }
      var otp := DecimalString(draw);
      otpStore := otpStore[email := OtpEntry(otp, purpose, now)];
      r := Ok(OtpSent(purpose));
    }

    /**
     * `PUT /posts/{post_id}` for the caller `email`. Every failure inside the
     * handler, an invalid status and a missing post included, is turned into
     * 400 "Invalid post ID" by its `except Exception`.
     */
    method UpdatePost(email: string, postId: string, content: Option<string>, tags: Option<seq<string>>,
                      status: Option<string>, now: int) returns (r: Response<string>)
      modifies this
      ensures r.Ok? <==> (status.None? || status.value in ValidStatuses)
                         && ParseObjectId(postId).Some?
                         && FindOwned(old(posts), ParseObjectId(postId).value, email).Some?
      ensures r.Err? ==> r == Err(400, InvalidPostId) && posts == old(posts)
      ensures r.Ok? ==> r.value == "Post updated successfully"
                        && var k := FindOwned(old(posts), ParseObjectId(postId).value, email).value;
                           posts == old(posts)[k := ApplyUpdate(old(posts)[k], content, tags, status, now)]
      ensures users == old(users) && otpStore == old(otpStore)
    {
      if status.Some? && status.value !in ValidStatuses {
        return Err(400, InvalidPostId);
      }
      var oid := ParseObjectId(postId);
      if oid.None? {
        return Err(400, InvalidPostId);
      }
      var k := FindOwned(posts, oid.value, email);
      if k.None? {
        return Err(400, InvalidPostId);
      }
      posts := posts[k.value := ApplyUpdate(posts[k.value], content, tags, status, now)];
      r := Ok("Post updated successfully");
    }

    /** `PATCH /posts/{post_id}/status`: the status is checked before anything else. */
    method UpdatePostStatus(email: string, postId: string, status: string, now: int) returns (r: Response<string>)
      modifies this
      ensures status !in ValidStatuses
              ==> r == Err(400, "Invalid status. Must be one of: ['draft', 'published', 'favorite', 'archived']")
      ensures r.Ok? <==> status in ValidStatuses && ParseObjectId(postId).Some?
                         && FindOwned(old(posts), ParseObjectId(postId).value, email).Some?
      ensures status in ValidStatuses && r.Err? ==> r == Err(400, InvalidPostId)
      ensures r.Err? ==> posts == old(posts)
      ensures r.Ok? ==> r.value == "Post marked as " + status
                        && var k := FindOwned(old(posts), ParseObjectId(postId).value, email).value;
                           posts == old(posts)[k := old(posts)[k].(status := status, updatedAt := now)]
      ensures users == old(users) && otpStore == old(otpStore)
    {
      if status !in ValidStatuses {
        return Err(400, "Invalid status. Must be one of: ['draft', 'published', 'favorite', 'archived']");
      }
      var oid := ParseObjectId(postId);
      if oid.None? {
        return Err(400, InvalidPostId);
      }
      var k := FindOwned(posts, oid.value, email);
      if k.None? {
        return Err(400, InvalidPostId);
      }
      posts := posts[k.value := posts[k.value].(status := status, updatedAt := now)];
      r := Ok("Post marked as " + status);
    }

    /** `DELETE /posts/{post_id}`: removes the first of the caller's posts with that id. */
    method DeletePost(email: string, postId: string) returns (r: Response<string>)
      modifies this
      ensures r.Ok? <==> ParseObjectId(postId).Some?
                         && FindOwned(old(posts), ParseObjectId(postId).value, email).Some?
      ensures r.Err? ==> r == Err(400, InvalidPostId) && posts == old(posts)
      ensures r.Ok? ==> r.value == "Post deleted successfully"
                        && var k := FindOwned(old(posts), ParseObjectId(postId).value, email).value;
                           posts == old(posts)[..k] + old(posts)[k + 1..]
      ensures users == old(users) && otpStore == old(otpStore)
    {
      var oid := ParseObjectId(postId);
      if oid.None? {
        return Err(400, InvalidPostId);
      }
      var k := FindOwned(posts, oid.value, email);
      if k.None? {
        return Err(400, InvalidPostId);
      }
      posts := posts[..k.value] + posts[k.value + 1..];
      r := Ok("Post deleted successfully");
    }

    /** `GET /posts/{post_id}`: the caller's post with that id. */
    method GetPostById(email: string, postId: string) returns (r: Response<PostDoc>)
      ensures r.Ok? ==> r.value in posts && r.value.userEmail == email
                        && Some(r.value.id) == ParseObjectId(postId)
      ensures r.Err? ==> r == Err(400, InvalidPostId)
      ensures r.Err? <==> ParseObjectId(postId).None?
                          || forall p :: p in posts ==> !(Some(p.id) == ParseObjectId(postId) && p.userEmail == email)
    {
      var oid := ParseObjectId(postId);
      if oid.None? {
        return Err(400, InvalidPostId);
      }
      var k := FindOwned(posts, oid.value, email);
      if k.None? {
        return Err(400, InvalidPostId);
      }
      r := Ok(posts[k.value]);
    }
  }
}
