# A Dafny model of the AiOne LinkedIn post generator

AiOne helps healthcare professionals write LinkedIn posts. A FastAPI
backend keeps users, saved posts and one-time passwords, asks a language
model for post hooks and streams generated posts. A Next.js frontend walks
new users through an onboarding wizard, gates the app on a complete
profile, handles signup, login, OTP entry and password reset, and offers a
rich-text editor and canned post templates.

This project models the logic of that system and proves what it promises:

- **Backend.** `Healthcare.Service` is the backend's single `Healthcare`
  object: its template catalogue, the one shared selected template, and the
  per-user hook records written by `generate_hooks` and `select_hook`.
  `Server.Backend` holds the users, the saved posts and the OTP store. Its
  methods are the `signup`, `login`, `generate_otp`, `update_post`,
  `update_post_status`, `delete_post` and `get_post_by_id` routes.
  `get_posts` and the checks of `generate_post_stream` are functions over
  the same data.
- **Onboarding.** `ProfileForm` is the profile form both wizards share: its
  fields, the per-step required lists, `toggleMulti`, `toPayload` and the
  merge of a fetched profile. `OnboardingFormNew.Wizard` and
  `OnboardingFormOld.Wizard` are the two wizard components, each with its
  own notion of a missing field. `OnboardingGate` is the `useOnboardingGate`
  hook. `OnboardingStatus` is the `localStorage` completion flag, kept in
  `BrowserState.Browser`.
- **Authentication.** `PasswordRule` is the shared password regular
  expression and the zod issue list. The other modules are the components:
  `SignupForm`, `ChangePassword`, `OtpVerification.OtpInput` (six slots in
  an array), `ResetPassword.ResetFlow`, `AuthForm.AuthPage` and
  `LoginForm.LoginPage`.
- **Content.** `FormatText` is `formatTextToHtml`, with its regular
  expressions written out as functions. `PostTemplates` is
  `generatePosts`. `RichTextEditor.Editor` holds the editor's state and
  records the DOM commands it issues.

`JsText` and `JsValues` define the JavaScript and Python semantics the
model relies on. These are the white-space classes of `trim()`, `\s` and
`str.strip()`, truthiness and nullishness, `String(v)` and `Number(s)`.

Effects outside the program become parameters. These are the HTTP
outcome, the language model's reply, the JSON decoder, the clock, random
draws, zod's e-mail check and MongoDB's regex search.

## Model

| member | source | states |
|---|---|---|
| JsText.TrimStartBy | frontend/src/components/authentication/SignupForm.tsx:57 | the result is a suffix of the input; every dropped character is white space and the result does not start with one |
| JsText.TrimEndBy | frontend/src/components/authentication/SignupForm.tsx:65 | the result is a prefix of the input; every dropped character is white space and the result does not end with one |
| JsText.TrimIsInfix | frontend/src/components/authentication/SignupForm.tsx:36 | `trim()` returns a slice `s[a..b]` with only white space outside it, and the slice neither starts nor ends with white space |
| JsText.TrimBounds | frontend/src/components/onboarding/OnboardingFormNew.tsx:133 | returns the bounds `a <= b` of the trimmed slice, with only white space before `a` and after `b` |
| JsText.TrimEmptyIffAllSpace | frontend/src/components/onboarding/OnboardingFormNew.tsx:133 | a string trims to the empty string exactly when every character of it is white space |
| JsText.RemoveSpaces | frontend/src/components/post-generator/RichTextEditor.tsx:51 | `replace(/\s+/g, '')` leaves no white space and never lengthens; a one-character string is dropped exactly when it is white space, and a space-free string is unchanged |
| JsText.RemoveSpacesAppend | frontend/src/components/post-generator/RichTextEditor.tsx:51 | removal distributes over concatenation; with the one-character case this makes the result the non-space characters in their order |
| JsText.RemoveSpacesIdempotent | frontend/src/components/post-generator/RichTextEditor.tsx:51 | removing white space twice is the same as removing it once |
| JsText.KeepDigits | frontend/src/components/authentication/SignupForm.tsx:76-77 | `replace(/\D/g, "")` leaves only digits and never lengthens; a one-character string is kept exactly when it is a digit, and a digit string is unchanged |
| JsText.KeepDigitsAppend | frontend/src/components/authentication/SignupForm.tsx:76-77 | keeping digits distributes over concatenation, so the result is the digits of the input in their order |
| JsText.Concat | frontend/src/components/authentication/OtpVerification.tsx:68 | `join("")` of no parts is empty and of one part is that part |
| JsText.ConcatAppend | frontend/src/components/authentication/OtpVerification.tsx:68 | `join("")` of two lists put together is the join of each, side by side |
| JsText.DecimalString | backend/main.py:680 | `str(n)` of a natural number is a non-empty digit string, one digit long exactly when `n < 10` |
| JsText.DecimalRoundTrip | backend/main.py:680 | reading back the digits of `str(n)` gives `n` |
| JsText.DecimalLength | backend/main.py:680 | a number in `[10^(d-1), 10^d)` prints with exactly `d` digits |
| JsValues.Coalesce | frontend/src/components/onboarding/OnboardingFormNew.tsx:151 | `v ?? fallback` is `v` unless `v` is null or undefined, and `fallback` when it is |
| JsValues.Member | frontend/src/components/onboarding/OnboardingFormNew.tsx:151 | `data.k` is the stored value when the object has the key, and undefined when it lacks it or is not an object |
| JsValues.Truthy | frontend/src/components/onboarding/OnboardingFormNew.tsx:155 | the falsy values are exactly undefined, null, false, NaN, 0 and the empty string |
| JsValues.ToJsString | frontend/src/components/onboarding/OnboardingFormNew.tsx:133 | `String(v)` of a string is the string; of an empty array the empty string; of a one-string array that string |
| JsValues.StringToNumber | frontend/src/components/onboarding/OnboardingFormNew.tsx:131 | `Number(s)` of a blank string is 0; a number is read only from text whose trimmed end is a digit, and a negative one only from text starting with `-` |
| JsValues.ToNumber | frontend/src/components/onboarding/OnboardingFormNew.tsx:131 | `Number(v)` of a string reads the string; of an empty array is 0; of an object is NaN |
| JsValues.NumberStringRoundTrip | frontend/src/components/onboarding/OnboardingFormNew.tsx:131 | `Number(String(i))` is `i` for every integer |
| JsValues.ObjectTextIsNaN | frontend/src/components/onboarding/OnboardingFormNew.tsx:131 | `Number("[object Object]")` is NaN |
| JsValues.StrBlankIffSpaces | frontend/src/hooks/use-onboardingGate.tsx:43 | `!String(s).trim()` holds for a string exactly when it is all white space |
| JsValues.NonStringsNotBlank | frontend/src/hooks/use-onboardingGate.tsx:43 | numbers, booleans, objects, `null` and `undefined` never stringify to a blank string ("0", "false", "[object Object]", "null", "undefined") |
| BrowserState.Browser.SetToken | frontend/src/components/authentication/LoginForm.tsx:68-70 | storing the cookie token sets it and leaves `localStorage` unchanged |
| Healthcare.CatalogueShape | backend/healthcare.py:57-63 | exactly five templates, numbered 1 to 5, named Standard, Formatted, Chunky, Short, Emojis in that order, each with style equal to its name |
| Healthcare.PyIndex | backend/healthcare.py:70 | Python indexing of a list of length `len` succeeds exactly for `-len <= i < len`; a negative index counts from the end |
| Healthcare.TemplateAt | backend/healthcare.py:70 | `list(self.templates.values())[n-1]` is template `n` for 1..5, wraps round for -4..0, and raises for every other `n` |
| Healthcare.TemplateNumberEdges | backend/healthcare.py:68-71 | number 0 selects Emojis, and every number above 5 raises |
| Healthcare.TakeFive | backend/healthcare.py:116 | `hooks[:5]` holds at most five items: a list or string of five or fewer is unchanged, a longer one keeps exactly its first five |
| Healthcare.AfterLastSpec | backend/healthcare.py:113 | `split('(')[-1]` is the suffix after the last `(` (all of the text when there is none) and holds no `(` |
| Healthcare.BeforeFirstSpec | backend/healthcare.py:113 | `split(')')[0]` is the prefix before the first `)` (all of the text when there is none) and holds no `)` |
| Healthcare.HookJsonTextOfWrapped | backend/healthcare.py:113 | for a reply `pre(json)post`, trimmed, with no parentheses inside `json` and no `(` after it, the extracted text is exactly `json` |
| Healthcare.HookJsonText | backend/healthcare.py:113 | the text cut out of a reply holds neither `(` nor `)` |
| Healthcare.ParseHooks | backend/healthcare.py:113-129 | a parsed reply keeps at most five hooks; a failed one returns a non-sequence or the empty list |
| Healthcare.FailuresReturnEmpty | backend/healthcare.py:125-129 | no reply, an undecodable text or a non-object JSON value all return `[]` |
| Healthcare.ListRepliesKeepFirstFive | backend/healthcare.py:115-116 | a reply whose `hooks` is a list returns its first five items |
| Healthcare.Service.constructor | backend/healthcare.py:56-66 | nothing selected and no hook records |
| Healthcare.Service.SelectTemplate | backend/healthcare.py:68-71 | succeeds exactly when the number indexes the list; then that template becomes the one shared selection and the message names it; otherwise nothing changes; hook records untouched |
| Healthcare.Service.GenerateHooks | backend/healthcare.py:90-129 | returns the parsed hooks (or the failure value); stores a fresh record `{hooks, user_input}` without a selected hook for a given email only after a successful parse; otherwise the records are untouched |
| Healthcare.Service.SelectHook | backend/healthcare.py:131-141 | succeeds exactly when the email has a record and `1 <= n <= len(hooks)`; then only that record's selected number changes; otherwise nothing changes |
| Healthcare.Service.UserHooks | backend/healthcare.py:143-145 | returns the record stored for the email, or None when there is none |
| Server.ParseObjectId | backend/main.py:395 | `ObjectId(post_id)` accepts exactly 24 hexadecimal digits, and gives the canonical lower-case form |
| Server.ParseCanonicalId | backend/main.py:395 | a canonical id parses to itself |
| Server.FindOwned | backend/main.py:394-400 | the first post with that id AND owned by the caller, or None exactly when the caller owns no post with that id |
| Server.OthersPostsNotFound | backend/main.py:415-427 | a post owned by another user is never the one found |
| Server.ApplyUpdate | backend/main.py:380-392 | `updated_at` always refreshed; content and `character_count = len(content)` set together; tags and status set only when given; id, owner and `created_at` kept |
| Server.EmptyUpdateOnlyTouches | backend/main.py:380-392 | an update with every field None only refreshes `updated_at` |
| Server.Select | backend/main.py:441-447 | keeps exactly the caller's posts that pass the status filter (only a valid status filters) and the search, without inventing any |
| Server.InsertByDate | backend/main.py:453 | inserting into a newest-first list keeps it newest-first and adds exactly one copy of the post |
| Server.SortNewestFirst | backend/main.py:453 | `sort('created_at', -1)` yields a newest-first permutation of its input |
| Server.Window | backend/main.py:453 | `skip(offset).limit(limit)` is a contiguous slice starting at `offset`, at most `abs(limit)` long for a non-zero limit, and empty past the end |
| Server.PageOfSorted | backend/main.py:453 | a window of a sorted permutation is newest-first and holds only selected posts |
| Server.GetPosts | backend/main.py:431-468 | fails with 500 exactly for a negative offset or a search text the database cannot compile as a pattern; otherwise every listed post is the caller's and matches the filters, the page is newest-first, and `total` counts every match |
| Server.Matches | backend/main.py:441-447 | a matching post is the caller's; with no usable status or search the query matches exactly the caller's posts |
| Server.ListsOnlyOwnPosts | backend/main.py:443-444 | a listed post belongs to the caller and, when a valid status is asked for, has it |
| Server.UnknownStatusIgnored | backend/main.py:443-444 | a status outside the four valid ones lists the same as no status |
| Server.HasMoreIffPostsRemain | backend/main.py:466 | for a positive limit, an offset within the matches and a usable search pattern, `has_more` (`offset + limit < total`) holds exactly when posts remain after the page |
| Server.PostLength | backend/main.py:287-294 | short gives 300, long gives 800, and every other case (medium, missing profile or key) gives 500 |
| Server.GenerationRequest | backend/main.py:258-294 | 400 unless a template is selected, the caller has hooks and a selected hook; otherwise the selected template, the selected hook (`hooks[n-1]`), the stored input and the length target |
| Server.RegeneratedHooksNeedNewSelection | backend/healthcare.py:119-123 | after the caller's hooks are regenerated, post generation fails with "No hook selected" until a hook is chosen again |
| Server.OtpIsSixDigits | backend/main.py:680 | a number drawn from 100000..999999 prints as six digits that read back to it |
| Server.Backend.constructor | backend/main.py:91-102 | empty users, posts and OTP store |
| Server.Backend.Signup | backend/main.py:525-532 | 400 "Email already exists" exactly for a registered email, changing nothing; otherwise stores the new user with the issued token and returns it |
| Server.Backend.Login | backend/main.py:569-583 | 401 exactly for an unknown email or a wrong password; otherwise returns the stored non-empty token unchanged, or stores and returns the fresh one |
| Server.Backend.GenerateOtp | backend/main.py:664-695 | signup with a registered email gives 400; login or reset with an unknown email gives 404; otherwise the six-digit OTP replaces any earlier entry for the email, with purpose and time; users and posts untouched |
| Server.Backend.UpdatePost | backend/main.py:372-405 | succeeds exactly for a valid (or absent) status, a well-formed id and a post the caller owns, which alone is updated; every failure is 400 "Invalid post ID" and changes nothing |
| Server.Backend.UpdatePostStatus | backend/main.py:495-522 | an invalid status is rejected with 400 before storage is touched; otherwise only the caller's post gets the status and a fresh `updated_at`; a bad id or a foreign post gives 400 "Invalid post ID" |
| Server.Backend.DeletePost | backend/main.py:409-427 | removes exactly the caller's post with that id; a bad id or a foreign post gives 400 "Invalid post ID" and changes nothing |
| Server.Backend.GetPostById | backend/main.py:472-491 | returns a post with that id owned by the caller; 400 "Invalid post ID" exactly when the id is malformed or the caller owns no such post |
| ProfileForm.Set | frontend/src/components/onboarding/OnboardingFormNew.tsx:378-739 | a field update sets that field and leaves every other field as it was |
| ProfileForm.StepFields | frontend/src/components/onboarding/OnboardingFormNew.tsx:231-248 | every step's fields are required fields; an index outside 0..6 requires nothing |
| ProfileForm.StepsPartitionRequired | frontend/src/components/onboarding/OnboardingFormNew.tsx:70-83 | the step lists for 0..6, concatenated, are exactly `REQUIRED`, and steps 3, 4 and 6 are empty |
| ProfileForm.InitialFormWellFormed | frontend/src/components/onboarding/OnboardingFormNew.tsx:46-68 | the initial form has list-valued goals and preferences and a null years value |
| ProfileForm.SaveErrorMessage | frontend/src/components/onboarding/OnboardingFormNew.tsx:211-214 | the first truthy of the response's `message`, its `error`, the error's own message and the fallback text, in that order; the result is always truthy |
| ProfileForm.Humanize | frontend/src/components/onboarding/OnboardingFormNew.tsx:262 | `replace(/_/g, ' ')` keeps the length, turns every underscore into a space and keeps every other character |
| ProfileForm.Keys | frontend/src/components/onboarding/OnboardingFormNew.tsx:189 | the field names, one per field, in order |
| ProfileForm.Dedup | frontend/src/components/onboarding/OnboardingFormNew.tsx:223 | `new Set(xs)` as a list: same members, no duplicates, and unchanged when there were none |
| ProfileForm.DedupFirstOccurrenceOrder | frontend/src/components/onboarding/OnboardingFormNew.tsx:223 | `Array.from(new Set(xs))` lists the values in the order of their first occurrences in `xs` |
| ProfileForm.Remove | frontend/src/components/onboarding/OnboardingFormNew.tsx:224 | removes the value and keeps every other member |
| ProfileForm.Toggle | frontend/src/components/onboarding/OnboardingFormNew.tsx:221-228 | flips the value's membership, keeps every other member, has no duplicates, and on a duplicate-free list removes in place or appends at the end |
| ProfileForm.ToggleTwice | frontend/src/components/onboarding/OnboardingFormNew.tsx:221-228 | toggling an absent value twice restores the list |
| ProfileForm.RemoveAt | frontend/src/components/onboarding/OnboardingFormNew.tsx:224 | on a list without duplicates, deleting a member cuts out exactly its slot and keeps the others in order |
| ProfileForm.RemoveLast | frontend/src/components/onboarding/OnboardingFormNew.tsx:224 | removing a value just appended restores the list |
| ProfileForm.ToPayload | frontend/src/components/onboarding/OnboardingFormNew.tsx:102-124 | every field copied unchanged except `years_experience`, which becomes 0 when falsy |
| ProfileForm.PayloadYears | frontend/src/components/onboarding/OnboardingFormNew.tsx:106 | the sent years value is a number, and is 0 exactly for null, NaN or 0 |
| ProfileForm.PayloadObject | frontend/src/components/onboarding/OnboardingFormNew.tsx:197 | the JSON body sent to the save call is an object |
| ProfileForm.PayloadObjectCarries | frontend/src/components/onboarding/OnboardingFormNew.tsx:102-124 | the body carries every payload field under its snake-case key |
| ProfileForm.SplitCommaWs | frontend/src/components/onboarding/OnboardingFormNew.tsx:164 | `split(/,\s*/)` gives at least one part, no part holds a comma, and text without a comma is one part |
| ProfileForm.SplitAtFirstComma | frontend/src/components/onboarding/OnboardingFormNew.tsx:164 | the split cuts at the first comma and drops the white space after it |
| ProfileForm.SplitJoinRoundTrip | frontend/src/components/onboarding/OnboardingFormNew.tsx:164 | splitting the comma-joined list of comma-free parts (none after the first starting with white space) gives the parts back |
| ProfileForm.ListValue | frontend/src/components/onboarding/OnboardingFormNew.tsx:164 | an array is taken as is; a falsy non-array keeps the previous value; a result is always an array or the previous value |
| ProfileForm.MergeKeepsWhereAbsent | frontend/src/components/onboarding/OnboardingFormNew.tsx:150-173 | a null or undefined fetched field keeps the previous value, a present one replaces it, and years is replaced only when truthy |
| ProfileForm.Merge | frontend/src/components/onboarding/OnboardingFormNew.tsx:150-173 | a response that is not an object, or an object with no fields, leaves the form as it was |
| ProfileForm.MergeWellFormed | frontend/src/components/onboarding/OnboardingFormNew.tsx:150-173 | merging keeps the list fields lists and the years value null or a number |
| ProfileForm.MergeRestoresCarriedForm | frontend/src/components/onboarding/OnboardingFormNew.tsx:150-173 | for a form whose lists are arrays and whose other fields are set, merging a response that carries its payload restores the form, with a falsy years value kept from before |
| ProfileForm.MergePayloadRoundTrip | frontend/src/components/onboarding/OnboardingFormNew.tsx:102-173 | for such a form, merging back the object it was sent as restores it, with a falsy years value kept from before |
| ProfileForm.MergeOfEnvelopeChangesNothing | backend/main.py:565-567 | the `{profile: …}` envelope the backend answers with has none of the top-level keys, so merging it keeps the form unchanged |
| OnboardingFormNew.MissingAmong | frontend/src/components/onboarding/OnboardingFormNew.tsx:252-259 | lists exactly the given fields that are missing; a single field is listed exactly when it is missing |
| OnboardingFormNew.MissingAmongAppend | frontend/src/components/onboarding/OnboardingFormNew.tsx:252-259 | the filter distributes over concatenation, so the missing fields come in the order the list gives them |
| OnboardingFormNew.MissingRequired | frontend/src/components/onboarding/OnboardingFormNew.tsx:126-134 | lists exactly the required fields that are missing |
| OnboardingFormNew.MissingInStep | frontend/src/components/onboarding/OnboardingFormNew.tsx:250-259 | lists exactly the current step's fields that are missing |
| OnboardingFormNew.RequiredIffAllSteps | frontend/src/components/onboarding/OnboardingFormNew.tsx:70-83 | no required field is missing exactly when no step has a missing field |
| OnboardingFormNew.NoneMissingInStep | frontend/src/components/onboarding/OnboardingFormNew.tsx:231-259 | a form with no missing required field passes the check of every step |
| OnboardingFormNew.TextMissingIffBlank | frontend/src/components/onboarding/OnboardingFormNew.tsx:133 | a text field is missing exactly when it is all white space |
| OnboardingFormNew.YearsMissingIffNullOrNaN | frontend/src/components/onboarding/OnboardingFormNew.tsx:130-132 | years is missing exactly when null or NaN, so 0 counts as present |
| OnboardingFormNew.InitiallyMissing | frontend/src/components/onboarding/OnboardingFormNew.tsx:46-83 | in the initial form every required field except `post_language` ("English") is missing |
| OnboardingFormNew.Wizard.constructor | frontend/src/components/onboarding/OnboardingFormNew.tsx:96-100 | initial form, step 0, no error, not loading |
| OnboardingFormNew.Wizard.ValidateCurrentStep | frontend/src/components/onboarding/OnboardingFormNew.tsx:250-268 | succeeds exactly when the step has no missing field; sets the error naming the missing fields with spaces for underscores, or clears it |
| OnboardingFormNew.Wizard.NextStep | frontend/src/components/onboarding/OnboardingFormNew.tsx:270-277 | advances by one exactly when the step is complete and below 6; an incomplete step keeps the step and sets the error; the step stays in 0..6 |
| OnboardingFormNew.Wizard.PrevStep | frontend/src/components/onboarding/OnboardingFormNew.tsx:279-283 | goes back one only above step 0; nothing else changes |
| OnboardingFormNew.Wizard.ToggleMulti | frontend/src/components/onboarding/OnboardingFormNew.tsx:221-228 | the list field becomes its toggle with the value; nothing else changes |
| OnboardingFormNew.Wizard.SetText | frontend/src/components/onboarding/OnboardingFormNew.tsx:378-739 | a text input sets its field only |
| OnboardingFormNew.Wizard.SetYearsExperience | frontend/src/components/onboarding/OnboardingFormNew.tsx:413 | an empty input stores null, anything else `Number(text)` |
| OnboardingFormNew.Wizard.LoadProfile | frontend/src/components/onboarding/OnboardingFormNew.tsx:136-178 | requests only when the completion flag is unset; an object response is merged into the form and sets the flag; anything else changes nothing |
| OnboardingFormNew.Wizard.HandleSubmit | frontend/src/components/onboarding/OnboardingFormNew.tsx:181-218 | sends the payload exactly when no required field is missing, else sets the error listing them; sets the completion flag and navigates only after a successful save; a failed save shows its message; loading ends false |
| OnboardingFormOld.MissingAmong | frontend/src/components/onboarding/OnboardingForm.tsx:221-224 | lists exactly the given fields that are missing; a single field is listed exactly when it is missing |
| OnboardingFormOld.MissingAmongAppend | frontend/src/components/onboarding/OnboardingForm.tsx:221-224 | the filter distributes over concatenation, so the missing fields come in the order the list gives them |
| OnboardingFormOld.MissingRequired | frontend/src/components/onboarding/OnboardingForm.tsx:126-130 | lists exactly the required fields that are missing |
| OnboardingFormOld.MissingInStep | frontend/src/components/onboarding/OnboardingForm.tsx:203-224 | lists exactly the fields of the table row for the step that are missing |
| OnboardingFormOld.NumbersArePresent | frontend/src/components/onboarding/OnboardingForm.tsx:129 | any number, 0 and NaN included, counts as present |
| OnboardingFormOld.YearsMissingIffNullish | frontend/src/components/onboarding/OnboardingForm.tsx:129 | years is missing exactly when it is null |
| OnboardingFormOld.StepsWithoutFields | frontend/src/components/onboarding/OnboardingForm.tsx:210-220 | steps 3 and 4, step 6 and every index outside the table require nothing |
| OnboardingFormOld.Wizard.constructor | frontend/src/components/onboarding/OnboardingForm.tsx:95-100 | initial form, step 0, no errors, not loading |
| OnboardingFormOld.Wizard.NextStep | frontend/src/components/onboarding/OnboardingForm.tsx:199-234 | clears the step error, then advances by one exactly when the step is complete and below 6; an incomplete step sets the step error and stays |
| OnboardingFormOld.Wizard.PrevStep | frontend/src/components/onboarding/OnboardingForm.tsx:236-241 | clears the step error and goes back one only above step 0 |
| OnboardingFormOld.Wizard.ToggleMulti | frontend/src/components/onboarding/OnboardingForm.tsx:190-197 | the list field becomes its toggle with the value; nothing else changes |
| OnboardingFormOld.Wizard.SetText | frontend/src/components/onboarding/OnboardingForm.tsx:336-697 | a text input sets its field only |
| OnboardingFormOld.Wizard.SetYearsExperience | frontend/src/components/onboarding/OnboardingForm.tsx:371 | stores `Number(text)`, so an empty input stores 0 |
| OnboardingFormOld.Wizard.LoadProfile | frontend/src/components/onboarding/OnboardingForm.tsx:132-164 | an object response is merged into the form; anything else changes nothing |
| OnboardingFormOld.Wizard.HandleSubmit | frontend/src/components/onboarding/OnboardingForm.tsx:166-188 | sends the payload exactly when no required field is missing, else sets the fixed error; navigates only after a successful save; a failed save shows its message; loading ends false |
| OnboardingGate.RequiredKeysMatchForm | frontend/src/hooks/use-onboardingGate.tsx:9-22 | `REQUIRED_KEYS` is the form's `REQUIRED` list, key for key |
| OnboardingGate.KeyMissing | frontend/src/hooks/use-onboardingGate.tsx:43 | a key the response does not carry (or any key of a non-object) counts as missing |
| OnboardingGate.NeedsOnboarding | frontend/src/hooks/use-onboardingGate.tsx:43 | a falsy response or an empty object always needs onboarding |
| OnboardingGate.KeyMissingIff | frontend/src/hooks/use-onboardingGate.tsx:43 | a key is missing exactly when its value is null, undefined or stringifies to white space |
| OnboardingGate.NeedsOnboardingIff | frontend/src/hooks/use-onboardingGate.tsx:43 | onboarding is needed exactly when the response is falsy or some required key is missing |
| OnboardingGate.NumberIsPresent | frontend/src/hooks/use-onboardingGate.tsx:43 | a number, 0 included, is never missing |
| OnboardingGate.NonObjectNeedsOnboarding | frontend/src/hooks/use-onboardingGate.tsx:43 | a response that is not an object always needs onboarding |
| OnboardingGate.EnvelopeNeedsOnboarding | frontend/src/hooks/use-onboardingGate.tsx:43 | the backend's `{profile: …}` envelope always needs onboarding, whatever the profile holds |
| OnboardingGate.Gate.constructor | frontend/src/hooks/use-onboardingGate.tsx:25-26 | checking, and onboarding not needed |
| OnboardingGate.Gate.Check | frontend/src/hooks/use-onboardingGate.tsx:29-60 | no request when the flag is set (then not needed); a failed request means needed; a complete profile sets the flag; checking ends false on every path |
| OnboardingGate.Gate.RedirectTarget | frontend/src/hooks/use-onboardingGate.tsx:62-67 | redirects to /onboarding exactly when checking is over and onboarding is needed |
| OnboardingStatus.Marked | frontend/src/utils/onboarding.ts:21 | `setItem` keeps every other key and its value |
| OnboardingStatus.Removed | frontend/src/utils/onboarding.ts:29 | `removeItem` keeps every other key and its value |
| OnboardingStatus.HasCompleted | frontend/src/utils/onboarding.ts:11-14 | the flag reads as set only with a window and a stored key, and then exactly when the stored value is "true" |
| OnboardingStatus.ShouldRedirect | frontend/src/utils/onboarding.ts:35-37 | with no window or no stored flag the user is sent to onboarding |
| OnboardingStatus.MarkComplete | frontend/src/utils/onboarding.ts:19-22 | with a window the flag is stored; without one nothing changes |
| OnboardingStatus.ResetStatus | frontend/src/utils/onboarding.ts:27-30 | with a window the flag is removed; without one nothing changes |
| OnboardingStatus.CompletedAfterMark | frontend/src/utils/onboarding.ts:19-22 | after marking, the flag reads as set exactly when there is a window |
| OnboardingStatus.MarkIdempotent | frontend/src/utils/onboarding.ts:19-22 | marking twice is the same as marking once |
| OnboardingStatus.NotCompletedAfterReset | frontend/src/utils/onboarding.ts:27-30 | after a reset the flag never reads as set |
| OnboardingStatus.NoWindowNeverCompleted | frontend/src/utils/onboarding.ts:12 | without a window the flag never reads as set |
| OnboardingStatus.ShouldRedirectIffNotCompleted | frontend/src/utils/onboarding.ts:35-37 | the redirect is wanted exactly when the stored flag is not the string "true", and always without a window |
| OnboardingStatus.OnlyTrueCounts | frontend/src/utils/onboarding.ts:13 | the flag reads as set exactly when the stored value is the string "true" |
| PasswordRule.FieldError | frontend/src/components/authentication/ChangePassword.tsx:39-42 | the message shown under a field: None exactly when no issue has that path, else the message of an issue with that path |
| PasswordRule.FieldErrorOfFirst | frontend/src/components/authentication/ChangePassword.tsx:39-42 | the first issue's message is the one shown for its path |
| PasswordRule.FirstLine | frontend/src/components/authentication/SignupForm.tsx:27-29 | the text before the first line terminator, where every `.*` lookahead stops |
| PasswordRule.PasswordIssues | frontend/src/components/authentication/SignupForm.tsx:39-49 | no issue exactly when the regular expression matches; at most two issues, all on the field; a short password reports the length message first |
| PasswordRule.AcceptedPasswordHasEveryClass | frontend/src/components/authentication/SignupForm.tsx:27-49 | an accepted password has eight characters or more, a lowercase and an uppercase letter, a digit and one of `!@#$%^&*` |
| PasswordRule.SingleLineRule | frontend/src/components/authentication/SignupForm.tsx:27-49 | for a password without line breaks the rule is exactly: eight characters, lowercase, uppercase, digit and special character |
| PasswordRule.ClassesAfterLineBreakRejected | frontend/src/components/authentication/SignupForm.tsx:27-29 | character classes found only after a line break do not count |
| SignupForm.NameIssues | frontend/src/components/authentication/SignupForm.tsx:33-35 | no issue exactly when the name has three characters or more |
| SignupForm.EmailIssues | frontend/src/components/authentication/SignupForm.tsx:36-38 | no issue exactly when the trimmed email is an address |
| SignupForm.CountryCodeIssues | frontend/src/components/authentication/SignupForm.tsx:53-60 | no issue exactly when the trimmed code is `+` and one to three digits |
| SignupForm.PhoneIssues | frontend/src/components/authentication/SignupForm.tsx:61-68 | no issue exactly when the trimmed number is 8 to 15 digits |
| SignupForm.FieldIssues | frontend/src/components/authentication/SignupForm.tsx:31-69 | field issues never sit on the `confirmPassword` path |
| SignupForm.MismatchIssues | frontend/src/components/authentication/SignupForm.tsx:70-73 | no issue exactly when the two passwords are equal |
| SignupForm.TotalLengthIssues | frontend/src/components/authentication/SignupForm.tsx:74-83 | no issue exactly when code digits plus number digits total 8 to 15; the issue sits on `phoneNumber` |
| SignupForm.TotalLengthOnlyUpperBound | frontend/src/components/authentication/SignupForm.tsx:74-83 | once code and number are valid the total is at least 9, so only the 15-digit ceiling can fail |
| SignupForm.SignupAcceptedIff | frontend/src/components/authentication/SignupForm.tsx:31-83 | the schema accepts exactly the values with a 3-character name, a trimmed email, a valid password, matching confirmation, valid code and number, and at most 15 digits in all |
| SignupForm.SignupIssues | frontend/src/components/authentication/SignupForm.tsx:31-83 | a short name is the first issue reported, and a mismatched confirmation always yields an issue |
| SignupForm.MismatchOnConfirmPath | frontend/src/components/authentication/SignupForm.tsx:70-73 | the message under `confirmPassword` is the mismatch message exactly when the passwords differ, and there is none otherwise |
| SignupForm.MobileSplitsAtFirstSpace | frontend/src/components/authentication/SignupForm.tsx:114 | the mobile string is the code, one space and the number, and splits back at its first white space |
| SignupForm.ErrorDescription | frontend/src/components/authentication/SignupForm.tsx:136-141 | the failure toast shows the response's `detail`, else its `error`, else the fallback text (also when there is no response); it is never empty |
| SignupForm.IssuedToken | frontend/src/components/authentication/SignupForm.tsx:119-121 | a token is taken exactly when the response's `bearer_token` is truthy |
| SignupForm.Submit | frontend/src/components/authentication/SignupForm.tsx:104-150 | requests exactly when the schema accepts, sending name, trimmed email, password and the mobile string; a created account stores any issued token, clears the onboarding flag and goes to /onboarding; a refusal changes nothing and shows the warning |
| ChangePassword.ChangePasswordAcceptedIff | frontend/src/components/authentication/ChangePassword.tsx:22-42 | accepted exactly when the password matches the rule and the confirmation equals it; then it has every character class and eight characters |
| ChangePassword.ChangePasswordIssues | frontend/src/components/authentication/ChangePassword.tsx:22-42 | a mismatch is the last issue, on `confirmPassword`; with matching entries every issue is on `password` |
| ChangePassword.MismatchOnlyOnConfirm | frontend/src/components/authentication/ChangePassword.tsx:39-42 | the mismatch shows under `confirmPassword` exactly when the two differ, and every issue sits on one of the two fields |
| ChangePassword.Submitted | frontend/src/components/authentication/ChangePassword.tsx:67-69 | `onSubmit` gets the password alone, exactly when the form is accepted |
| OtpVerification.Pasted | frontend/src/components/authentication/OtpVerification.tsx:90-94 | the first `len` slots take the pasted characters and the others keep theirs |
| OtpVerification.ConcatLength | frontend/src/components/authentication/OtpVerification.tsx:68 | joined slots of at most one character each are as long as the number of filled slots |
| OtpVerification.AcceptedIffAllFilled | frontend/src/components/authentication/OtpVerification.tsx:17-19 | the six-slot value has length 6 exactly when every slot is filled |
| OtpVerification.PastingSixDigits | frontend/src/components/authentication/OtpVerification.tsx:85-101 | pasting six digits makes the form value those digits, which the schema accepts |
| OtpVerification.OtpInput.constructor | frontend/src/components/authentication/OtpVerification.tsx:38-59 | six empty slots; with `skipOtp` the value is "000000", `onVerify` gets it once and nothing is rendered |
| OtpVerification.OtpInput.Submit | frontend/src/components/authentication/OtpVerification.tsx:103-105 | `onVerify` gets the value exactly when it has six characters, that is when every slot is filled |
| OtpVerification.OtpInput.HandleOtpChange | frontend/src/components/authentication/OtpVerification.tsx:61-74 | input with a non-digit changes nothing; otherwise only slot `index` takes the first character (empty clears it), the value stays the joined slots, and focus moves on only for non-empty input below index 5 |
| OtpVerification.OtpInput.HandleKeyDown | frontend/src/components/authentication/OtpVerification.tsx:76-83 | Backspace on an empty slot above index 0 moves focus back one; nothing else changes |
| OtpVerification.OtpInput.HandlePaste | frontend/src/components/authentication/OtpVerification.tsx:85-101 | the first six characters, when one or more digits, overwrite the first slots and focus moves to min(len, 5); anything else changes nothing |
| ResetPassword.ChangePasswordNeedsVerifiedOtp | frontend/src/components/authentication/ResetPassword.tsx:36-97 | the password form is reached from the email step only through a sent OTP and a verified one |
| ResetPassword.FailuresStay | frontend/src/components/authentication/ResetPassword.tsx:70-79 | a failed request, and the reset itself, leave the step unchanged |
| ResetPassword.ForgotPasswordBody | frontend/src/components/authentication/ResetPassword.tsx:52 | the request body is the email between two double quotes |
| ResetPassword.SuccessToast | frontend/src/components/authentication/ResetPassword.tsx:61-69 | a null or undefined body throws into the error toast; otherwise the success toast shows the body's message or the fallback |
| ResetPassword.ResetFlow.constructor | frontend/src/components/authentication/ResetPassword.tsx:35-40 | starts at the email step with no email and nothing submitting |
| ResetPassword.ResetFlow.SubmitEmail | frontend/src/components/authentication/ResetPassword.tsx:47-80 | requests only for a valid email; success records the email and moves to the OTP step; failure keeps both and shows the error toast; loading ends false |
| ResetPassword.ResetFlow.VerifyOtp | frontend/src/components/authentication/ResetPassword.tsx:82-101 | sends the OTP with the recorded email and purpose "reset_password"; success moves to the password step, failure stays and shows a toast |
| ResetPassword.ResetFlow.ChangePassword | frontend/src/components/authentication/ResetPassword.tsx:103-137 | sends the recorded email and the new password; `onSuccess` runs exactly after a successful reset; the step never changes |
| ResetPassword.ResetFlow.GoBack | frontend/src/components/authentication/ResetPassword.tsx:180-189 | from the OTP step back to email, from the password step back to OTP |
| AuthForm.Links | frontend/src/components/authentication/AuthForm.tsx:52-110 | every mode offers at least one link |
| AuthForm.OneStepModes | frontend/src/components/authentication/AuthForm.tsx:59-110 | from login only signup or reset is reachable, and from signup or reset only login |
| AuthForm.EveryModeReachable | frontend/src/components/authentication/AuthForm.tsx:59-110 | every mode reaches every other in at most two steps |
| AuthForm.Render | frontend/src/components/authentication/AuthForm.tsx:26-28 | the loader is shown exactly while the auth check is loading; otherwise the current mode's form |
| AuthForm.Redirect | frontend/src/components/authentication/AuthForm.tsx:20-24 | an authenticated user is sent to the generate-post route, and only then |
| AuthForm.AuthPage.constructor | frontend/src/components/authentication/AuthForm.tsx:15 | the mode starts as login |
| AuthForm.AuthPage.Press | frontend/src/components/authentication/AuthForm.tsx:56-83 | a link moves to its target mode |
| AuthForm.AuthPage.HandleResetSuccess | frontend/src/components/authentication/AuthForm.tsx:30-32 | a successful reset returns to login |
| LoginForm.LoginIssues | frontend/src/components/authentication/LoginForm.tsx:27-38 | no issue exactly when the email is an address and the password is non-empty |
| LoginForm.FirstDetailMessage | frontend/src/components/authentication/LoginForm.tsx:91 | `data.detail?.[0]?.msg` is the `msg` of the first entry when `detail` is a non-empty list of objects |
| LoginForm.ErrorDescription | frontend/src/components/authentication/LoginForm.tsx:85-110 | 422 shows the first detail message or "Invalid credentials"; other statuses `detail` or "Invalid email or password"; no response "An unexpected error occurred"; a null error body throws and shows nothing |
| LoginForm.LoginTarget | frontend/src/components/authentication/LoginForm.tsx:80-84 | /dashboard exactly when onboarding is complete, /onboarding otherwise |
| LoginForm.ValidationErrorShowsFirstMessage | frontend/src/components/authentication/LoginForm.tsx:90-96 | a FastAPI validation error shows the message of its first entry |
| LoginForm.LoginPage.constructor | frontend/src/components/authentication/LoginForm.tsx:43 | not loading |
| LoginForm.LoginPage.Submit | frontend/src/components/authentication/LoginForm.tsx:53-113 | requests exactly when the schema accepts; a response stores the token only when `bearer_token` is truthy and goes to the page the onboarding flag picks; a failure keeps the token and shows the chosen message; loading ends false whenever a toast is shown |
| FormatText.LeadingSpace | frontend/src/utils/formatTextToHtml.ts:6 | the length of the white-space run at the start |
| FormatText.LastNewlineBefore | frontend/src/utils/formatTextToHtml.ts:6 | the last newline before a position, if any |
| FormatText.MatchAt | frontend/src/utils/formatTextToHtml.ts:6 | a match of `\n\s*\n` at the start of the text: a newline, only white space, and a newline ending the match |
| FormatText.SplitBlocks | frontend/src/utils/formatTextToHtml.ts:6 | `split(/\n\s*\n/)` gives at least one block |
| FormatText.SplitJoinRoundTrip | frontend/src/utils/formatTextToHtml.ts:6 | splitting blocks joined by `\n\n` gives the blocks back, for blocks without newlines whose inner ones are not blank |
| FormatText.NewlinesToBreaks | frontend/src/utils/formatTextToHtml.ts:16 | `replace(/\n/g, '<br>')` leaves no newline, and leaves text without one unchanged |
| FormatText.LazyClose | frontend/src/utils/formatTextToHtml.ts:19-20 | the nearest closing delimiter on the same line |
| FormatText.WordRun | frontend/src/utils/formatTextToHtml.ts:23-26 | the length of the run of `\w` characters at the start |
| FormatText.ReplacePairs | frontend/src/utils/formatTextToHtml.ts:19-20 | the bold and italic passes add no newline to newline-free text |
| FormatText.ReplacePairsWithoutDelimiter | frontend/src/utils/formatTextToHtml.ts:19-20 | text without the delimiter passes the bold or italic pass unchanged |
| FormatText.Hashtags | frontend/src/utils/formatTextToHtml.ts:23-26 | text without `#` passes the hashtag pass unchanged |
| FormatText.FormatBlock | frontend/src/utils/formatTextToHtml.ts:10-28 | every block becomes one paragraph: it opens with the `<p>` tag and closes with `</p>` |
| FormatText.ConcatFramed | frontend/src/utils/formatTextToHtml.ts:31 | paragraphs joined with `""` open with `<p>` and close with `</p>` as a whole |
| FormatText.FormatTextToHtml | frontend/src/utils/formatTextToHtml.ts:1-32 | the HTML always opens with a `<p>` tag and closes with `</p>` |
| FormatText.HashtagsKeepNoNewline | frontend/src/utils/formatTextToHtml.ts:23-26 | the hashtag pass adds no newline |
| FormatText.BoldKeepsNoNewline | frontend/src/utils/formatTextToHtml.ts:19 | the bold pass adds no newline |
| FormatText.ItalicKeepsNoNewline | frontend/src/utils/formatTextToHtml.ts:20 | the italic pass adds no newline |
| FormatText.FormatBlockHasNoNewline | frontend/src/utils/formatTextToHtml.ts:10-28 | a formatted paragraph is one line |
| FormatText.NoNewlineInOutput | frontend/src/utils/formatTextToHtml.ts:1-32 | the HTML holds no newline: block breaks are gone and the rest became `<br>` |
| FormatText.BlankTextIsOneEmptyParagraph | frontend/src/utils/formatTextToHtml.ts:3-8 | empty or white-space-only text gives exactly one empty paragraph |
| FormatText.PairWrapped | frontend/src/utils/formatTextToHtml.ts:19-20 | a delimited pair around text free of the delimiter and of line breaks is wrapped in the open and close tags |
| FormatText.BoldBeforeItalic | frontend/src/utils/formatTextToHtml.ts:19-20 | `**x**` becomes `<strong>x</strong>`, and the italic pass then finds no star in it |
| FormatText.HashtagWrapped | frontend/src/utils/formatTextToHtml.ts:23-26 | `#word` is wrapped once in the coloured span and what follows the word is left to the next match |
| PostTemplates.GeneratePosts | frontend/src/lib/post-templates.ts:13-44 | four posts, Standard, Story, Facts, Professional in that order, ids `<type>-` plus the batch id, titles `<Type> Post`, no author, content from the type's builder |
| PostTemplates.TemplateShape | frontend/src/lib/post-templates.ts:46-89 | each builder opens with text then the topic, and has a hashtag |
| PostTemplates.FilledCarriesTopic | frontend/src/lib/post-templates.ts:46-89 | filled content starts with its opening text and the input, and contains `#` plus the input without white space |
| PostTemplates.ContentCarriesTopic | frontend/src/lib/post-templates.ts:49-87 | each post embeds the input verbatim in its opening paragraph and carries the topic hashtag |
| PostTemplates.IdsDistinct | frontend/src/lib/post-templates.ts:15-41 | the four ids are pairwise distinct |
| RichTextEditor.RunOf | frontend/src/components/post-generator/RichTextEditor.tsx:319 | the maximal run of matching characters from a position |
| RichTextEditor.GroupAfter | frontend/src/components/post-generator/RichTextEditor.tsx:319 | a capture group is found only where the prefix occurs, and is non-empty |
| RichTextEditor.FirstMatch | frontend/src/components/post-generator/RichTextEditor.tsx:320 | the leftmost position where the pattern matches, and no match exactly when there is none |
| RichTextEditor.SearchIsLeftmost | frontend/src/components/post-generator/RichTextEditor.tsx:320 | `match` finds something exactly when the pattern matches somewhere, and returns the capture of the leftmost match |
| RichTextEditor.YouTubeMatchPassesGuard | frontend/src/components/post-generator/RichTextEditor.tsx:318-319 | a YouTube regex match implies the `includes` guard holds |
| RichTextEditor.VimeoMatchPassesGuard | frontend/src/components/post-generator/RichTextEditor.tsx:326-327 | a Vimeo regex match implies the `includes` guard holds |
| RichTextEditor.EmbedUrlCases | frontend/src/components/post-generator/RichTextEditor.tsx:315-332 | a YouTube match gives the embed URL; a YouTube-looking URL without a match stays as is and Vimeo is not tried; otherwise a Vimeo match gives the player URL; anything else is unchanged |
| RichTextEditor.EmbedUrl | frontend/src/components/post-generator/RichTextEditor.tsx:315-332 | the URL is kept or rewritten to a YouTube embed or Vimeo player URL, and a URL naming neither site is kept |
| RichTextEditor.YouTubeIdIsClean | frontend/src/components/post-generator/RichTextEditor.tsx:319 | the YouTube id is non-empty and holds no `&` and no white space |
| RichTextEditor.VimeoIdIsDigits | frontend/src/components/post-generator/RichTextEditor.tsx:327 | the Vimeo id is a non-empty digit string |
| RichTextEditor.VideoEmbed | frontend/src/components/post-generator/RichTextEditor.tsx:334-342 | the iframe markup opens with the fixed head and puts the URL in `src` |
| RichTextEditor.Anchor | frontend/src/components/post-generator/RichTextEditor.tsx:222 | the anchor's `href` is the URL |
| RichTextEditor.EmojiSpan | frontend/src/components/post-generator/RichTextEditor.tsx:375 | the emoji sits inside the styled `emoji` span |
| RichTextEditor.ReplaceSettles | frontend/src/components/post-generator/RichTextEditor.tsx:46-51 | once the value is shown, the check does not fire again |
| RichTextEditor.WhitespaceOnlyDifferenceKept | frontend/src/components/post-generator/RichTextEditor.tsx:49-51 | a value differing only in white space never replaces the content |
| RichTextEditor.Editor.constructor | frontend/src/components/post-generator/RichTextEditor.tsx:25-33 | empty content, initial load pending, no popover, nothing issued |
| RichTextEditor.Editor.InitialLoadEffect | frontend/src/components/post-generator/RichTextEditor.tsx:35-41 | the first non-empty value is copied in and ends the initial load; otherwise nothing changes |
| RichTextEditor.Editor.ParentUpdateEffect | frontend/src/components/post-generator/RichTextEditor.tsx:44-58 | outside an edit the content equals the value up to white space afterwards, unless the page has a selection without a range (then `getRangeAt(0)` throws and nothing changes); a white-space-only difference leaves it alone |
| RichTextEditor.ShouldReplace | frontend/src/components/post-generator/RichTextEditor.tsx:46-51 | replacing happens exactly outside an edit and the initial load when the texts differ beyond white space; the plain inequality test adds nothing |
| RichTextEditor.Editor.HandleEditorChange | frontend/src/components/post-generator/RichTextEditor.tsx:381-391 | editing is on, and `onChange` gets the current content |
| RichTextEditor.Editor.HandleEditorFocus | frontend/src/components/post-generator/RichTextEditor.tsx:393-395 | editing is on |
| RichTextEditor.Editor.EndEditing | frontend/src/components/post-generator/RichTextEditor.tsx:387-389 | editing is off |
| RichTextEditor.Editor.HandleEditorBlur | frontend/src/components/post-generator/RichTextEditor.tsx:397-400 | editing is on again after the change handler, and `onChange` gets the current content |
| RichTextEditor.Editor.OpenLinkInput | frontend/src/components/post-generator/RichTextEditor.tsx:260-273 | a present selection is kept, its non-blank text becomes the link text, and the popover opens |
| RichTextEditor.Editor.OpenVideoInput | frontend/src/components/post-generator/RichTextEditor.tsx:301-309 | a present selection is kept and the popover opens |
| RichTextEditor.Editor.CloseLinkInput | frontend/src/components/post-generator/RichTextEditor.tsx:438-446 | closing without adding clears URL, text and the saved selection |
| RichTextEditor.Editor.CloseVideoInput | frontend/src/components/post-generator/RichTextEditor.tsx:489-495 | closing without adding clears the URL and the saved selection |
| RichTextEditor.Editor.SetLinkInput | frontend/src/components/post-generator/RichTextEditor.tsx:464-474 | the inputs set the link text and URL |
| RichTextEditor.Editor.SetVideoUrl | frontend/src/components/post-generator/RichTextEditor.tsx:513 | the input sets the video URL |
| RichTextEditor.Editor.HandleLink | frontend/src/components/post-generator/RichTextEditor.tsx:210-258 | an empty URL does nothing; otherwise inserts an anchor or links the selection as the branches pick, notifies `onChange` and clears the popover |
| RichTextEditor.Editor.HandleVideo | frontend/src/components/post-generator/RichTextEditor.tsx:311-369 | an empty URL does nothing; otherwise inserts the iframe for the rewritten URL, notifies `onChange` and clears the popover |
| RichTextEditor.Editor.HandleEmoji | frontend/src/components/post-generator/RichTextEditor.tsx:371-379 | inserts the emoji wrapped in its span and notifies `onChange` |

## Left out

- I/O is not modelled. This covers MongoDB, the OpenAI calls, e-mail sending, axios requests, cookies and `console.log`. Each request's outcome is a parameter of the method that handles it.
- Randomness and clocks are parameters. `random.randint` is the `draw` of `GenerateOtp`, `secrets.token_hex` is the token passed to `Signup` and `Login`, `time.time()` and `datetime.now()` are `now`, and `Date.now()` in `generatePosts` is `batchId`.
- Library predicates are parameters. These are zod's `.email()` (`isEmail`), `json.loads` in `generate_hooks` (`decode`) and MongoDB's case-insensitive `$regex` (`matches`, with `patternValid` saying whether the server compiles the search text as a pattern).
- `generate_post_stream` is modelled up to the request it builds: the checks and the length target. The prompt text and the OpenAI streaming are not modelled.
- Other routes of backend/main.py are not part of this model. These are `/forgot-password`, `/reset-password`, `/change-password`, `/verify-otp`, `/User-info`, `/verify-token`, the profile save, the `/ws/audio` endpoint, the GCS picture endpoints and the Prometheus middleware. For `get_user_profile`, only the shape of its answer, `{"profile": …}`, is used: it shows that the gate and the merge never see the profile's keys.
- backend/utils.py (speech, audio and VAD), backend/db.py, the cookie and axios wrappers, the auth-check hook and the user context are not part of this model.
- JavaScript numbers are NaN or integers. `Number(s)` reads optionally signed decimal integers. Fractions, exponents, hexadecimal, binary and octal literals and `Infinity` give NaN. The wizard's `progressValue` percentage is not modelled.
- Strings are sequences of Unicode scalar values. JavaScript measures strings in UTF-16 code units, so the frontend's lengths (`.min(3)`, `.length`, `slice(0, 6)`) agree with the model only for text in the Basic Multilingual Plane.
- `Server.ParseObjectId` accepts only the 24-hex-digit string form of an ObjectId. The 12-byte form is not modelled, since the routes only receive strings.
- RichTextEditor DOM work is not modelled. This covers selection save and restore, the effects of `execCommand`, the MutationObserver delete buttons and the cursor restore after a parent update. `document.execCommand` calls are recorded as commands, not applied to `html`, and the editor element is taken to be mounted. Of the selection, only whether `getRangeAt(0)` throws is modelled: it is the `rangeMissing` parameter of `ParentUpdateEffect`. The catch branch of `handleVideo` is left out: the URL rewrite cannot throw in the model.
- `RichTextEditor.Anchor`: only the `href` of the inserted anchor is stated. The `target` and `rel` attributes are not.
- `SignupForm.Submit`: the `isLoading` flag is not modelled, because it ends false on every path.
- `ProfileForm.Toggle`: the order of the result is stated only for lists without duplicates. For other lists only its members are stated.
- `Server.GetPosts`: its contract states that the page is newest-first, that it holds matching posts only, and that `total` counts every match. That the page is exactly the `skip`/`limit` window of the sorted matches is stated by `Server.Window` and `Server.PageOfSorted`, not by `GetPosts` itself.
- `FormatText.SplitBlocks`: its own contract states only that there is at least one block. Which blocks there are is stated by `FormatText.SplitJoinRoundTrip` for text built by joining blocks.
- `Healthcare.ParseHooks`: its own contract bounds the hooks kept and the failure value. The results for list replies and for failures are stated by `Healthcare.ListRepliesKeepFirstFive` and `Healthcare.FailuresReturnEmpty`.
- `AuthForm.Links`: its own contract states only that every mode offers a link. The mode graph is stated by `AuthForm.OneStepModes` and `AuthForm.EveryModeReachable`.
- The presentational components, the other post-generator components and `PostScheduler` are not part of this model.
