/**
 * The onboarding profile form shared by both wizard variants: its fields,
 * the initial state, the required-field lists, the set-like toggling of the
 * multi-select lists, the payload mapping and the merge of a fetched profile.
 */
module ProfileForm {
  import opened JsText
  import opened JsValues

  /** The names of the fields of `FormState`, in declaration order. */
  datatype Field =
    | FullName | CurrentPosition | IndustrySpecialty | YearsExperience | Location
    | CompanyName | CompanySize | CompanyUsp | TargetAudience | ServicesOffered
    | CommunicationStyle | WritingStyle
    | LinkedinGoals | LinkedinGoalsOther | ContentPreferences | ContentPreferencesOther
    | TopicsToInclude | TopicsToAvoid | PostingFrequency | PreferredPostLength | PostLanguage

  /**
   * `FormState`. Each field holds whatever JavaScript value the page put
   * there: text inputs hold strings, `years_experience` a number or null, the
   * two multi-select lists arrays; a merged profile may put other values in.
   */
  datatype FormState = FormState(
    fullName: JsValue,
    currentPosition: JsValue,
    industrySpecialty: JsValue,
    yearsExperience: JsValue,
    location: JsValue,
    companyName: JsValue,
    companySize: JsValue,
    companyUsp: JsValue,
    targetAudience: JsValue,
    servicesOffered: JsValue,
    communicationStyle: JsValue,
    writingStyle: JsValue,
    linkedinGoals: JsValue,
    linkedinGoalsOther: JsValue,
    contentPreferences: JsValue,
    contentPreferencesOther: JsValue,
    topicsToInclude: JsValue,
    topicsToAvoid: JsValue,
    postingFrequency: JsValue,
    preferredPostLength: JsValue,
    postLanguage: JsValue)

  /** The JSON property name of a field. */
  function Key(f: Field): string {
    match f
    case FullName => "full_name"
    case CurrentPosition => "current_position"
    case IndustrySpecialty => "industry_specialty"
    case YearsExperience => "years_experience"
    case Location => "location"
    case CompanyName => "company_name"
    case CompanySize => "company_size"
    case CompanyUsp => "company_usp"
    case TargetAudience => "target_audience"
    case ServicesOffered => "services_offered"
    case CommunicationStyle => "communication_style"
    case WritingStyle => "writing_style"
    case LinkedinGoals => "linkedin_goals"
    case LinkedinGoalsOther => "linkedin_goals_other"
    case ContentPreferences => "content_preferences"
    case ContentPreferencesOther => "content_preferences_other"
    case TopicsToInclude => "topics_to_include"
    case TopicsToAvoid => "topics_to_avoid"
    case PostingFrequency => "posting_frequency"
    case PreferredPostLength => "preferred_post_length"
    case PostLanguage => "post_language"
  }

  /** `(form as any)[k]` */
  function Get(form: FormState, f: Field): JsValue {
    match f
    case FullName => form.fullName
    case CurrentPosition => form.currentPosition
    case IndustrySpecialty => form.industrySpecialty
    case YearsExperience => form.yearsExperience
    case Location => form.location
    case CompanyName => form.companyName
    case CompanySize => form.companySize
    case CompanyUsp => form.companyUsp
    case TargetAudience => form.targetAudience
    case ServicesOffered => form.servicesOffered
    case CommunicationStyle => form.communicationStyle
    case WritingStyle => form.writingStyle
    case LinkedinGoals => form.linkedinGoals
    case LinkedinGoalsOther => form.linkedinGoalsOther
    case ContentPreferences => form.contentPreferences
    case ContentPreferencesOther => form.contentPreferencesOther
    case TopicsToInclude => form.topicsToInclude
    case TopicsToAvoid => form.topicsToAvoid
    case PostingFrequency => form.postingFrequency
    case PreferredPostLength => form.preferredPostLength
    case PostLanguage => form.postLanguage
  }

  /** `{ ...form, [k]: v }` */
  function Set(form: FormState, f: Field, v: JsValue): (r: FormState)
    ensures Get(r, f) == v
    ensures forall g :: g != f ==> Get(r, g) == Get(form, g)
  {
    match f
    case FullName => form.(fullName := v)
    case CurrentPosition => form.(currentPosition := v)
    case IndustrySpecialty => form.(industrySpecialty := v)
    case YearsExperience => form.(yearsExperience := v)
    case Location => form.(location := v)
    case CompanyName => form.(companyName := v)
    case CompanySize => form.(companySize := v)
    case CompanyUsp => form.(companyUsp := v)
    case TargetAudience => form.(targetAudience := v)
    case ServicesOffered => form.(servicesOffered := v)
    case CommunicationStyle => form.(communicationStyle := v)
    case WritingStyle => form.(writingStyle := v)
    case LinkedinGoals => form.(linkedinGoals := v)
    case LinkedinGoalsOther => form.(linkedinGoalsOther := v)
    case ContentPreferences => form.(contentPreferences := v)
    case ContentPreferencesOther => form.(contentPreferencesOther := v)
    case TopicsToInclude => form.(topicsToInclude := v)
    case TopicsToAvoid => form.(topicsToAvoid := v)
    case PostingFrequency => form.(postingFrequency := v)
    case PreferredPostLength => form.(preferredPostLength := v)
    case PostLanguage => form.(postLanguage := v)
  }

  /** `REQUIRED`: the twelve fields that must be filled before the profile is sent. */
  const Required: seq<Field> := [
    FullName, CurrentPosition, IndustrySpecialty, YearsExperience, Location,
    CompanyName, CompanySize, CommunicationStyle, WritingStyle,
    PostingFrequency, PreferredPostLength, PostLanguage]

  /** The index of the last step ("Finish"): `steps.length - 1`. */
  const LastStep: int := 6

  /**
   * The required fields of one wizard step. Steps 3 and 4 and the final
   * step require nothing, and so does any index outside the table.
   */
  function StepFields(step: int): (r: seq<Field>)
    ensures forall f :: f in r ==> f in Required
    ensures !(0 <= step <= LastStep) ==> r == []
  {
    if step == 0 then [FullName, CurrentPosition, IndustrySpecialty, YearsExperience, Location]
    else if step == 1 then [CompanyName, CompanySize]
    else if step == 2 then [CommunicationStyle, WritingStyle]
    else if step == 5 then [PostingFrequency, PreferredPostLength, PostLanguage]
    else []
  }

  /** The per-step lists, read in step order, are exactly `REQUIRED`. */
  lemma StepsPartitionRequired()
    ensures StepFields(0) + StepFields(1) + StepFields(2) + StepFields(3)
            + StepFields(4) + StepFields(5) + StepFields(6) == Required
    ensures StepFields(3) == [] && StepFields(4) == [] && StepFields(6) == []
  {
  }

  /** `INITIAL_FORM` */
  const InitialForm: FormState := FormState(
    fullName := Str(""),
    currentPosition := Str(""),
    industrySpecialty := Str(""),
    yearsExperience := Null,
    location := Str(""),
    companyName := Str(""),
    companySize := Str(""),
    companyUsp := Str(""),
    targetAudience := Str(""),
    servicesOffered := Str(""),
    communicationStyle := Str(""),
    writingStyle := Str(""),
    linkedinGoals := Arr([]),
    linkedinGoalsOther := Str(""),
    contentPreferences := Arr([]),
    contentPreferencesOther := Str(""),
    topicsToInclude := Str(""),
    topicsToAvoid := Str(""),
    postingFrequency := Str(""),
    preferredPostLength := Str(""),
    postLanguage := Str("English"))

  /** The two multi-select lists are arrays and `years_experience` is a number or null. */
  predicate WellFormed(form: FormState) {
    form.linkedinGoals.Arr? && form.contentPreferences.Arr?
    && (form.yearsExperience.Null? || form.yearsExperience.Num?)
  }

  /** The initial form is well formed. */
  lemma InitialFormWellFormed()
    ensures WellFormed(InitialForm)
  {
  }

  /** How saving the profile ended: saved, or rejected with the error's response data and message. */
  datatype SaveOutcome = Saved | Rejected(responseData: JsValue, message: JsValue)

  const SaveFailedFallback: string := "Failed to save profile. Please try again."

  /**
   * `err?.response?.data?.message || err?.response?.data?.error || err?.message
   * || "Failed to save profile. Please try again."`; `responseData` is
   * undefined when the error carries no response.
   */
  function SaveErrorMessage(responseData: JsValue, message: JsValue): (r: JsValue)
    ensures Truthy(r)
    ensures Truthy(Member(responseData, "message")) ==> r == Member(responseData, "message")
    ensures !Truthy(Member(responseData, "message")) && Truthy(Member(responseData, "error"))
            ==> r == Member(responseData, "error")
    ensures !Truthy(Member(responseData, "message")) && !Truthy(Member(responseData, "error"))
            ==> r == (if Truthy(message) then message else Str(SaveFailedFallback))
  {
    if Truthy(Member(responseData, "message")) then Member(responseData, "message")
    else if Truthy(Member(responseData, "error")) then Member(responseData, "error")
    else if Truthy(message) then message
    else Str(SaveFailedFallback)
  }

  /** `data && typeof data === "object"`: the fetched profile is merged only when this holds. */
  predicate IsObjectResponse(data: JsValue) {
    Truthy(data) && (data.Obj? || data.Arr?)
  }

  /** `field.replace(/_/g, ' ')` */
  function Humanize(s: string): (r: string)
    ensures |r| == |s| && '_' !in r
    ensures forall i :: 0 <= i < |s| && s[i] != '_' ==> r[i] == s[i]
    ensures forall i :: 0 <= i < |s| && s[i] == '_' ==> r[i] == ' '
  {
    seq(|s|, i requires 0 <= i < |s| => if s[i] == '_' then ' ' else s[i])
  }

  /** The property names of a list of fields. */
  function Keys(fields: seq<Field>): (r: seq<string>)
    ensures |r| == |fields|
    ensures forall i :: 0 <= i < |fields| ==> r[i] == Key(fields[i])
  {
    seq(|fields|, i requires 0 <= i < |fields| => Key(fields[i]))
  }

  // ---------------------------------------------------------------------
  // Set-like toggling of a multi-select list (`new Set(list)`, delete or
  // add, `Array.from`).
  // ---------------------------------------------------------------------

  predicate NoDup<T(==)>(xs: seq<T>) {
    forall i, j :: 0 <= i < j < |xs| ==> xs[i] != xs[j]
  }

  /** `Array.from(new Set(xs))`: first occurrences, in order. */
  function Dedup<T(==,!new)>(xs: seq<T>): (r: seq<T>)
    ensures NoDup(r)
    ensures forall v :: v in r <==> v in xs
    ensures NoDup(xs) ==> r == xs
  {
    if xs == [] then []
    else
      var init := xs[..|xs| - 1];
      var d := Dedup(init);
      var x := xs[|xs| - 1];
      assert xs == init + [x];
      if x in d then d else d + [x]
  }

  /** The index of the first occurrence of `v` in `xs`. */
  function FirstIndex<T(==)>(xs: seq<T>, v: T): (k: nat)
    requires v in xs
    ensures k < |xs| && xs[k] == v && v !in xs[..k]
  {
    if xs[0] == v then 0
    else
      var k := 1 + FirstIndex(xs[1..], v);
      assert xs[..k] == [xs[0]] + xs[1..][..k - 1];
      k
  }

  /** The first occurrence is the only index before which `v` does not appear. */
  lemma FirstIndexUnique<T>(xs: seq<T>, v: T, k: nat)
    requires k < |xs| && xs[k] == v && v !in xs[..k]
    ensures FirstIndex(xs, v) == k
  {
  }

  /**
   * `Array.from(new Set(xs))` lists each value at the place of its first
   * occurrence: the values appear in the order of their first occurrences.
   */
  lemma {:induction false} DedupFirstOccurrenceOrder<T(!new)>(xs: seq<T>)
    ensures forall i, j :: 0 <= i < j < |Dedup(xs)| ==>
              FirstIndex(xs, Dedup(xs)[i]) < FirstIndex(xs, Dedup(xs)[j])
  {
    if xs != [] {
      var init := xs[..|xs| - 1];
      var x := xs[|xs| - 1];
      assert xs == init + [x];
      var d := Dedup(init);
      var r := Dedup(xs);
      assert r == if x in d then d else d + [x];
      DedupFirstOccurrenceOrder(init);
      forall i, j | 0 <= i < j < |r| ensures FirstIndex(xs, r[i]) < FirstIndex(xs, r[j]) {
        assert r[i] == d[i] && d[i] in init;
        FirstIndexOfPrefix(init, x, d[i]);
        if j < |d| {
          assert r[j] == d[j] && d[j] in init;
          FirstIndexOfPrefix(init, x, d[j]);
        } else {
          assert r[j] == x && x !in init;
          FirstIndexOfNew(init, x);
        }
      }
    }
  }

  /** Appending a value does not move the first occurrence of one already present. */
  lemma FirstIndexOfPrefix<T>(init: seq<T>, x: T, v: T)
    requires v in init
    ensures FirstIndex(init + [x], v) == FirstIndex(init, v)
  {
    var k := FirstIndex(init, v);
    assert (init + [x])[..k] == init[..k];
    FirstIndexUnique(init + [x], v, k);
  }

  /** A value first seen at the end is first found there. */
  lemma FirstIndexOfNew<T>(init: seq<T>, x: T)
    requires x !in init
    ensures FirstIndex(init + [x], x) == |init|
  {
    assert (init + [x])[..|init|] == init;
    FirstIndexUnique(init + [x], x, |init|);
  }

  /** The list without any occurrence of `v`, others in order. */
  function Remove<T(==,!new)>(xs: seq<T>, v: T): (r: seq<T>)
    ensures forall w :: w in r <==> w in xs && w != v
    ensures NoDup(xs) ==> NoDup(r)
    ensures v !in xs ==> r == xs
  {
    if xs == [] then []
    else if xs[0] == v then Remove(xs[1..], v)
    else
      var rest := Remove(xs[1..], v);
      assert NoDup(xs) ==> xs[0] !in xs[1..];
      [xs[0]] + rest
  }

  /** On a list without duplicates, removing the value at `i` cuts out exactly that slot. */
  lemma {:induction false} RemoveAt<T(!new)>(xs: seq<T>, i: nat)
    requires i < |xs| && NoDup(xs)
    ensures Remove(xs, xs[i]) == xs[..i] + xs[i + 1..]
  {
    var v := xs[i];
    if i == 0 {
      assert v !in xs[1..];
    } else {
      assert xs[0] != v;
      assert xs[1..][i - 1] == v;
      RemoveAt(xs[1..], i - 1);
      assert xs[..i] == [xs[0]] + xs[1..][..i - 1];
      assert xs[i + 1..] == xs[1..][i..];
    }
  }

  /**
   * `toggleMulti`: the set of the list with `v`'s membership flipped. A
   * newly added value goes to the end; on a list without duplicates the
   * other values keep their order.
   */
  function Toggle<T(==,!new)>(xs: seq<T>, v: T): (r: seq<T>)
    ensures NoDup(r)
    ensures v in r <==> v !in xs
    ensures forall w :: w != v ==> (w in r <==> w in xs)
    ensures NoDup(xs) ==> r == if v in xs then Remove(xs, v) else xs + [v]
  {
    var d := Dedup(xs);
    if v in d then Remove(d, v) else d + [v]
  }

  /** Toggling a value on and off again restores a list without duplicates. */
  lemma {:induction false} ToggleTwice<T(!new)>(xs: seq<T>, v: T)
    requires NoDup(xs) && v !in xs
    ensures Toggle(Toggle(xs, v), v) == xs
  {
    RemoveLast(xs, v);
  }

  lemma {:induction false} RemoveLast<T(!new)>(xs: seq<T>, v: T)
    requires v !in xs
    ensures Remove(xs + [v], v) == xs
  {
    if xs == [] {
      assert [v][1..] == [];
    } else {
      assert (xs + [v])[1..] == xs[1..] + [v];
      RemoveLast(xs[1..], v);
    }
  }

  // ---------------------------------------------------------------------
  // The payload sent on submit.
  // ---------------------------------------------------------------------

  /** `toPayload`: every field copied; `years_experience || 0`. */
  function ToPayload(form: FormState): (r: FormState)
    ensures forall f :: f != YearsExperience ==> Get(r, f) == Get(form, f)
    ensures Truthy(form.yearsExperience) ==> r.yearsExperience == form.yearsExperience
    ensures !Truthy(form.yearsExperience) ==> r.yearsExperience == Num(Int(0))
  {
    form.(yearsExperience := if Truthy(form.yearsExperience) then form.yearsExperience else Num(Int(0)))
  }

  /** Null, 0 and NaN all become 0; a non-zero number is sent as it is. */
  lemma PayloadYears(form: FormState)
    requires form.yearsExperience.Null? || form.yearsExperience.Num?
    ensures ToPayload(form).yearsExperience.Num?
    ensures ToPayload(form).yearsExperience == Num(Int(0))
            <==> form.yearsExperience in {Null, Num(NaN), Num(Int(0))}
  {
    var y := form.yearsExperience;
    if y.Num? && y.n.Int? && y.n.value != 0 {
      assert Truthy(y);
      assert y != Num(Int(0)) && y != Num(NaN) && y != Null;
    } else {
      assert !Truthy(y);
    }
  }

  /** The payload as the JSON object sent to the backend. */
  function PayloadObject(p: FormState): (r: JsValue)
    ensures r.Obj?
  {
    Obj(map[
      "full_name" := p.fullName,
      "current_position" := p.currentPosition,
      "industry_specialty" := p.industrySpecialty,
      "years_experience" := p.yearsExperience,
      "location" := p.location,
      "company_name" := p.companyName,
      "company_size" := p.companySize,
      "company_usp" := p.companyUsp,
      "target_audience" := p.targetAudience,
      "services_offered" := p.servicesOffered,
      "communication_style" := p.communicationStyle,
      "writing_style" := p.writingStyle,
      "linkedin_goals" := p.linkedinGoals,
      "linkedin_goals_other" := p.linkedinGoalsOther,
      "content_preferences" := p.contentPreferences,
      "content_preferences_other" := p.contentPreferencesOther,
      "topics_to_include" := p.topicsToInclude,
      "topics_to_avoid" := p.topicsToAvoid,
      "posting_frequency" := p.postingFrequency,
      "preferred_post_length" := p.preferredPostLength,
      "post_language" := p.postLanguage])
  }

  /** `data` holds every field of `p` under the field's property name. */
  predicate Carries(data: JsValue, p: FormState) {
    CarriesPart1(data, p) && CarriesPart2(data, p) && CarriesPart3(data, p)
  }

  predicate CarriesPart1(data: JsValue, p: FormState) {
    Member(data, "full_name") == p.fullName
    && Member(data, "current_position") == p.currentPosition
    && Member(data, "industry_specialty") == p.industrySpecialty
    && Member(data, "years_experience") == p.yearsExperience
    && Member(data, "location") == p.location
    && Member(data, "company_name") == p.companyName
    && Member(data, "company_size") == p.companySize
  }

  predicate CarriesPart2(data: JsValue, p: FormState) {
    Member(data, "company_usp") == p.companyUsp
    && Member(data, "target_audience") == p.targetAudience
    && Member(data, "services_offered") == p.servicesOffered
    && Member(data, "communication_style") == p.communicationStyle
    && Member(data, "writing_style") == p.writingStyle
    && Member(data, "linkedin_goals") == p.linkedinGoals
    && Member(data, "linkedin_goals_other") == p.linkedinGoalsOther
  }

  predicate CarriesPart3(data: JsValue, p: FormState) {
    Member(data, "content_preferences") == p.contentPreferences
    && Member(data, "content_preferences_other") == p.contentPreferencesOther
    && Member(data, "topics_to_include") == p.topicsToInclude
    && Member(data, "topics_to_avoid") == p.topicsToAvoid
    && Member(data, "posting_frequency") == p.postingFrequency
    && Member(data, "preferred_post_length") == p.preferredPostLength
    && Member(data, "post_language") == p.postLanguage
  }

  /** The payload object carries every field of the payload. */
  lemma PayloadObjectCarries(p: FormState)
    ensures Carries(PayloadObject(p), p)
  {
    PayloadObjectCarriesPart1(p);
    PayloadObjectCarriesPart2(p);
    PayloadObjectCarriesPart3(p);
  }

  lemma PayloadObjectCarriesPart1(p: FormState)
    ensures CarriesPart1(PayloadObject(p), p)
  {
    PayloadObjectCarriesName(p);
    PayloadObjectCarriesCompany(p);
  }

  lemma PayloadObjectCarriesName(p: FormState)
    ensures var o := PayloadObject(p);
      Member(o, "full_name") == p.fullName
      && Member(o, "current_position") == p.currentPosition
      && Member(o, "industry_specialty") == p.industrySpecialty
  {
  }

  lemma PayloadObjectCarriesCompany(p: FormState)
    ensures var o := PayloadObject(p);
      Member(o, "years_experience") == p.yearsExperience
      && Member(o, "location") == p.location
      && Member(o, "company_name") == p.companyName
      && Member(o, "company_size") == p.companySize
  {
  }

  lemma PayloadObjectCarriesPart2(p: FormState)
    ensures CarriesPart2(PayloadObject(p), p)
  {
  }

  lemma PayloadObjectCarriesPart3(p: FormState)
    ensures CarriesPart3(PayloadObject(p), p)
  {
  }

  // ---------------------------------------------------------------------
  // Merging a fetched profile into the form.
  // ---------------------------------------------------------------------

  /** `String(v).split(/,\s*\/)`: split at each comma, dropping the white space after it. */
  function SplitCommaWs(s: string): (parts: seq<string>)
    ensures |parts| >= 1
    ensures forall i :: 0 <= i < |parts| ==> ',' !in parts[i]
    ensures ',' !in s ==> parts == [s]
    decreases |s|
  {
    if ',' !in s then [s]
    else
      var i := IndexOf(s, ',');
      [s[..i]] + SplitCommaWs(TrimStartBy(s[i + 1..], IsSpace))
  }

  /** The first index of `c` in `s`. */
  function IndexOf(s: string, c: char): (i: nat)
    requires c in s
    ensures i < |s| && s[i] == c && c !in s[..i]
  {
    if s[0] == c then 0
    else
      assert s == [s[0]] + s[1..];
      var j := IndexOf(s[1..], c);
      assert s[..j + 1] == [s[0]] + s[1..][..j];
      j + 1
  }

  /** A string split at its first comma: the part before it, then the rest split again. */
  lemma SplitAtFirstComma(a: string, b: string)
    requires ',' !in a
    ensures SplitCommaWs(a + "," + b) == [a] + SplitCommaWs(TrimStartBy(b, IsSpace))
  {
    var s := a + "," + b;
    IndexOfAfterCommaFree(a, b);
    assert s[..|a|] == a;
    assert s[|a| + 1..] == b;
  }

  /** The first comma of `a + "," + b` is the one after a comma-free `a`. */
  lemma {:induction false} IndexOfAfterCommaFree(a: string, b: string)
    requires ',' !in a
    ensures IndexOf(a + "," + b, ',') == |a|
  {
    if a != [] {
      assert (a + "," + b)[1..] == a[1..] + "," + b;
      IndexOfAfterCommaFree(a[1..], b);
    }
  }

  /** Splitting the comma-joined list of comma-free values gives the values back. */
  lemma {:induction false} SplitJoinRoundTrip(parts: seq<string>)
    requires |parts| >= 1
    requires forall i :: 0 <= i < |parts| ==> ',' !in parts[i]
    requires forall i :: 1 <= i < |parts| ==> parts[i] == [] || !IsSpace(parts[i][0])
    ensures SplitCommaWs(Join(parts, ",")) == parts
  {
    if |parts| > 1 {
      var tail := parts[1..];
      assert forall i :: 0 <= i < |tail| ==> tail[i] == parts[i + 1];
      SplitJoinRoundTrip(tail);
      RoundTripStep(parts[0], tail);
      assert parts == [parts[0]] + tail;
    }
  }

  /** One step of the round trip: a comma-free head in front of a list that already splits back. */
  lemma RoundTripStep(head: string, tail: seq<string>)
    requires |tail| >= 1 && ',' !in head
    requires tail[0] == [] || !IsSpace(tail[0][0])
    requires SplitCommaWs(Join(tail, ",")) == tail
    ensures SplitCommaWs(Join([head] + tail, ",")) == [head] + tail
  {
    var rest := Join(tail, ",");
    assert ([head] + tail)[1..] == tail;
    assert Join([head] + tail, ",") == head + "," + rest;
    JoinStartsWithFirst(tail);
    SplitAtFirstComma(head, rest);
    TrimStartOfNonSpace(rest);
  }

  /** A comma-joined list begins with its first element, or with the comma if that is empty. */
  lemma JoinStartsWithFirst(parts: seq<string>)
    requires |parts| >= 1
    requires parts[0] == [] || !IsSpace(parts[0][0])
    ensures Join(parts, ",") == [] || !IsSpace(Join(parts, ",")[0])
  {
    if |parts| > 1 && parts[0] == [] {
      assert Join(parts, ",")[0] == ',';
    }
  }

  /** A list field takes an array as it is, splits a truthy non-array and otherwise keeps the old list. */
  function ListValue(v: JsValue, previous: JsValue): (r: JsValue)
    ensures v.Arr? ==> r == v
    ensures !v.Arr? && !Truthy(v) ==> r == previous
    ensures r.Arr? || r == previous
  {
    if v.Arr? then v
    else if Truthy(v) then
      var parts := SplitCommaWs(ToJsString(v));
      Arr(seq(|parts|, i requires 0 <= i < |parts| => Str(parts[i])))
    else previous
  }

  /**
   * The form after a fetched profile `data` has been merged into `prev`:
   * `data.k ?? prev.k` for the plain fields, a truthy `years_experience`
   * converted with `Number`, and the list fields through `ListValue`.
   */
  function Merge(prev: FormState, data: JsValue): (r: FormState)
    ensures !data.Obj? || data.fields == map[] ==> r == prev
  {
    FormState(
      Coalesce(Member(data, "full_name"), prev.fullName),
      Coalesce(Member(data, "current_position"), prev.currentPosition),
      Coalesce(Member(data, "industry_specialty"), prev.industrySpecialty),
      if Truthy(Member(data, "years_experience")) then Num(ToNumber(Member(data, "years_experience"))) else prev.yearsExperience,
      Coalesce(Member(data, "location"), prev.location),
      Coalesce(Member(data, "company_name"), prev.companyName),
      Coalesce(Member(data, "company_size"), prev.companySize),
      Coalesce(Member(data, "company_usp"), prev.companyUsp),
      Coalesce(Member(data, "target_audience"), prev.targetAudience),
      Coalesce(Member(data, "services_offered"), prev.servicesOffered),
      Coalesce(Member(data, "communication_style"), prev.communicationStyle),
      Coalesce(Member(data, "writing_style"), prev.writingStyle),
      ListValue(Member(data, "linkedin_goals"), prev.linkedinGoals),
      Coalesce(Member(data, "linkedin_goals_other"), prev.linkedinGoalsOther),
      ListValue(Member(data, "content_preferences"), prev.contentPreferences),
      Coalesce(Member(data, "content_preferences_other"), prev.contentPreferencesOther),
      Coalesce(Member(data, "topics_to_include"), prev.topicsToInclude),
      Coalesce(Member(data, "topics_to_avoid"), prev.topicsToAvoid),
      Coalesce(Member(data, "posting_frequency"), prev.postingFrequency),
      Coalesce(Member(data, "preferred_post_length"), prev.preferredPostLength),
      Coalesce(Member(data, "post_language"), prev.postLanguage))
  }

  /** The merge keeps the previous value exactly where the fetched one is null or undefined (falsy, for `years_experience`). */
  lemma MergeKeepsWhereAbsent(prev: FormState, data: JsValue, f: Field)
    ensures f != YearsExperience && IsNullish(Member(data, Key(f)))
            ==> Get(Merge(prev, data), f) == Get(prev, f)
    ensures f != YearsExperience && f != LinkedinGoals && f != ContentPreferences
            && !IsNullish(Member(data, Key(f)))
            ==> Get(Merge(prev, data), f) == Member(data, Key(f))
    ensures f == YearsExperience
            ==> Get(Merge(prev, data), f) == if Truthy(Member(data, Key(f)))
                                            then Num(ToNumber(Member(data, Key(f))))
                                            else prev.yearsExperience
  {
  }

  /** The list fields stay arrays through a merge. */
  lemma MergeWellFormed(prev: FormState, data: JsValue)
    requires WellFormed(prev)
    ensures WellFormed(Merge(prev, data))
  {
  }

  /** The form with `years_experience` as the merge of its own payload leaves it. */
  function Restored(prev: FormState, form: FormState): FormState {
    form.(yearsExperience := if Truthy(form.yearsExperience)
                             then Num(ToNumber(form.yearsExperience))
                             else prev.yearsExperience)
  }

  /** Every field but `years_experience` is set: none is null or undefined. */
  predicate FieldsSet(form: FormState) {
    && !IsNullish(form.fullName) && !IsNullish(form.currentPosition)
    && !IsNullish(form.industrySpecialty) && !IsNullish(form.location)
    && !IsNullish(form.companyName) && !IsNullish(form.companySize)
    && !IsNullish(form.companyUsp) && !IsNullish(form.targetAudience)
    && !IsNullish(form.servicesOffered) && !IsNullish(form.communicationStyle)
    && !IsNullish(form.writingStyle) && !IsNullish(form.linkedinGoalsOther)
    && !IsNullish(form.contentPreferencesOther) && !IsNullish(form.topicsToInclude)
    && !IsNullish(form.topicsToAvoid) && !IsNullish(form.postingFrequency)
    && !IsNullish(form.preferredPostLength) && !IsNullish(form.postLanguage)
  }

  /**
   * A flat profile object carrying every field of a filled-in form is merged
   * back into that form, except a falsy `years_experience`, for which the
   * previous value stays.
   */
  lemma MergeRestoresCarriedForm(prev: FormState, form: FormState, data: JsValue)
    requires WellFormed(form)
    requires FieldsSet(form)
    requires Carries(data, ToPayload(form))
    ensures Merge(prev, data) == Restored(prev, form)
  {
    MergeRestoresPart1(prev, form, data);
    MergeRestoresPart2(prev, form, data);
    MergeRestoresPart3(prev, form, data);
  }

  lemma MergeRestoresPart1(prev: FormState, form: FormState, data: JsValue)
    requires FieldsSet(form)
    requires CarriesPart1(data, ToPayload(form))
    ensures var m, r := Merge(prev, data), Restored(prev, form);
      m.fullName == r.fullName
      && m.currentPosition == r.currentPosition
      && m.industrySpecialty == r.industrySpecialty
      && m.yearsExperience == r.yearsExperience
      && m.location == r.location
      && m.companyName == r.companyName
      && m.companySize == r.companySize
  {
  }

  lemma MergeRestoresPart2(prev: FormState, form: FormState, data: JsValue)
    requires form.linkedinGoals.Arr?
    requires FieldsSet(form)
    requires CarriesPart2(data, ToPayload(form))
    ensures var m, r := Merge(prev, data), Restored(prev, form);
      m.companyUsp == r.companyUsp
      && m.targetAudience == r.targetAudience
      && m.servicesOffered == r.servicesOffered
      && m.communicationStyle == r.communicationStyle
      && m.writingStyle == r.writingStyle
      && m.linkedinGoals == r.linkedinGoals
      && m.linkedinGoalsOther == r.linkedinGoalsOther
  {
  }

  lemma MergeRestoresPart3(prev: FormState, form: FormState, data: JsValue)
    requires form.contentPreferences.Arr?
    requires FieldsSet(form)
    requires CarriesPart3(data, ToPayload(form))
    ensures var m, r := Merge(prev, data), Restored(prev, form);
      m.contentPreferences == r.contentPreferences
      && m.contentPreferencesOther == r.contentPreferencesOther
      && m.topicsToInclude == r.topicsToInclude
      && m.topicsToAvoid == r.topicsToAvoid
      && m.postingFrequency == r.postingFrequency
      && m.preferredPostLength == r.preferredPostLength
      && m.postLanguage == r.postLanguage
  {
  }

  /** What the wizard sends, merged back as a flat object, gives the form again. */
  lemma MergePayloadRoundTrip(prev: FormState, form: FormState)
    requires WellFormed(form)
    requires FieldsSet(form)
    ensures Merge(prev, PayloadObject(ToPayload(form)))
            == form.(yearsExperience := if Truthy(form.yearsExperience)
                                        then form.yearsExperience
                                        else prev.yearsExperience)
  {
    PayloadObjectCarries(ToPayload(form));
    MergeRestoresCarriedForm(prev, form, PayloadObject(ToPayload(form)));
  }

  /**
   * The backend answers with the profile wrapped as `{"profile": {...}}`; merged
   * as it is, that response changes nothing.
   */
  lemma MergeOfEnvelopeChangesNothing(prev: FormState, profile: JsValue)
    ensures Merge(prev, Obj(map["profile" := profile])) == prev
  {
  }
}
