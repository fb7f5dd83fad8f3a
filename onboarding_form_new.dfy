/**
 * The seven-step onboarding wizard (current variant): step navigation with
 * per-step validation, the multi-select toggles, the profile fetch that
 * marks onboarding complete, and the guarded submit.
 */
module OnboardingFormNew {
  import opened JsText
  import opened JsValues
  import opened ProfileForm
  import opened BrowserState
  import opened OnboardingStatus

  /**
   * The missing-field test of `missingRequired` and `validateCurrentStep`:
   * null, undefined or blank as a string; `years_experience` is instead
   * missing when null, undefined or NaN under `Number`.
   */
  predicate IsMissing(form: FormState, f: Field) {
    var v := Get(form, f);
    if f == YearsExperience then IsNullish(v) || ToNumber(v).NaN?
    else IsNullish(v) || StringIsBlank(v)
  }

  /** `fields.filter(...)` with the missing-field test, in the order of `fields`. */
  function MissingAmong(form: FormState, fields: seq<Field>): (r: seq<Field>)
    ensures forall f :: f in r <==> f in fields && IsMissing(form, f)
    ensures |r| <= |fields|
    ensures |fields| == 1 ==> r == (if IsMissing(form, fields[0]) then fields else [])
  {
    if fields == [] then []
    else if IsMissing(form, fields[0]) then [fields[0]] + MissingAmong(form, fields[1..])
    else MissingAmong(form, fields[1..])
  }

  /**
   * The filter works piece by piece: with the one-field case above this fixes the
   * result as the missing fields in the order `fields` lists them.
   */
  lemma {:induction false} MissingAmongAppend(form: FormState, a: seq<Field>, b: seq<Field>)
    ensures MissingAmong(form, a + b) == MissingAmong(form, a) + MissingAmong(form, b)
  {
    if a == [] {
      assert a + b == b;
    } else {
      var ab := a + b;
      assert ab[0] == a[0] && ab[1..] == a[1..] + b;
      MissingAmongAppend(form, a[1..], b);
      if IsMissing(form, a[0]) {
        assert MissingAmong(form, ab) == [a[0]] + MissingAmong(form, a[1..]) + MissingAmong(form, b);
      } else {
        assert MissingAmong(form, ab) == MissingAmong(form, a[1..]) + MissingAmong(form, b);
      }
    }
  }

  /** `missingRequired` */
  function MissingRequired(form: FormState): (r: seq<Field>)
    ensures forall f :: f in r <==> f in Required && IsMissing(form, f)
  {
    MissingAmong(form, Required)
  }

  /** The missing fields of one step, as `validateCurrentStep` computes them. */
  function MissingInStep(form: FormState, step: int): (r: seq<Field>)
    ensures forall f :: f in r <==> f in StepFields(step) && IsMissing(form, f)
  {
    MissingAmong(form, StepFields(step))
  }

  /** The error `validateCurrentStep` shows: the missing names with underscores as spaces. */
  function StepError(missing: seq<Field>): string {
    "Please fill in all required fields: "
    + Join(seq(|missing|, i requires 0 <= i < |missing| => Humanize(Key(missing[i]))), ", ")
  }

  /** The error `handleSubmit` shows: the missing property names as they are. */
  function SubmitError(missing: seq<Field>): string {
    "Please complete all required fields: " + Join(Keys(missing), ", ")
  }

  const NextRoute: string := "/generate-post"

  /** Nothing required is missing exactly when every step validates. */
  lemma RequiredIffAllSteps(form: FormState)
    ensures MissingRequired(form) == []
            <==> forall step :: 0 <= step <= LastStep ==> MissingInStep(form, step) == []
  {
    StepsPartitionRequired();
    if MissingRequired(form) != [] {
      var f := MissingRequired(form)[0];
      assert f in Required;
      var step := if f in StepFields(0) then 0
                  else if f in StepFields(1) then 1
                  else if f in StepFields(2) then 2
                  else 5;
      assert f in MissingInStep(form, step);
    } else {
      forall step | 0 <= step <= LastStep
        ensures MissingInStep(form, step) == []
      {
        NoneMissingInStep(form, step);
      }
    }
  }

  lemma NoneMissingInStep(form: FormState, step: int)
    requires MissingRequired(form) == [] && 0 <= step <= LastStep
    ensures MissingInStep(form, step) == []
  {
    forall f | f in StepFields(step) ensures !IsMissing(form, f) {
      assert f in Required && f !in MissingRequired(form);
    }
    NoneMissingAmong(form, StepFields(step));
  }

  /** With no field of `fields` missing, the filter keeps nothing. */
  lemma {:induction false} NoneMissingAmong(form: FormState, fields: seq<Field>)
    requires forall f :: f in fields ==> !IsMissing(form, f)
    ensures MissingAmong(form, fields) == []
  {
    if fields != [] {
      assert fields[0] in fields;
      NoneMissingAmong(form, fields[1..]);
    }
  }

  /** A text field is missing exactly when it holds only white space. */
  lemma TextMissingIffBlank(form: FormState, f: Field, s: string)
    requires f != YearsExperience && Get(form, f) == Str(s)
    ensures IsMissing(form, f) <==> AllSpace(s)
  {
    StrBlankIffSpaces(s);
  }

  /** `years_experience` of 0 is present; NaN and null are missing. */
  lemma YearsMissingIffNullOrNaN(form: FormState)
    requires form.yearsExperience.Null? || form.yearsExperience.Num?
    ensures IsMissing(form, YearsExperience)
            <==> form.yearsExperience in {Null, Num(NaN)}
  {
  }

  /** On the initial form every required field except `post_language` is missing. */
  lemma InitiallyMissing(f: Field)
    requires f in Required
    ensures IsMissing(InitialForm, f) <==> f != PostLanguage
  {
    if f == PostLanguage {
      StrBlankIffSpaces("English");
      assert "English"[0] == 'E';
    } else if f != YearsExperience {
      assert Get(InitialForm, f) == Str("");
      StrBlankIffSpaces("");
    }
  }

  class Wizard {
    var form: FormState
    var currentStep: int
    /** The error shown under the form: a string, or null for none. */
    var error: JsValue
    var loading: bool

    ghost predicate Valid()
      reads this
    {
      0 <= currentStep <= LastStep && WellFormed(form)
    }

    constructor()
      ensures Valid()
      ensures form == InitialForm && currentStep == 0 && error == Null && !loading
    {
      form := InitialForm;
      currentStep := 0;
      error := Null;
      loading := false;
    }

    /** `validateCurrentStep` */
    method ValidateCurrentStep() returns (ok: bool)
      modifies this
      ensures ok <==> MissingInStep(form, currentStep) == []
      ensures error == if ok then Null else Str(StepError(MissingInStep(form, currentStep)))
      ensures form == old(form) && currentStep == old(currentStep) && loading == old(loading)
    {
      var missing := MissingInStep(form, currentStep);
      if |missing| > 0 {
        error := Str(StepError(missing));
        return false;
      }
      error := Null;
      return true;
    }

    /** `nextStep`: advance by one when the step validates and is not the last. */
    method NextStep()
      requires Valid()
      modifies this
      ensures Valid()
      ensures form == old(form) && loading == old(loading)
      ensures var missing := MissingInStep(form, old(currentStep));
              (missing == [] ==> error == Null
                                 && currentStep == if old(currentStep) < LastStep
                                                   then old(currentStep) + 1
                                                   else old(currentStep))
              && (missing != [] ==> error == Str(StepError(missing))
                                    && currentStep == old(currentStep))
    {
      var ok := ValidateCurrentStep();
      if ok && currentStep < LastStep {
        currentStep := currentStep + 1;
      } else {
        var again := ValidateCurrentStep();
        if !again {
          return;
        }
      }
    }

    /** `prevStep` */
    method PrevStep()
      requires Valid()
      modifies this
      ensures Valid()
      ensures currentStep == if old(currentStep) > 0 then old(currentStep) - 1 else old(currentStep)
      ensures form == old(form) && error == old(error) && loading == old(loading)
    {
      if currentStep > 0 {
        currentStep := currentStep - 1;
      }
    }

    /** `toggleMulti(key, value)` on one of the two multi-select lists. */
    method ToggleMulti(f: Field, value: string)
      requires Valid() && (f == LinkedinGoals || f == ContentPreferences)
      modifies this
      ensures Valid()
      ensures form == Set(old(form), f, Arr(Toggle(Get(old(form), f).items, Str(value))))
      ensures currentStep == old(currentStep) && error == old(error) && loading == old(loading)
    {
      form := Set(form, f, Arr(Toggle(Get(form, f).items, Str(value))));
    }

    /** The `onChange` of a text input or select. */
    method SetText(f: Field, text: string)
      requires Valid() && f !in {YearsExperience, LinkedinGoals, ContentPreferences}
      modifies this
      ensures Valid()
      ensures form == Set(old(form), f, Str(text))
      ensures currentStep == old(currentStep) && error == old(error) && loading == old(loading)
    {
      form := Set(form, f, Str(text));
    }

    /** The `onChange` of the years input: `value ? Number(value) : null`. */
    method SetYearsExperience(text: string)
      requires Valid()
      modifies this
      ensures Valid()
      ensures form == old(form).(yearsExperience := if text == "" then Null else Num(StringToNumber(text)))
      ensures currentStep == old(currentStep) && error == old(error) && loading == old(loading)
    {
      form := form.(yearsExperience := if text == "" then Null else Num(StringToNumber(text)));
    }

    /**
     * The mount effect. With the completion flag set nothing is requested;
     * otherwise `response` is the fetched profile (None when the request
     * fails), and an object response marks onboarding complete and is merged.
     */
    method LoadProfile(b: Browser, response: Option<JsValue>) returns (requested: bool)
      requires Valid()
      modifies this, b
      ensures Valid()
      ensures requested <==> !old(HasCompleted(b))
      ensures var merged := requested && response.Some? && IsObjectResponse(response.value);
              (merged ==> form == Merge(old(form), response.value)
                          && b.storage == if b.hasWindow then Marked(old(b.storage)) else old(b.storage))
              && (!merged ==> form == old(form) && b.storage == old(b.storage))
      ensures b.token == old(b.token)
      ensures currentStep == old(currentStep) && error == old(error) && loading == old(loading)
    {
      if HasCompleted(b) {
        return false;
      }
      requested := true;
      if response.Some? && IsObjectResponse(response.value) {
        MarkComplete(b);
        MergeWellFormed(form, response.value);
        form := Merge(form, response.value);
      }
    }

    /**
     * `handleSubmit`. Returns the payload posted (None when a required field
     * is missing) and the route pushed after a successful save.
     */
    method HandleSubmit(b: Browser, outcome: SaveOutcome) returns (sent: Option<FormState>, navigate: Option<string>)
      requires Valid()
      modifies this, b
      ensures Valid()
      ensures sent.Some? <==> MissingRequired(old(form)) == []
      ensures sent.Some? ==> sent.value == ToPayload(old(form))
      ensures navigate.Some? <==> sent.Some? && outcome.Saved?
      ensures navigate.Some? ==> navigate.value == NextRoute
      ensures b.storage == if navigate.Some? && b.hasWindow then Marked(old(b.storage)) else old(b.storage)
      ensures sent.None? ==> error == Str(SubmitError(MissingRequired(old(form))))
      ensures sent.Some? && outcome.Saved? ==> error == Null
      ensures outcome.Rejected? && sent.Some?
              ==> error == SaveErrorMessage(outcome.responseData, outcome.message)
      ensures !loading || (loading == old(loading) && sent.None?)
      ensures unchanged(this`form, this`currentStep, b`token)
    {
      error := Null;
      var missing := MissingRequired(form);
      if |missing| > 0 {
        error := Str(SubmitError(missing));
        return None, None;
      }
      loading := true;
      sent := Some(ToPayload(form));
      if outcome.Saved? {
        MarkComplete(b);
        navigate := Some(NextRoute);
      } else {
        error := SaveErrorMessage(outcome.responseData, outcome.message);
        navigate := None;
      }
      loading := false;
    }
  }
}
