/**
 * The older seven-step onboarding wizard. It shares the form, the payload
 * and the profile merge with the current variant, but its missing-field test
 * has no NaN case, its step error is one fixed sentence kept apart from the
 * submit error, and it never touches the onboarding-completed flag.
 */
module OnboardingFormOld {
  import opened JsText
  import opened JsValues
  import opened ProfileForm

  /** The test of `missingRequired` and `nextStep`: null, undefined or blank as a string. */
  predicate IsMissing(form: FormState, f: Field) {
    var v := Get(form, f);
    IsNullish(v) || StringIsBlank(v)
  }

  /** `fields.filter(...)` with the missing-field test, in the order of `fields`. */
  function MissingAmong(form: FormState, fields: seq<Field>): (r: seq<Field>)
    ensures forall f :: f in r <==> f in fields && IsMissing(form, f)
    ensures |r| <= |fields|
    ensures |fields| == 1 ==> r == (if IsMissing(form, fields[0]) then fields else [])
  {
    if fields == [] then []
    else if IsMissing(form, fields[0]) then [fields[0]] + MissingAmong(form, fields[1..])
    else MissingAmong(form, fields[1..])
  }

  /**
   * The filter works piece by piece: with the one-field case above this fixes the
   * result as the missing fields in the order `fields` lists them.
   */
  lemma {:induction false} MissingAmongAppend(form: FormState, a: seq<Field>, b: seq<Field>)
    ensures MissingAmong(form, a + b) == MissingAmong(form, a) + MissingAmong(form, b)
  {
    if a == [] {
      assert a + b == b;
    } else {
      var ab := a + b;
      assert ab[0] == a[0] && ab[1..] == a[1..] + b;
      MissingAmongAppend(form, a[1..], b);
      if IsMissing(form, a[0]) {
        assert MissingAmong(form, ab) == [a[0]] + MissingAmong(form, a[1..]) + MissingAmong(form, b);
      } else {
        assert MissingAmong(form, ab) == MissingAmong(form, a[1..]) + MissingAmong(form, b);
      }
    }
  }

  /** `missingRequired` */
  function MissingRequired(form: FormState): (r: seq<Field>)
    ensures forall f :: f in r <==> f in Required && IsMissing(form, f)
  {
    MissingAmong(form, Required)
  }

  /** The missing fields of one row of `stepRequiredFields`; no row means no fields. */
  function MissingInStep(form: FormState, step: int): (r: seq<Field>)
    ensures forall f :: f in r <==> f in StepFields(step) && IsMissing(form, f)
  {
    MissingAmong(form, StepFields(step))
  }

  const StepErrorText: string := "Please fill in all required fields before proceeding."
  const SubmitErrorText: string := "Please complete all required fields."
  const NextRoute: string := "/generate-post"

  /** Any number, 0 and NaN included, counts as present. */
  lemma NumbersArePresent(form: FormState, f: Field)
    requires Get(form, f).Num?
    ensures !IsMissing(form, f)
  {
    NonStringsNotBlank(Get(form, f));
  }

  /** `years_experience` is missing exactly when it is null or undefined. */
  lemma YearsMissingIffNullish(form: FormState)
    requires form.yearsExperience.Null? || form.yearsExperience.Num?
    ensures IsMissing(form, YearsExperience) <==> form.yearsExperience == Null
  {
    if form.yearsExperience.Num? {
      NumbersArePresent(form, YearsExperience);
    } else {
      assert IsNullish(Get(form, YearsExperience));
    }
  }

  /** Steps 3, 4 and 6, and every index past the table, require nothing. */
  lemma StepsWithoutFields(form: FormState, step: int)
    requires step in {3, 4} || step >= LastStep || step < 0
    ensures MissingInStep(form, step) == []
  {
    assert StepFields(step) == [];
  }

  class Wizard {
    var form: FormState
    var currentStep: int
    /** The submit error: a string, or null for none. */
    var error: JsValue
    /** The step error: a string, or null for none. */
    var stepError: JsValue
    var loading: bool

    ghost predicate Valid()
      reads this
    {
      0 <= currentStep <= LastStep && WellFormed(form)
    }

    constructor()
      ensures Valid()
      ensures form == InitialForm && currentStep == 0
      ensures error == Null && stepError == Null && !loading
    {
      form := InitialForm;
      currentStep := 0;
      error := Null;
      stepError := Null;
      loading := false;
    }

    /** `nextStep`: clear the step error, then refuse or advance by one below the last step. */
    method NextStep()
      requires Valid()
      modifies this
      ensures Valid()
      ensures form == old(form) && error == old(error) && loading == old(loading)
      ensures MissingInStep(form, old(currentStep)) == []
              ==> stepError == Null
                  && currentStep == if old(currentStep) < LastStep then old(currentStep) + 1
                                    else old(currentStep)
      ensures MissingInStep(form, old(currentStep)) != []
              ==> stepError == Str(StepErrorText) && currentStep == old(currentStep)
    {
      stepError := Null;
      var missing := MissingInStep(form, currentStep);
      if |missing| > 0 {
        stepError := Str(StepErrorText);
        return;
      }
      if currentStep < LastStep {
        currentStep := currentStep + 1;
      }
    }

    /** `prevStep`: clear the step error and go back one step above the first. */
    method PrevStep()
      requires Valid()
      modifies this
      ensures Valid()
      ensures currentStep == if old(currentStep) > 0 then old(currentStep) - 1 else old(currentStep)
      ensures stepError == Null
      ensures form == old(form) && error == old(error) && loading == old(loading)
    {
      stepError := Null;
      if currentStep > 0 {
        currentStep := currentStep - 1;
      }
    }

    /** `toggleMulti(key, value)` on one of the two multi-select lists. */
    method ToggleMulti(f: Field, value: string)
      requires Valid() && (f == LinkedinGoals || f == ContentPreferences)
      modifies this
      ensures Valid()
      ensures form == Set(old(form), f, Arr(Toggle(Get(old(form), f).items, Str(value))))
      ensures currentStep == old(currentStep) && error == old(error)
      ensures stepError == old(stepError) && loading == old(loading)
    {
      form := Set(form, f, Arr(Toggle(Get(form, f).items, Str(value))));
    }

    /** The `onChange` of a text input or select. */
    method SetText(f: Field, text: string)
      requires Valid() && f !in {YearsExperience, LinkedinGoals, ContentPreferences}
      modifies this
      ensures Valid()
      ensures form == Set(old(form), f, Str(text))
      ensures currentStep == old(currentStep) && error == old(error)
      ensures stepError == old(stepError) && loading == old(loading)
    {
      form := Set(form, f, Str(text));
    }

    /** The `onChange` of the years input: `Number(value)`, so clearing it stores 0. */
    method SetYearsExperience(text: string)
      requires Valid()
      modifies this
      ensures Valid()
      ensures form == old(form).(yearsExperience := Num(StringToNumber(text)))
      ensures text == "" ==> form.yearsExperience == Num(Int(0))
      ensures currentStep == old(currentStep) && error == old(error)
      ensures stepError == old(stepError) && loading == old(loading)
    {
      form := form.(yearsExperience := Num(StringToNumber(text)));
    }

    /**
     * The mount effect: the profile is always requested; `response` is the
     * fetched value (None when the request fails) and an object is merged.
     */
    method LoadProfile(response: Option<JsValue>)
      requires Valid()
      modifies this
      ensures Valid()
      ensures form == if response.Some? && IsObjectResponse(response.value)
                      then Merge(old(form), response.value) else old(form)
      ensures currentStep == old(currentStep) && error == old(error)
      ensures stepError == old(stepError) && loading == old(loading)
    {
      if response.Some? && IsObjectResponse(response.value) {
        MergeWellFormed(form, response.value);
        form := Merge(form, response.value);
      }
    }

    /**
     * `handleSubmit`. Returns the payload posted (None when a required field
     * is missing) and the route pushed after a successful post.
     */
    method HandleSubmit(outcome: SaveOutcome) returns (sent: Option<FormState>, navigate: Option<string>)
      requires Valid()
      modifies this
      ensures Valid()
      ensures sent.Some? <==> MissingRequired(old(form)) == []
      ensures sent.Some? ==> sent.value == ToPayload(old(form))
      ensures navigate.Some? <==> sent.Some? && outcome.Saved?
      ensures navigate.Some? ==> navigate.value == NextRoute
      ensures sent.None? ==> error == Str(SubmitErrorText)
      ensures sent.Some? && outcome.Saved? ==> error == Null
      ensures outcome.Rejected? && sent.Some?
              ==> error == SaveErrorMessage(outcome.responseData, outcome.message)
      ensures !loading || (loading == old(loading) && sent.None?)
      ensures unchanged(`form, `currentStep, `stepError)
    {
      // The error is cleared first; only its final value is observable.
      var missing := MissingRequired(form);
      if missing != [] {
        error := Str(SubmitErrorText);
        sent, navigate := None, None;
      } else {
        loading := true;
        sent := Some(ToPayload(form));
        if outcome.Saved? {
          error := Null;
          navigate := Some(NextRoute);
        } else {
          error := SaveErrorMessage(outcome.responseData, outcome.message);
          navigate := None;
        }
        loading := false;
      }
    }
  }
}
