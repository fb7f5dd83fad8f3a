/**
 * `useOnboardingGate`: decides once per mount whether the user must be sent
 * to the onboarding wizard, from the completion flag or, failing that, from
 * the fetched profile.
 */
module OnboardingGate {
  import opened JsText
  import opened JsValues
  import opened ProfileForm
  import opened BrowserState
  import opened OnboardingStatus

  /** `REQUIRED_KEYS` */
  const RequiredKeys: seq<string> := [
    "full_name", "current_position", "industry_specialty", "years_experience",
    "location", "company_name", "company_size", "communication_style",
    "writing_style", "posting_frequency", "preferred_post_length", "post_language"]

  const OnboardingRoute: string := "/onboarding"

  /** `!String(data[k] ?? "").trim()` */
  predicate KeyMissing(data: JsValue, k: string)
    ensures !(data.Obj? && k in data.fields) ==> KeyMissing(data, k)
  {
    assert Trim("") == "";
    StringIsBlank(Coalesce(Member(data, k), Str("")))
  }

  /** The `missing` flag: the `some` over `REQUIRED_KEYS`. */
  predicate NeedsOnboarding(data: JsValue)
    ensures !Truthy(data) || data == Obj(map[]) ==> NeedsOnboarding(data)
  {
    assert RequiredKeys[0] in RequiredKeys;
    exists k :: k in RequiredKeys && (!Truthy(data) || KeyMissing(data, k))
  }

  /** The gate's keys are the property names of the wizard's `REQUIRED` fields, in order. */
  lemma RequiredKeysMatchForm()
    ensures RequiredKeys == Keys(Required)
  {
  }

  /** A key is missing exactly when it is absent, null, or blank as a string. */
  lemma KeyMissingIff(data: JsValue, k: string)
    ensures KeyMissing(data, k) <==> IsNullish(Member(data, k)) || StringIsBlank(Member(data, k))
  {
    if IsNullish(Member(data, k)) {
      StrBlankIffSpaces("");
    }
  }

  /** Onboarding is needed exactly when the response is falsy or some required key is missing. */
  lemma NeedsOnboardingIff(data: JsValue)
    ensures NeedsOnboarding(data)
            <==> !Truthy(data) || exists k :: k in RequiredKeys && KeyMissing(data, k)
  {
    if !Truthy(data) {
      var k := RequiredKeys[0];
      assert k in RequiredKeys && (!Truthy(data) || KeyMissing(data, k));
    }
  }

  /** A number, 0 included, is present. */
  lemma NumberIsPresent(data: JsValue, k: string)
    requires Member(data, k).Num?
    ensures !KeyMissing(data, k)
  {
    NonStringsNotBlank(Member(data, k));
  }

  /** A response that is not an object has no keys, so it always needs onboarding. */
  lemma NonObjectNeedsOnboarding(data: JsValue)
    requires !data.Obj?
    ensures NeedsOnboarding(data)
  {
    KeyMissingIff(data, RequiredKeys[0]);
  }

  /**
   * `GET /user-profile` wraps the profile as `{"profile": ...}`, and the gate
   * reads the keys at the top level: such a response always needs onboarding.
   */
  lemma EnvelopeNeedsOnboarding(profile: JsValue)
    ensures NeedsOnboarding(Obj(map["profile" := profile]))
  {
    var data := Obj(map["profile" := profile]);
    assert Member(data, "full_name") == Undefined;
    KeyMissingIff(data, RequiredKeys[0]);
  }

  class Gate {
    var checking: bool
    var needsOnboarding: bool

    constructor()
      ensures checking && !needsOnboarding
    {
      checking := true;
      needsOnboarding := false;
    }

    /**
     * The mount effect. With the completion flag set nothing is requested;
     * otherwise `response` is the fetched data, None when the request fails.
     */
    method Check(b: Browser, response: Option<JsValue>) returns (requested: bool)
      modifies this, b
      ensures !checking
      ensures requested <==> !old(HasCompleted(b))
      ensures !requested ==> !needsOnboarding
      ensures requested && response.None? ==> needsOnboarding
      ensures requested && response.Some? ==> needsOnboarding == NeedsOnboarding(response.value)
      ensures b.storage == if requested && response.Some? && !needsOnboarding && b.hasWindow
                           then Marked(old(b.storage)) else old(b.storage)
      ensures requested && response.Some? && !needsOnboarding ==> HasCompleted(b) == b.hasWindow
      ensures b.token == old(b.token)
    {
      if HasCompleted(b) {
        needsOnboarding := false;
        checking := false;
        return false;
      }
      requested := true;
      if response.None? {
        needsOnboarding := true;
      } else {
        var missing := NeedsOnboarding(response.value);
        if !missing {
          MarkComplete(b);
          CompletedAfterMark(b.hasWindow, old(b.storage));
        }
        needsOnboarding := missing;
      }
      checking := false;
    }

    /** The second effect: `router.replace("/onboarding")` once checking is over and onboarding is needed. */
    function RedirectTarget(): (r: Option<string>)
      reads this
      ensures r.Some? <==> !checking && needsOnboarding
      ensures r.Some? ==> r.value == OnboardingRoute
    {
      if !checking && needsOnboarding then Some(OnboardingRoute) else None
    }
  }
}
