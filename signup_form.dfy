/**
 * The signup form: its Zod schema (field checks in declaration order, then
 * the two object refinements, which run even when a field check failed) and
 * the submit handler that sends the account, stores the token and clears the
 * onboarding flag.
 */
module SignupForm {
  import opened JsText
  import opened JsValues
  import opened PasswordRule
  import opened BrowserState
  import OnboardingStatus

  datatype SignupValues = SignupValues(
    fullName: string, email: string, password: string, confirmPassword: string,
    countryCode: string, phoneNumber: string)

  const MismatchMessage: string := "Passwords do not match"
  const TotalLengthMessage: string := "Phone with country code must be 8–15 digits in total"
  const FallbackError: string := "An unexpected error occurred"

  /** The trimmed country code matches `^\+[0-9]{1,3}$`. */
  predicate CountryCodeOk(cc: string) {
    2 <= |cc| <= 4 && cc[0] == '+' && AllDigits(cc[1..])
  }

  /** The trimmed phone number is 8 to 15 characters and matches `^[0-9]+$`. */
  predicate PhoneOk(p: string) {
    8 <= |p| <= 15 && AllDigits(p)
  }

  /** The second refinement: the digits of both parts number 8 to 15 in total. */
  predicate TotalLengthOk(cc: string, p: string) {
    var total := |KeepDigits(cc)| + |KeepDigits(p)|;
    8 <= total <= 15
  }

  function NameIssues(name: string): (r: seq<Issue>)
    ensures r == [] <==> |name| >= 3
    ensures forall i :: 0 <= i < |r| ==> r[i].path == "full_name"
  {
    if |name| < 3 then [Issue("full_name", "Full name must be at least 3 characters long")] else []
  }

  function EmailIssues(email: string, isEmail: string -> bool): (r: seq<Issue>)
    ensures r == [] <==> isEmail(Trim(email))
    ensures forall i :: 0 <= i < |r| ==> r[i].path == "email"
  {
    if isEmail(Trim(email)) then [] else [Issue("email", "Please enter a valid email address")]
  }

  function CountryCodeIssues(cc: string): (r: seq<Issue>)
    ensures r == [] <==> CountryCodeOk(cc)
    ensures forall i :: 0 <= i < |r| ==> r[i].path == "countryCode"
  {
    if CountryCodeOk(cc) then [] else [Issue("countryCode", "Enter a valid country code like +1, +44, +91")]
  }

  function PhoneIssues(p: string): (r: seq<Issue>)
    ensures r == [] <==> PhoneOk(p)
    ensures forall i :: 0 <= i < |r| ==> r[i].path == "phoneNumber"
  {
    (if |p| < 8 then [Issue("phoneNumber", "Phone number must be at least 8 digits")] else [])
    + (if |p| > 15 then [Issue("phoneNumber", "Phone number cannot exceed 15 digits")] else [])
    + (if |p| >= 1 && AllDigits(p) then [] else [Issue("phoneNumber", "Phone number must contain only digits")])
  }

  /** No issue in `issues` is reported on `path`. */
  predicate Avoids(issues: seq<Issue>, path: string) {
    forall x :: x in issues ==> x.path != path
  }

  lemma AvoidsConcat(xs: seq<Issue>, ys: seq<Issue>, path: string)
    requires Avoids(xs, path) && Avoids(ys, path)
    ensures Avoids(xs + ys, path)
  {
  }

  /** The field checks, in declaration order; `confirmPassword` has none. */
  function FieldIssues(v: SignupValues, isEmail: string -> bool): (r: seq<Issue>)
    ensures Avoids(r, "confirmPassword")
  {
    var name := NameIssues(v.fullName);
    var email := EmailIssues(v.email, isEmail);
    var password := PasswordIssues("password", v.password);
    var cc := CountryCodeIssues(Trim(v.countryCode));
    var phone := PhoneIssues(Trim(v.phoneNumber));
    assert Avoids(name, "confirmPassword") && Avoids(email, "confirmPassword");
    assert Avoids(password, "confirmPassword") && Avoids(cc, "confirmPassword");
    assert Avoids(phone, "confirmPassword");
    AvoidsConcat(name, email, "confirmPassword");
    AvoidsConcat(name + email, password, "confirmPassword");
    AvoidsConcat(name + email + password, cc, "confirmPassword");
    AvoidsConcat(name + email + password + cc, phone, "confirmPassword");
    name + email + password + cc + phone
  }

  /** The confirmation refinement, reported on `confirmPassword`. */
  function MismatchIssues(v: SignupValues): (r: seq<Issue>)
    ensures r == [] <==> v.password == v.confirmPassword
  {
    if v.password == v.confirmPassword then [] else [Issue("confirmPassword", MismatchMessage)]
  }

  /** The total-length refinement, reported on `phoneNumber`. */
  function TotalLengthIssues(v: SignupValues): (r: seq<Issue>)
    ensures r == [] <==> TotalLengthOk(Trim(v.countryCode), Trim(v.phoneNumber))
    ensures forall x :: x in r ==> x.path == "phoneNumber"
  {
    if TotalLengthOk(Trim(v.countryCode), Trim(v.phoneNumber)) then [] else [Issue("phoneNumber", TotalLengthMessage)]
  }

  /** Every issue the schema reports for `v`, in the order Zod reports them. */
  function SignupIssues(v: SignupValues, isEmail: string -> bool): (r: seq<Issue>)
    ensures |v.fullName| < 3 ==> r != [] && r[0].path == "full_name"
    ensures v.password != v.confirmPassword ==> r != []
  {
    FieldIssues(v, isEmail) + (MismatchIssues(v) + TotalLengthIssues(v))
  }

  /** What the form accepts, written as one condition per requirement. */
  predicate Acceptable(v: SignupValues, isEmail: string -> bool) {
    var cc := Trim(v.countryCode);
    var phone := Trim(v.phoneNumber);
    && |v.fullName| >= 3
    && isEmail(Trim(v.email))
    && |v.password| >= 8 && RegexMatches(v.password)
    && v.confirmPassword == v.password
    && CountryCodeOk(cc)
    && PhoneOk(phone)
    && |cc| - 1 + |phone| <= 15
  }

  /**
   * Given a valid country code and a valid phone number, the total is at
   * least nine digits, so only the upper bound of the second refinement can
   * fail.
   */
  lemma TotalLengthOnlyUpperBound(cc: string, p: string)
    requires CountryCodeOk(cc) && PhoneOk(p)
    ensures |KeepDigits(cc)| + |KeepDigits(p)| >= 9
    ensures TotalLengthOk(cc, p) <==> |cc| - 1 + |p| <= 15
  {
    assert cc == [cc[0]] + cc[1..];
    assert !IsDigit(cc[0]);
    KeepDigitsOfNonDigitPrefix(cc[0], cc[1..]);
  }

  lemma KeepDigitsOfNonDigitPrefix(c: char, rest: string)
    requires !IsDigit(c)
    ensures KeepDigits([c] + rest) == KeepDigits(rest)
  {
    assert ([c] + rest)[1..] == rest;
  }

  /** The schema reports nothing exactly when every requirement holds. */
  lemma SignupAcceptedIff(v: SignupValues, isEmail: string -> bool)
    ensures SignupIssues(v, isEmail) == [] <==> Acceptable(v, isEmail)
  {
    var cc := Trim(v.countryCode);
    var phone := Trim(v.phoneNumber);
    if CountryCodeOk(cc) && PhoneOk(phone) {
      TotalLengthOnlyUpperBound(cc, phone);
    }
    if RegexMatches(v.password) {
      AcceptedPasswordHasEveryClass(v.password);
    }
    var name := NameIssues(v.fullName);
    var email := EmailIssues(v.email, isEmail);
    var password := PasswordIssues("password", v.password);
    var ccIssues := CountryCodeIssues(cc);
    var phoneIssues := PhoneIssues(phone);
    var f := FieldIssues(v, isEmail);
    var m := MismatchIssues(v);
    var t := TotalLengthIssues(v);
    assert f == name + email + password + ccIssues + phoneIssues;
    assert |f| == |name| + |email| + |password| + |ccIssues| + |phoneIssues|;
    assert SignupIssues(v, isEmail) == f + (m + t);
    assert |SignupIssues(v, isEmail)| == |f| + |m| + |t|;
  }

  /** A mismatched confirmation is reported on `confirmPassword`, and nothing else reports on that path. */
  lemma MismatchOnConfirmPath(v: SignupValues, isEmail: string -> bool)
    ensures FieldError(SignupIssues(v, isEmail), "confirmPassword") ==
            if v.password == v.confirmPassword then None else Some(MismatchMessage)
  {
    var path := "confirmPassword";
    var f := FieldIssues(v, isEmail);
    var m := MismatchIssues(v);
    var t := TotalLengthIssues(v);
    assert SignupIssues(v, isEmail) == f + (m + t);
    assert Avoids(f, path);
    FieldErrorSkips(f, m + t, path);
    RefinementsOnConfirmPath(v);
  }

  /** Of the two refinements only the mismatch reports on `confirmPassword`. */
  lemma RefinementsOnConfirmPath(v: SignupValues)
    ensures FieldError(MismatchIssues(v) + TotalLengthIssues(v), "confirmPassword") ==
            if v.password == v.confirmPassword then None else Some(MismatchMessage)
  {
    var t := TotalLengthIssues(v);
    assert "phoneNumber"[0] != "confirmPassword"[0];
    assert Avoids(t, "confirmPassword");
    LeadingIssueThenAvoiding(MismatchIssues(v), t, "confirmPassword", MismatchMessage);
  }

  /** At most one leading issue on `path`, followed by issues elsewhere: the field shows that issue, if any. */
  lemma LeadingIssueThenAvoiding(m: seq<Issue>, t: seq<Issue>, path: string, message: string)
    requires m == [] || m == [Issue(path, message)]
    requires Avoids(t, path)
    ensures FieldError(m + t, path) == if m == [] then None else Some(message)
  {
    if m == [] {
      assert m + t == t;
    } else {
      FieldErrorOfFirst(m + t, path);
    }
  }

  /** The `mobile` field sent to the backend: the trimmed country code, one space, the trimmed number. */
  function Mobile(v: SignupValues): string {
    Trim(v.countryCode) + " " + Trim(v.phoneNumber)
  }

  /** With a valid country code the first space of `mobile` separates the two parts, so they can be read back. */
  lemma MobileSplitsAtFirstSpace(v: SignupValues)
    requires CountryCodeOk(Trim(v.countryCode))
    ensures var m := Mobile(v); var k := |Trim(v.countryCode)|;
            k < |m| && m[k] == ' ' && (forall i :: 0 <= i < k ==> !IsSpace(m[i]))
            && m[..k] == Trim(v.countryCode) && m[k + 1..] == Trim(v.phoneNumber)
  {
    var cc := Trim(v.countryCode);
    CountryCodeHasNoSpace(cc);
    SpaceJoinSplits(cc, Trim(v.phoneNumber));
  }

  lemma CountryCodeHasNoSpace(cc: string)
    requires CountryCodeOk(cc)
    ensures NoSpace(cc)
  {
    forall i | 0 <= i < |cc| ensures !IsSpace(cc[i]) {
      if i > 0 {
        assert cc[i] == cc[1..][i - 1];
      }
    }
  }

  /** `a + " " + b` read back at the position of the space. */
  lemma SpaceJoinSplits(a: string, b: string)
    requires NoSpace(a)
    ensures var m := a + " " + b;
            |a| < |m| && m[|a|] == ' ' && (forall i :: 0 <= i < |a| ==> !IsSpace(m[i]))
            && m[..|a|] == a && m[|a| + 1..] == b
  {
    var m := a + " " + b;
    assert forall i :: 0 <= i < |a| ==> m[i] == a[i];
    assert m[..|a|] == a;
    assert m[|a| + 1..] == b;
  }

  datatype SignupRequest = SignupRequest(name: string, email: string, password: string, mobile: string)

  /** How the signup request ended: the response data, or a failure with the error response's data if any. */
  datatype SignupOutcome = Created(data: JsValue) | Refused(response: Option<JsValue>)

  /** `error.response?.data?.detail || error.response?.data?.error || "An unexpected error occurred"` */
  function ErrorDescription(response: Option<JsValue>): (r: JsValue)
    ensures Truthy(r)
    ensures response.None? ==> r == Str(FallbackError)
    ensures response.Some? && Truthy(Member(response.value, "detail")) ==> r == Member(response.value, "detail")
    ensures response.Some? && !Truthy(Member(response.value, "detail")) && Truthy(Member(response.value, "error"))
            ==> r == Member(response.value, "error")
    ensures response.Some? && !Truthy(Member(response.value, "detail")) && !Truthy(Member(response.value, "error"))
            ==> r == Str(FallbackError)
  {
    var data := if response.Some? then response.value else Undefined;
    var detail := Member(data, "detail");
    var error := Member(data, "error");
    if Truthy(detail) then detail else if Truthy(error) then error else Str(FallbackError)
  }

  /** The token the backend handed out, when `response.data && response.data.bearer_token`. */
  function IssuedToken(data: JsValue): (r: Option<string>)
    ensures r.Some? <==> Truthy(Member(data, "bearer_token"))
  {
    var t := Member(data, "bearer_token");
    if Truthy(data) && Truthy(t) then Some(ToJsString(t)) else None
  }

  /**
   * `form.handleSubmit(onSubmit)`: with any schema issue nothing is sent.
   * Otherwise the parsed values are posted; on success the token (when
   * present) is stored, the onboarding flag is cleared and the user goes to
   * /onboarding; on failure an error toast is shown.
   */
  method Submit(b: Browser, v: SignupValues, isEmail: string -> bool, outcome: SignupOutcome)
      returns (request: Option<SignupRequest>, toast: Option<Toast>, navigate: Option<string>)
    modifies b
    ensures request.Some? <==> SignupIssues(v, isEmail) == []
    ensures request.Some? ==>
              request.value == SignupRequest(v.fullName, Trim(v.email), v.password, Mobile(v))
    ensures request.None? || outcome.Refused? ==>
              b.storage == old(b.storage) && b.token == old(b.token) && navigate.None?
    ensures request.Some? && outcome.Created? ==>
              && b.token == (var t := IssuedToken(outcome.data); if t.Some? then t else old(b.token))
              && !OnboardingStatus.Completed(b.hasWindow, b.storage)
              && navigate == Some("/onboarding")
    ensures request.Some? && outcome.Refused? ==>
              toast == Some(Toast("Warning", ErrorDescription(outcome.response), true))
  {
    if SignupIssues(v, isEmail) != [] {
      return None, None, None;
    }
    request := Some(SignupRequest(v.fullName, Trim(v.email), v.password, Mobile(v)));
    match outcome {
      case Created(data) =>
        var t := IssuedToken(data);
        if t.Some? {
          b.SetToken(t.value);
        }
        OnboardingStatus.ResetStatus(b);
        OnboardingStatus.NotCompletedAfterReset(b.hasWindow, old(b.storage));
        toast := Some(Toast("Success", Str("User registered successfully!"), false));
        navigate := Some("/onboarding");
      case Refused(response) =>
        toast := Some(Toast("Warning", ErrorDescription(response), true));
        navigate := None;
    }
  }
}
