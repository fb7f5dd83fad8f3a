/**
 * The login form: its schema, and the submit handler that stores the token,
 * picks the page to go to from the onboarding flag, and picks the message
 * for a failed login.
 */
module LoginForm {
  import opened JsText
  import opened JsValues
  import opened PasswordRule
  import opened BrowserState
  import OnboardingStatus

  datatype LoginValues = LoginValues(email: string, password: string)

  datatype LoginRequest = LoginRequest(email: string, password: string)

  /** How the request ended: a response, an HTTP error with its status and body, or no response at all. */
  datatype LoginOutcome = Answered(data: JsValue) | HttpError(status: int, data: JsValue) | NoResponse

  const UnexpectedError: string := "An unexpected error occurred"

  /** The issues of the login schema: `email` must be an address (not trimmed), `password` non-empty. */
  function LoginIssues(v: LoginValues, isEmail: string -> bool): (r: seq<Issue>)
    ensures r == [] <==> isEmail(v.email) && v.password != ""
  {
    (if isEmail(v.email) then [] else [Issue("email", "Please enter a valid email address")])
    + (if |v.password| >= 1 then [] else [Issue("password", "Password is required")])
  }

  /** `x?.[0]` on a parsed JSON value. */
  function FirstElement(x: JsValue): JsValue {
    match x
    case Arr(items) => if items == [] then Undefined else items[0]
    case Str(s) => if s == "" then Undefined else Str([s[0]])
    case Obj(_) => Member(x, "0")
    case _ => Undefined
  }

  /** `data.detail?.[0]?.msg`: the first validation message FastAPI sends with a 422. */
  function FirstDetailMessage(data: JsValue): (r: JsValue)
    ensures (data.Obj? && "detail" in data.fields && data.fields["detail"].Arr?
             && data.fields["detail"].items != [] && data.fields["detail"].items[0].Obj?)
            ==> r == Member(data.fields["detail"].items[0], "msg")
  {
    var detail := Member(data, "detail");
    var first := if IsNullish(detail) then Undefined else FirstElement(detail);
    if IsNullish(first) then Undefined else Member(first, "msg")
  }

  /**
   * The description of the error toast, or None when building it throws:
   * reading `detail` of a null or undefined error body inside the handler.
   */
  function ErrorDescription(outcome: LoginOutcome): (r: Option<JsValue>)
    requires !outcome.Answered?
    ensures r.None? <==> outcome.HttpError? && IsNullish(outcome.data)
    ensures r.Some? ==> Truthy(r.value)
    ensures outcome.NoResponse? ==> r == Some(Str(UnexpectedError))
    ensures outcome.HttpError? && outcome.status == 422 && !IsNullish(outcome.data) ==>
              r == Some(var m := FirstDetailMessage(outcome.data); if Truthy(m) then m else Str("Invalid credentials"))
    ensures outcome.HttpError? && outcome.status != 422 && !IsNullish(outcome.data) ==>
              r == Some(var d := Member(outcome.data, "detail"); if Truthy(d) then d else Str("Invalid email or password"))
  {
    match outcome
    case NoResponse => Some(Str(UnexpectedError))
    case HttpError(status, data) =>
      if IsNullish(data) then None
      else if status == 422 then
        var m := FirstDetailMessage(data);
        Some(if Truthy(m) then m else Str("Invalid credentials"))
      else
        var d := Member(data, "detail");
        Some(if Truthy(d) then d else Str("Invalid email or password"))
  }

  /** The page a successful login goes to. */
  function LoginTarget(completed: bool): (r: string)
    ensures r == "/dashboard" <==> completed
    ensures r == "/onboarding" <==> !completed
  {
    if completed then "/dashboard" else "/onboarding"
  }

  /** A FastAPI validation error shows the message of its first entry. */
  lemma ValidationErrorShowsFirstMessage(msg: string, rest: seq<JsValue>)
    requires msg != ""
    ensures var body := Obj(map["detail" := Arr([Obj(map["msg" := Str(msg)])] + rest)]);
            ErrorDescription(HttpError(422, body)) == Some(Str(msg))
  {
    var entry := Obj(map["msg" := Str(msg)]);
    var body := Obj(map["detail" := Arr([entry] + rest)]);
    assert FirstElement(Arr([entry] + rest)) == entry;
    assert FirstDetailMessage(body) == Str(msg);
  }

  class LoginPage {
    var isLoading: bool

    constructor()
      ensures !isLoading
    {
      isLoading := false;
    }

    /**
     * `form.handleSubmit(onSubmit)`. A null or undefined response body makes
     * `data.bearer_token` throw, which lands in the no-response branch of
     * the handler.
     */
    method Submit(b: Browser, v: LoginValues, isEmail: string -> bool, outcome: LoginOutcome)
        returns (request: Option<LoginRequest>, toast: Option<Toast>, navigate: Option<string>)
      modifies this, b
      ensures request.Some? <==> LoginIssues(v, isEmail) == []
      ensures request.Some? ==> request.value == LoginRequest(v.email, v.password)
      ensures b.storage == old(b.storage)
      ensures request.None? ==> isLoading == old(isLoading) && b.token == old(b.token) && toast.None? && navigate.None?
      ensures request.Some? && outcome.Answered? && !IsNullish(outcome.data) ==>
                && b.token == (var t := Member(outcome.data, "bearer_token");
                               if Truthy(t) then Some(ToJsString(t)) else old(b.token))
                && navigate == Some(LoginTarget(OnboardingStatus.HasCompleted(b)))
                && !isLoading
      ensures request.Some? && !(outcome.Answered? && !IsNullish(outcome.data)) ==>
                && b.token == old(b.token) && navigate.None?
                && toast == (var d := if outcome.Answered? then Some(Str(UnexpectedError)) else ErrorDescription(outcome);
                             if d.Some? then Some(Toast("Warning", d.value, true)) else None)
                && isLoading == toast.None?
    {
      if LoginIssues(v, isEmail) != [] {
        return None, None, None;
      }
      request := Some(LoginRequest(v.email, v.password));
      isLoading := true;
      navigate := None;
      if outcome.Answered? && !IsNullish(outcome.data) {
        var data := outcome.data;
        var t := Member(data, "bearer_token");
        if Truthy(t) {
          b.SetToken(ToJsString(t));
        }
        var m := Member(data, "message");
        toast := Some(Toast("Success", if Truthy(m) then m else Str("Login successful"), false));
        isLoading := false;
        navigate := Some(LoginTarget(OnboardingStatus.HasCompleted(b)));
      } else {
        var d := if outcome.Answered? then Some(Str(UnexpectedError)) else ErrorDescription(outcome);
        if d.Some? {
          toast := Some(Toast("Warning", d.value, true));
          isLoading := false;
        } else {
          toast := None;
        }
      }
    }
  }
}
