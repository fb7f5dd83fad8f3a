/**
 * The password-reset flow: ask for an OTP by email, verify the OTP, then set
 * a new password. The current step only moves forward on a successful
 * request and back on the Back buttons.
 */
module ResetPassword {
  import opened JsText
  import opened JsValues
  import opened BrowserState

  datatype Step = EmailStep | OtpStep | ChangePasswordStep

  /** What can happen to the flow: request results and Back presses. */
  datatype Event =
    | OtpSent | OtpRequestFailed
    | OtpVerified | OtpRejected
    | PasswordReset | PasswordResetFailed
    | Back

  /** The form rendered in a step is the only one whose events can occur. */
  predicate Enabled(s: Step, e: Event) {
    match e
    case OtpSent => s == EmailStep
    case OtpRequestFailed => s == EmailStep
    case OtpVerified => s == OtpStep
    case OtpRejected => s == OtpStep
    case PasswordReset => s == ChangePasswordStep
    case PasswordResetFailed => s == ChangePasswordStep
    case Back => s != EmailStep
  }

  function Next(s: Step, e: Event): Step {
    match e
    case OtpSent => OtpStep
    case OtpVerified => ChangePasswordStep
    case Back => if s == ChangePasswordStep then OtpStep else EmailStep
    case _ => s
  }

  /** The step after a run of events, each enabled where it occurs; None if one is not. */
  function Run(s: Step, events: seq<Event>): Option<Step>
    decreases |events|
  {
    if events == [] then Some(s)
    else if !Enabled(s, events[0]) then None
    else Run(Next(s, events[0]), events[1..])
  }

  /** The password form is reached only through a verified OTP, and the OTP form only through a sent one. */
  lemma {:induction false} ChangePasswordNeedsVerifiedOtp(s: Step, events: seq<Event>)
    requires Run(s, events) == Some(ChangePasswordStep)
    ensures s == ChangePasswordStep || OtpVerified in events
    ensures s == EmailStep ==> OtpSent in events
    decreases |events|
  {
    if events != [] {
      var e := events[0];
      assert events == [e] + events[1..];
      ChangePasswordNeedsVerifiedOtp(Next(s, e), events[1..]);
    }
  }

  /** A failed request never moves the flow. */
  lemma FailuresStay(s: Step, e: Event)
    requires e in {OtpRequestFailed, OtpRejected, PasswordResetFailed, PasswordReset}
    ensures Next(s, e) == s
  {
  }

  /** `"${email}"`: the request body of the forgot-password call, a JSON string built by hand. */
  function ForgotPasswordBody(email: string): (r: string)
    ensures |r| == |email| + 2 && r[0] == '"' && r[|r| - 1] == '"' && r[1..|r| - 1] == email
  {
    "\"" + email + "\""
  }

  datatype VerifyRequest = VerifyRequest(otp: string, email: string, purpose: string)
  datatype ResetRequest = ResetRequest(email: string, newPassword: string)

  /** `data.message || fallback`; a null or undefined body throws, which shows the handler's error toast instead. */
  function SuccessToast(data: JsValue, fallback: string, failure: string): (r: Toast)
    requires fallback != ""
    ensures IsNullish(data) ==> r == Toast("Error", Str(failure), true)
    ensures !IsNullish(data) ==> r.title == "Success" && Truthy(r.description) && !r.destructive
  {
    if IsNullish(data) then Toast("Error", Str(failure), true)
    else
      var m := Member(data, "message");
      Toast("Success", if Truthy(m) then m else Str(fallback), false)
  }

  class ResetFlow {
    var email: string
    var step: Step
    var isLoading: bool
    var isOtpSubmitting: bool
    var isChangePasswordSubmitting: bool

    constructor()
      ensures step == EmailStep && email == ""
      ensures !isLoading && !isOtpSubmitting && !isChangePasswordSubmitting
    {
      email := "";
      step := EmailStep;
      isLoading := false;
      isOtpSubmitting := false;
      isChangePasswordSubmitting := false;
    }

    /**
     * The email form's submit. `response` is the forgot-password response
     * body, None when the request failed. The step moves before the toast is
     * built, so even a body that makes the toast throw leaves the flow at OTP.
     */
    method SubmitEmail(value: string, isEmail: string -> bool, response: Option<JsValue>)
        returns (body: Option<string>, toast: Option<Toast>)
      requires step == EmailStep
      modifies this
      ensures body.Some? <==> isEmail(value)
      ensures body.Some? ==> body.value == ForgotPasswordBody(value)
      ensures body.None? ==> step == old(step) && email == old(email) && toast.None?
      ensures body.Some? ==> step == Next(old(step), if response.Some? then OtpSent else OtpRequestFailed)
      ensures body.Some? ==> email == (if response.Some? then value else old(email))
      ensures body.Some? ==> toast == Some(
                if response.Some? then SuccessToast(response.value, "OTP sent to your email", "An error occurred while processing your request")
                else Toast("Error", Str("An error occurred while processing your request"), true))
      ensures isLoading == (old(isLoading) && body.None?)
      ensures isOtpSubmitting == old(isOtpSubmitting) && isChangePasswordSubmitting == old(isChangePasswordSubmitting)
    {
      if !isEmail(value) {
        return None, None;
      }
      body := Some(ForgotPasswordBody(value));
      isLoading := true;
      if response.Some? {
        email := value;
        step := OtpStep;
        toast := Some(SuccessToast(response.value, "OTP sent to your email", "An error occurred while processing your request"));
      } else {
        toast := Some(Toast("Error", Str("An error occurred while processing your request"), true));
      }
      isLoading := false;
    }

    /** `handleOtpVerify(otp)`, with the verification result. */
    method VerifyOtp(otp: string, verified: bool) returns (request: VerifyRequest, toast: Option<Toast>)
      requires step == OtpStep
      modifies this
      ensures request == VerifyRequest(otp, email, "reset_password")
      ensures step == Next(old(step), if verified then OtpVerified else OtpRejected)
      ensures email == old(email) && !isOtpSubmitting
      ensures toast.Some? <==> !verified
    {
      isOtpSubmitting := true;
      request := VerifyRequest(otp, email, "reset_password");
      if verified {
        step := ChangePasswordStep;
        toast := None;
      } else {
        toast := Some(Toast("Error", Str("Failed to verify OTP. Please try again."), true));
      }
      isOtpSubmitting := false;
    }

    /**
     * `handlePasswordChange(newPassword)`. `response` is the reset response
     * body, None when the request failed; `onSuccess` is called only after
     * the success toast was built.
     */
    method ChangePassword(newPassword: string, response: Option<JsValue>)
        returns (request: ResetRequest, toast: Toast, callsOnSuccess: bool)
      requires step == ChangePasswordStep
      modifies this
      ensures request == ResetRequest(email, newPassword)
      ensures step == old(step) && email == old(email) && !isChangePasswordSubmitting
      ensures callsOnSuccess <==> response.Some? && !IsNullish(response.value)
      ensures callsOnSuccess ==> toast.title == "Success"
      ensures !callsOnSuccess ==> toast == Toast("Error", Str("Failed to reset password. Please try again."), true)
    {
      isChangePasswordSubmitting := true;
      request := ResetRequest(email, newPassword);
      if response.Some? {
        toast := SuccessToast(response.value, "Password reset successfully", "Failed to reset password. Please try again.");
        callsOnSuccess := !IsNullish(response.value);
      } else {
        toast := Toast("Error", Str("Failed to reset password. Please try again."), true);
        callsOnSuccess := false;
      }
      isChangePasswordSubmitting := false;
    }

    /** The Back button of the OTP form and of the password form. */
    method GoBack()
      requires step != EmailStep
      modifies this
      ensures step == Next(old(step), Back)
      ensures step == (if old(step) == ChangePasswordStep then OtpStep else EmailStep)
      ensures email == old(email)
    {
      step := if step == ChangePasswordStep then OtpStep else EmailStep;
    }
  }
}
