/**
 * The change-password step of the reset flow: the password rule plus a
 * confirmation that must match, reported on `confirmPassword` only. Only
 * the new password is handed on.
 */
module ChangePassword {
  import opened JsText
  import opened PasswordRule

  datatype ChangePasswordValues = ChangePasswordValues(password: string, confirmPassword: string)

  const MismatchMessage: string := "Passwords do not match"

  /** The issues of `changePasswordSchema`, in the order Zod reports them. */
  function ChangePasswordIssues(v: ChangePasswordValues): (r: seq<Issue>)
    ensures v.password != v.confirmPassword ==> r != [] && r[|r| - 1] == Issue("confirmPassword", MismatchMessage)
    ensures v.password == v.confirmPassword ==> forall x :: x in r ==> x.path == "password"
  {
    PasswordIssues("password", v.password)
    + (if v.password == v.confirmPassword then [] else [Issue("confirmPassword", MismatchMessage)])
  }

  /** The schema accepts exactly a password that meets the rule, confirmed by an equal string. */
  lemma ChangePasswordAcceptedIff(v: ChangePasswordValues)
    ensures ChangePasswordIssues(v) == [] <==> RegexMatches(v.password) && v.confirmPassword == v.password
    ensures ChangePasswordIssues(v) == [] ==>
              |v.password| >= 8 && HasLower(v.password) && HasUpper(v.password)
              && HasDigit(v.password) && HasSpecial(v.password)
  {
    if RegexMatches(v.password) {
      AcceptedPasswordHasEveryClass(v.password);
    }
  }

  /**
   * The confirmation field shows an error exactly when the two entries
   * differ, and that error is the mismatch message; the rule's own messages
   * go to `password`.
   */
  lemma {:induction false} MismatchOnlyOnConfirm(v: ChangePasswordValues)
    ensures FieldError(ChangePasswordIssues(v), "confirmPassword") ==
            if v.password == v.confirmPassword then None else Some(MismatchMessage)
    ensures forall x :: x in ChangePasswordIssues(v) ==> x.path in {"password", "confirmPassword"}
  {
    var p := PasswordIssues("password", v.password);
    var m := if v.password == v.confirmPassword then [] else [Issue("confirmPassword", MismatchMessage)];
    assert forall x :: x in p ==> x.path == "password";
    FieldErrorSkips(p, m, "confirmPassword");
    if m != [] {
      assert m[0] == Issue("confirmPassword", MismatchMessage);
    }
  }

  /** `form.handleSubmit(handleSubmit)`: what `onSubmit` receives, if it is called. */
  function Submitted(v: ChangePasswordValues): (r: Option<string>)
    ensures r.Some? <==> RegexMatches(v.password) && v.confirmPassword == v.password
    ensures r.Some? ==> r.value == v.password
  {
    ChangePasswordAcceptedIff(v);
    if ChangePasswordIssues(v) == [] then Some(v.password) else None
  }
}
