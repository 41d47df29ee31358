/** The registration page: two client checks in a fixed order, then the
    register call, whose result is an input. */
module Register {
  import opened Common
  import opened Strings
  import AuthController

  /** What the auth context's `register` resolved to. */
  datatype RegisterResult = RegisterResult(token: Option<string>, message: Option<string>)

  /** What a submit shows: whether `register` was called, whether the page
      navigates, and the message it leaves. */
  datatype Outcome = Outcome(called: bool, navigated: bool, message: string)

  /** `handleSubmit`: a confirmation mismatch is reported before the length,
      a short password next; only then is `register` called, navigating
      exactly when the result has a token. */
  function Submit(password: string, confirm: string, result: Option<RegisterResult>): (o: Outcome)
    ensures password != confirm ==> o == Outcome(false, false, "Passwords do not match")
    ensures password == confirm && JsLength(password) < 6 ==> o == Outcome(false, false, "Password must be at least 6 characters long")
    ensures o.called <==> password == confirm && JsLength(password) >= 6
    ensures o.navigated <==> o.called && result.Some? && TruthyText(result.value.token)
    ensures o.navigated ==> o.message == ""
    ensures o.called && !o.navigated ==>
      o.message == (if result.Some? then TextOr(result.value.message, "Registration failed. Please try again.")
                    else "Registration failed. Please try again.")
  {
    if password != confirm then Outcome(false, false, "Passwords do not match")
    else if JsLength(password) < 6 then Outcome(false, false, "Password must be at least 6 characters long")
    else if result.Some? && TruthyText(result.value.token) then Outcome(true, true, "")
    else Outcome(true, false, if result.Some? then TextOr(result.value.message, "Registration failed. Please try again.")
                              else "Registration failed. Please try again.")
  }

  /** The page already enforces the backend's password rule, so a request it
      sends can fail validation only on a blank name or email. */
  lemma PageChecksCoverPassword(name: string, email: string, password: string, confirm: string, result: Option<RegisterResult>)
    requires Submit(password, confirm, result).called
    ensures AuthController.ValidRegistration(Some(name), Some(email), Some(password)) <==>
      !AuthController.Blank(Some(name)) && !AuthController.Blank(Some(email))
  {
  }
}
