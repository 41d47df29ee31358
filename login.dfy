/** The login page: its form validation, the error clearing on edit, and what
    a submit leads to. The login call itself belongs to the auth context, which
    is outside the model; its result is an input. */
module Login {
  import opened Common
  import opened Strings

  /** `/\S+@\S+\.\S+/.test(email)`: somewhere in the text, a non-blank
      character, '@', a non-blank run, '.', and a non-blank character. The
      pattern has no anchors, so the rest of the text may be anything. */
  predicate EmailShaped(s: string) {
    exists sign, dot {:trigger NonBlankBetween(s, sign, dot)} :: 1 <= sign && sign + 1 < dot && dot + 1 < |s| && s[sign] == '@' && s[dot] == '.'
      && !IsSpace(s[sign - 1]) && !IsSpace(s[dot + 1]) && NonBlankBetween(s, sign, dot)
  }

  /** No blank strictly between the two positions. */
  predicate NonBlankBetween(s: string, lo: int, hi: int)
    requires 0 <= lo <= hi <= |s|
  {
    forall m :: lo < m < hi ==> !IsSpace(s[m])
  }

  /** A text without '@' never passes. */
  lemma EmailNeedsSign(s: string)
    requires '@' !in s
    ensures !EmailShaped(s)
  {
  }

  /** The test finds its match anywhere: text around a match keeps it a
      match. */
  lemma EmailShapeUnanchored(s: string, before: string, after: string)
    requires EmailShaped(s)
    ensures EmailShaped(before + s + after)
  {
    var sign, dot :| 1 <= sign && sign + 1 < dot && dot + 1 < |s| && s[sign] == '@' && s[dot] == '.'
      && !IsSpace(s[sign - 1]) && !IsSpace(s[dot + 1]) && NonBlankBetween(s, sign, dot);
    var t := before + s + after;
    var o := |before|;
    InContext(s, before, after, sign);
    InContext(s, before, after, dot);
    InContext(s, before, after, sign - 1);
    InContext(s, before, after, dot + 1);
    assert NonBlankBetween(t, o + sign, o + dot) by {
      forall m | o + sign < m < o + dot ensures !IsSpace(t[m]) {
        InContext(s, before, after, m - o);
      }
    }
    Witness(t, o + sign, o + dot);
  }

  lemma InContext(s: string, before: string, after: string, m: int)
    requires 0 <= m < |s|
    ensures |before + s + after| == |before| + |s| + |after|
    ensures (before + s + after)[|before| + m] == s[m]
  {
  }

  lemma Witness(s: string, sign: int, dot: int)
    requires 1 <= sign && sign + 1 < dot && dot + 1 < |s| && s[sign] == '@' && s[dot] == '.'
    requires !IsSpace(s[sign - 1]) && !IsSpace(s[dot + 1]) && NonBlankBetween(s, sign, dot)
    ensures EmailShaped(s)
  {
  }

  /** The shortest kind of address passes. */
  lemma ShortestEmail(x: char, y: char, z: char)
    requires !IsSpace(x) && !IsSpace(y) && !IsSpace(z)
    ensures EmailShaped([x, '@', y, '.', z])
  {
    var e := [x, '@', y, '.', z];
    assert e[1] == '@' && e[3] == '.' && e[0] == x && e[4] == z;
    assert NonBlankBetween(e, 1, 3) by {
      forall m | 1 < m < 3 ensures !IsSpace(e[m]) {
        assert m == 2 && e[2] == y;
      }
    }
  }

  function EmailError(email: string): Option<string> {
    if email == "" then Some("Email is required")
    else if !EmailShaped(email) then Some("Email is invalid")
    else None
  }

  function PasswordError(password: string): Option<string> {
    if password == "" then Some("Password is required")
    else if JsLength(password) < 6 then Some("Password must be at least 6 characters")
    else None
  }

  /** `validateForm`: one entry per failing field, filled in field by field;
      the form is valid exactly when no entry was made. */
  method ValidateForm(email: string, password: string) returns (errors: map<string, string>, valid: bool)
    ensures errors.Keys <= {"email", "password"}
    ensures "email" in errors <==> EmailError(email).Some?
    ensures "email" in errors ==> errors["email"] == EmailError(email).value
    ensures "password" in errors <==> PasswordError(password).Some?
    ensures "password" in errors ==> errors["password"] == PasswordError(password).value
    ensures valid <==> errors == map[]
    ensures valid <==> email != "" && EmailShaped(email) && JsLength(password) >= 6
  {
    errors := map[];
    if email == "" {
      errors := errors["email" := "Email is required"];
    } else if !EmailShaped(email) {
      errors := errors["email" := "Email is invalid"];
    }
    if password == "" {
      errors := errors["password" := "Password is required"];
    } else if JsLength(password) < 6 {
      errors := errors["password" := "Password must be at least 6 characters"];
    }
    valid := |errors.Keys| == 0;
    if !valid {
      assert errors.Keys != {};
    }
  }

  /** `handleChange`, on the errors: the edited field's message is emptied
      when it has one; every other entry stays. */
  function ClearError(errors: map<string, string>, name: string): (r: map<string, string>)
    ensures r.Keys == errors.Keys
    ensures name in errors && errors[name] != "" ==> r[name] == ""
    ensures forall k :: k in errors && (k != name || errors[k] == "") ==> r[k] == errors[k]
  {
    if name in errors && errors[name] != "" then errors[name := ""] else errors
  }

  /** What the auth context's `login` resolved to: absent, or a result with
      an optional token and message. */
  datatype LoginResult = LoginResult(token: Option<string>, message: Option<string>)

  datatype Outcome = NotSubmitted | Navigated | Rejected(message: string)

  /** `handleSubmit` once the form is valid: navigation exactly when the
      result has a token; otherwise its message or a default; a thrown call
      its own message. */
  function SubmitOutcome(result: Remote<Option<LoginResult>>): (o: Outcome)
    ensures o == Navigated <==> result.Succeeded? && result.data.Some? && TruthyText(result.data.value.token)
    ensures result.Failed? ==> o == Rejected("An unexpected error occurred. Please try again.")
    ensures result.Succeeded? && result.data.None? ==> o == Rejected("Login failed. Please check your credentials.")
    ensures o != NotSubmitted
  {
    match result
    case Failed(_) => Rejected("An unexpected error occurred. Please try again.")
    case Succeeded(data) =>
      if data.Some? && TruthyText(data.value.token) then Navigated
      else Rejected(if data.Some? then TextOr(data.value.message, "Login failed. Please check your credentials.")
                  else "Login failed. Please check your credentials.")
  }

  class LoginState {
    var email: string
    var password: string
    var errors: map<string, string>

    constructor ()
      ensures email == "" && password == "" && errors == map[]
    {
      email, password, errors := "", "", map[];
    }

    /** `handleChange` for the two fields. */
    method Change(name: string, value: string)
      modifies this
      ensures email == (if name == "email" then value else old(email))
      ensures password == (if name == "password" then value else old(password))
      ensures errors == ClearError(old(errors), name)
    {
      if name == "email" {
        email := value;
      } else if name == "password" {
        password := value;
      }
      errors := ClearError(errors, name);
    }

    /** `handleSubmit`: an invalid form records exactly the messages of
        `validateForm` and calls nothing; a valid one calls `login` and records
        only a submit error, if any. */
    method Submit(result: Remote<Option<LoginResult>>) returns (o: Outcome)
      modifies this
      ensures email == old(email) && password == old(password)
      ensures !(old(email) != "" && EmailShaped(old(email)) && JsLength(old(password)) >= 6) ==>
        && o == NotSubmitted && errors != map[]
        && errors.Keys <= {"email", "password"}
        && ("email" in errors <==> EmailError(old(email)).Some?)
        && ("email" in errors ==> errors["email"] == EmailError(old(email)).value)
        && ("password" in errors <==> PasswordError(old(password)).Some?)
        && ("password" in errors ==> errors["password"] == PasswordError(old(password)).value)
      ensures old(email) != "" && EmailShaped(old(email)) && JsLength(old(password)) >= 6 ==>
        && o == SubmitOutcome(result)
        && errors == (if o.Rejected? then map["submit" := o.message] else map[])
    {
      var found, valid := ValidateForm(email, password);
      errors := found;
      if !valid {
        return NotSubmitted;
      }
      o := SubmitOutcome(result);
      if o.Rejected? {
        errors := map["submit" := o.message];
      }
    }
  }
}
