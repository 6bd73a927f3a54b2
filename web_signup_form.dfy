/**
 * The sign-up form (frontend/src/components/auth/signup-form.tsx): the
 * password-strength meter, the validation rules checked in order, and the
 * form's state across typing and submitting.
 */
module WebSignupForm {
  import opened Wrappers
  import opened Strings
  import opened Js
  import opened Unicode
  import opened WebApiClient
  import opened WebAuthHook
  import opened WebAuthConfig

  const SpecialChars: set<char> := {'!', '@', '#', '$', '%', '^', '&', '*', '(', ')', ',', '.', '?', '"', ':', '{', '}', '|', '<', '>'}
  const MinPasswordLength := 8
  const LongPasswordLength := 12
  const SuccessMessage := "Registration successful! Redirecting..."
  const SubmitFallback := "An error occurred during registration"

  predicate HasLower(s: string) { exists c :: c in s && 'a' <= c <= 'z' }
  predicate HasUpper(s: string) { exists c :: c in s && 'A' <= c <= 'Z' }
  predicate HasDigit(s: string) { exists c :: c in s && '0' <= c <= '9' }
  predicate HasSpecial(s: string) { exists c :: c in s && c in SpecialChars }

  /** `calculatePasswordStrength`: points for length and for each character class present. */
  function Strength(password: string): (r: nat)
    ensures r <= 100 && r % 5 == 0
  {
    (if Utf16Length(password) >= MinPasswordLength then 20 else 0) +
    (if Utf16Length(password) >= LongPasswordLength then 10 else 0) +
    (if HasLower(password) then 20 else 0) +
    (if HasUpper(password) then 20 else 0) +
    (if HasDigit(password) then 15 else 0) +
    (if HasSpecial(password) then 15 else 0)
  }

  /** The meter's label. */
  function StrengthLabel(strength: nat): string {
    if strength < 40 then "Weak" else if strength < 70 then "Fair" else if strength < 90 then "Good" else "Strong"
  }

  /** The password rules of `validateForm`: at least eight UTF-16 units and one character of each class. */
  predicate PasswordRulesHold(password: string) {
    Utf16Length(password) >= MinPasswordLength &&
    HasLower(password) && HasUpper(password) && HasDigit(password) && HasSpecial(password)
  }

  /**
   * The meter shows "Strong" exactly for the passwords the form accepts: a
   * short password scores at most 70, and an accepted one can only lack
   * the 10 points for twelve characters.
   */
  lemma StrongIffRulesHold(password: string)
    ensures StrengthLabel(Strength(password)) == "Strong" <==> PasswordRulesHold(password)
  {
  }

  /**
   * The form's email test `/\S+@\S+\.\S+/`: somewhere in the address a
   * non-space character, `@`, a run of non-space characters, `.`, and a
   * non-space character.
   */
  predicate EmailLooksValid(s: string) {
    exists at, dot :: 0 < at && at + 1 < dot && dot + 1 < |s| && EmailShapeAt(s, at, dot)
  }

  predicate EmailShapeAt(s: string, at: int, dot: int)
    requires 0 < at && at + 1 < dot && dot + 1 < |s|
  {
    s[at] == '@' && s[dot] == '.' && !IsJsSpace(s[at - 1]) && !IsJsSpace(s[dot + 1]) &&
    forall k :: at < k < dot ==> !IsJsSpace(s[k])
  }

  /** Every address the configuration's stricter pattern accepts passes the form's test. */
  lemma ConfigEmailPassesForm(s: string)
    requires ConfigEmailValid(s)
    ensures EmailLooksValid(s)
  {
    var at, dot :| 0 < at && at + 1 < dot && dot + 1 < |s| && ConfigEmailAt(s, at, dot);
    assert EmailShapeAt(s, at, dot);
  }

  datatype FormData = FormData(email: string, password: string, confirmPassword: string)

  /** `validateForm`: the message of the first rule that fails, in the form's order, or `None`. */
  function ValidateForm(f: FormData): Option<string> {
    if f.email == "" then Some("Email is required")
    else if !EmailLooksValid(f.email) then Some("Email is invalid")
    else if f.password == "" then Some("Password is required")
    else if Utf16Length(f.password) < MinPasswordLength then Some("Password must be at least 8 characters long")
    else if !HasLower(f.password) then Some("Password must contain at least one lowercase letter")
    else if !HasUpper(f.password) then Some("Password must contain at least one uppercase letter")
    else if !HasDigit(f.password) then Some("Password must contain at least one number")
    else if !HasSpecial(f.password) then Some("Password must contain at least one special character (!@#$%^&*(),.?\":{}|<>)")
    else if f.confirmPassword == "" then Some("Please confirm your password")
    else if f.password != f.confirmPassword then Some("Passwords do not match")
    else None
  }

  /** A form the rules accept. */
  predicate FormValid(f: FormData) {
    EmailLooksValid(f.email) && PasswordRulesHold(f.password) && f.confirmPassword == f.password
  }

  /**
   * `validateForm` passes exactly the valid forms, and a valid form is one
   * whose password the meter calls "Strong".
   */
  lemma ValidateFormSound(f: FormData)
    ensures ValidateForm(f) == None <==> FormValid(f)
    ensures ValidateForm(f) == None ==> StrengthLabel(Strength(f.password)) == "Strong"
  {
    if EmailLooksValid(f.email) {
      var at, dot :| 0 < at && at + 1 < dot && dot + 1 < |f.email| && EmailShapeAt(f.email, at, dot);
      assert f.email != "";
    }
    if PasswordRulesHold(f.password) {
      Utf16LengthBounds(f.password);
    }
    StrongIffRulesHold(f.password);
  }

  /** The password rule messages come in the order the rules are listed: a short password is reported as short first. */
  lemma ShortPasswordReportedFirst(f: FormData)
    requires EmailLooksValid(f.email) && f.password != "" && Utf16Length(f.password) < MinPasswordLength
    ensures ValidateForm(f) == Some("Password must be at least 8 characters long")
  {
    var at, dot :| 0 < at && at + 1 < dot && dot + 1 < |f.email| && EmailShapeAt(f.email, at, dot);
    assert f.email != "";
  }

  datatype Field = EmailField | PasswordField | ConfirmPasswordField

  class SignupForm {
    const auth: AuthProvider
    var form: FormData
    var loading: bool
    var error: Option<string>
    var success: Option<string>
    var passwordStrength: nat
    /** Navigations scheduled with `setTimeout`. */
    var scheduled: seq<string>

    constructor (auth: AuthProvider)
      ensures this.auth == auth && form == FormData("", "", "") && !loading
      ensures error == None && success == None && passwordStrength == 0 && scheduled == []
    {
      this.auth := auth;
      form := FormData("", "", "");
      loading := false;
      error := None;
      success := None;
      passwordStrength := 0;
      scheduled := [];
    }

    /** `handleChange`: store the value, re-score a password, and clear any error. */
    method HandleChange(field: Field, value: string)
      modifies this
      ensures form == (match field
        case EmailField => old(form).(email := value)
        case PasswordField => old(form).(password := value)
        case ConfirmPasswordField => old(form).(confirmPassword := value))
      ensures passwordStrength == (if field.PasswordField? then Strength(value) else old(passwordStrength))
      ensures error == None
      ensures loading == old(loading) && success == old(success) && scheduled == old(scheduled)
    {
      match field {
      case EmailField => form := form.(email := value);
      case PasswordField =>
        form := form.(password := value);
        passwordStrength := Strength(value);
      case ConfirmPasswordField => form := form.(confirmPassword := value);
      }
      if error.Some? {
        error := None;
      }
    }

    /**
     * `handleSubmit`: an invalid form shows the first failing rule and sends
     * nothing; a valid one is registered through the session provider with
     * `answer` as the server's reply.
     */
    method HandleSubmit(answer: CallResult<AuthResponse>) returns (request: Option<Request>)
      modifies this, auth, auth.client.storage
      ensures form == old(form)
      ensures ValidateForm(form).Some? ==>
        request == None && error == ValidateForm(form) && success == None && scheduled == old(scheduled) &&
        loading == old(loading) && unchanged(auth, auth.client.storage)
      ensures ValidateForm(form).None? ==>
        request == Some(SignupRequest(form.email, form.password, form.confirmPassword)) && !loading && !auth.loading
      ensures ValidateForm(form).None? && answer.Responded? && Truthy(AnswerToken(answer.data)) ==>
        success == Some(SuccessMessage) && error == None && scheduled == old(scheduled) + [TasksPage] &&
        auth.Signed(old(auth.client.storage.items), answer.data, TasksPage, old(auth.navigations))
      ensures ValidateForm(form).None? && !(answer.Responded? && Truthy(AnswerToken(answer.data))) ==>
        var message := if answer.Failed? then WebAuthHook.ErrorMessage(answer.failure, RegisterFallback) else RegisterFallback;
        success == None && scheduled == old(scheduled) && error == Some(message) &&
        auth.Refused(old(auth.client.storage.items), old(auth.currentUser), old(auth.isAuthenticated), old(auth.navigations), message)
    {
      error := None;
      success := None;
      request := None;
      var invalid := ValidateForm(form);
      if invalid.Some? {
        error := invalid;
        return;
      }
      loading := true;
      request := Some(SignupRequest(form.email, form.password, form.confirmPassword));
      var r := auth.Register(answer);
      match r {
      case Resolved(_) =>
        success := Some(SuccessMessage);
        scheduled := scheduled + [TasksPage];
      case Thrown(message) =>
        error := Some(Or(Some(message), SubmitFallback));
      }
      loading := false;
    }
  }

  /**
   * The form's own fallback message is never shown: every message the
   * session provider throws is non-empty.
   */
  lemma SubmitFallbackUnreachable(f: CallFailure)
    ensures WebAuthHook.ErrorMessage(f, RegisterFallback) != ""
    ensures Or(Some(WebAuthHook.ErrorMessage(f, RegisterFallback)), SubmitFallback) == WebAuthHook.ErrorMessage(f, RegisterFallback)
  {
  }
}
