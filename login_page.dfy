/**
 * The login form: field values, per-field error messages, the validation
 * that runs before any login attempt, and the handling of the attempt's outcome.
 */
module LoginPage {
  import opened Text

  /**
   * The unanchored regular expression `\S+@\S+\.\S+`: some slice s[a..e] of `s`
   * is a non-empty run of non-space characters, `@` at i, another such run,
   * `.` at d, and a third run.
   */
  ghost predicate MatchesEmailPattern(s: string) {
    exists a, i, d, e :: PatternAt(s, a, i, d, e)
  }

  ghost predicate PatternAt(s: string, a: int, i: int, d: int, e: int) {
    && 0 <= a < i && i + 1 < d && d + 1 < e <= |s|
    && s[i] == '@' && s[d] == '.'
    && NoSpace(s[a..i]) && NoSpace(s[i + 1..d]) && NoSpace(s[d + 1..e])
  }

  /**
   * The test the page performs, with the first and the last run cut down to
   * the one character next to the `@` or the `.`.
   */
  predicate LooksLikeEmail(s: string) {
    exists i, d | 1 <= i < |s| && i + 1 < d < |s| - 1 :: ShortPatternAt(s, i, d)
  }

  predicate ShortPatternAt(s: string, i: int, d: int)
    requires 1 <= i < |s| && i + 1 < d < |s| - 1
  {
    && s[i] == '@' && s[d] == '.'
    && !IsSpace(s[i - 1]) && NoSpace(s[i + 1..d]) && !IsSpace(s[d + 1])
  }

  /** The shortened test accepts exactly the strings the regular expression matches. */
  lemma LooksLikeEmailIsPattern(s: string)
    ensures LooksLikeEmail(s) <==> MatchesEmailPattern(s)
  {
    if LooksLikeEmail(s) {
      var i, d :| 1 <= i < |s| && i + 1 < d < |s| - 1 && ShortPatternAt(s, i, d);
      assert PatternAt(s, i - 1, i, d, d + 2);
    }
    if MatchesEmailPattern(s) {
      var a, i, d, e :| PatternAt(s, a, i, d, e);
      assert s[i - 1] == s[a..i][i - 1 - a];
      assert s[d + 1] == s[d + 1..e][0];
      assert ShortPatternAt(s, i, d);
    }
  }

  /** The email message: presence first, then the pattern. */
  function EmailError(email: string): (msg: string)
    ensures msg == "Email is required" <==> email == []
    ensures msg == "Email is invalid" <==> email != [] && !MatchesEmailPattern(email)
    ensures msg == [] <==> MatchesEmailPattern(email)
  {
    LooksLikeEmailIsPattern(email);
    if email == [] then "Email is required"
    else if !LooksLikeEmail(email) then "Email is invalid"
    else ""
  }

  /** The password message: presence first, then a length of at least 6 UTF-16 code units. */
  function PasswordError(password: string): (msg: string)
    ensures msg == "Password is required" <==> password == []
    ensures msg == "Password must be at least 6 characters" <==> password != [] && Utf16Length(password) < 6
    ensures msg == [] <==> Utf16Length(password) >= 6
  {
    if password == [] then "Password is required"
    else if Utf16Length(password) < 6 then "Password must be at least 6 characters"
    else ""
  }

  /** The two inputs, named `email` and `password`. */
  datatype LoginField = EmailInput | PasswordInput

  datatype LoginErrors = LoginErrors(email: string, password: string, general: string)

  /** What the session's `login` call does with the credentials. */
  datatype LoginReply = Accepted | Rejected | Threw

  class LoginForm {
    var email: string
    var password: string
    var errors: LoginErrors

    constructor ()
      ensures email == [] && password == [] && errors == LoginErrors([], [], [])
    {
      email, password := [], [];
      errors := LoginErrors([], [], []);
    }

    /** `handleChange`: sets the edited field and clears that field's error only. */
    method HandleChange(field: LoginField, value: string)
      modifies this
      ensures field == EmailInput ==> email == value && password == old(password)
      ensures field == PasswordInput ==> password == value && email == old(email)
      ensures field == EmailInput ==> errors == old(errors).(email := [])
      ensures field == PasswordInput ==> errors == old(errors).(password := [])
    {
      match field
      case EmailInput =>
        email := value;
        if errors.email != [] {
          errors := errors.(email := []);
        }
      case PasswordInput =>
        password := value;
        if errors.password != [] {
          errors := errors.(password := []);
        }
    }

    /**
     * `validateForm`: checks both fields in one pass, replaces all three
     * messages (`general` becomes empty) and reports whether both passed.
     */
    method ValidateForm() returns (valid: bool)
      modifies this
      ensures email == old(email) && password == old(password)
      ensures errors == LoginErrors(EmailError(email), PasswordError(password), [])
      ensures valid <==> MatchesEmailPattern(email) && Utf16Length(password) >= 6
    {
      valid := true;
      var newErrors := LoginErrors([], [], []);
      LooksLikeEmailIsPattern(email);
      if email == [] {
        newErrors := newErrors.(email := "Email is required");
        valid := false;
      } else if !LooksLikeEmail(email) {
        newErrors := newErrors.(email := "Email is invalid");
        valid := false;
      }
      if password == [] {
        newErrors := newErrors.(password := "Password is required");
        valid := false;
      } else if Utf16Length(password) < 6 {
        newErrors := newErrors.(password := "Password must be at least 6 characters");
        valid := false;
      }
      errors := newErrors;
    }

    /**
     * `handleSubmit`: validates, and only when validation passes calls `login`;
     * a refusal or a failure of the call sets the general message, an
     * acceptance asks for the redirect to the ticket list.
     */
    method HandleSubmit(login: (string, string) -> LoginReply) returns (attempted: bool, redirect: bool)
      modifies this
      ensures email == old(email) && password == old(password)
      ensures attempted <==> MatchesEmailPattern(email) && Utf16Length(password) >= 6
      ensures !attempted ==> !redirect && errors == LoginErrors(EmailError(email), PasswordError(password), [])
      ensures attempted ==> redirect == (login(email, password) == Accepted)
      ensures attempted ==> errors == LoginErrors([], [], GeneralMessage(login(email, password)))
    {
      redirect := false;
      attempted := ValidateForm();
      if !attempted {
        return;
      }
      var reply := login(email, password);
      if reply == Accepted {
        redirect := true;
      } else if reply == Rejected {
        errors := errors.(general := "Invalid email or password");
      } else {
        errors := errors.(general := "An error occurred. Please try again.");
      }
    }
  }

  /** The general message left after a login attempt with this outcome. */
  function GeneralMessage(reply: LoginReply): (m: string)
    ensures m == [] <==> reply == Accepted
  {
    match reply
    case Accepted => []
    case Rejected => "Invalid email or password"
    case Threw => "An error occurred. Please try again."
  }

  /** Both fields are judged in the same pass: an empty form reports both messages at once. */
  lemma EmptyFormReportsBoth()
    ensures EmailError([]) == "Email is required" && PasswordError([]) == "Password is required"
  {
  }

  /** The seeded admin's credentials pass validation. */
  lemma SeedCredentialsPass()
    ensures EmailError("john@example.com") == [] && PasswordError("password123") == []
  {
    var s := "john@example.com";
    assert ShortPatternAt(s, 4, 12);
  }

  /**
   * The pattern is not anchored: text around an address-like slice is
   * accepted, while a domain without a dot is not.
   */
  lemma PatternIsUnanchored()
    ensures EmailError("mail me: a@b.c") == []
    ensures EmailError("a@b") == "Email is invalid"
  {
    var s := "mail me: a@b.c";
    assert ShortPatternAt(s, 10, 12);
  }
}
