/** The login form: e-mail and password are validated together before `login` is called. */
module Login {
  import opened Wrappers
  import opened Json
  import opened Effects
  import opened Text
  import opened EmailPattern

  const EmailRequired := "Email is required"
  const EmailInvalid := "Invalid Email"
  const PasswordRequired := "Password is required"
  const PasswordTooShort := "Password should be at least 8 characters long"
  const DashboardPath := "/dashboard"

  datatype LoginField = LoginEmail | LoginPassword

  type LoginErrors = map<LoginField, string>

  /** The record `validateform` fills: the e-mail rule first, then the password rule. */
  function FormErrors(email: string, password: string): LoginErrors {
    var none: LoginErrors := map[];
    var e := if email == "" then none[LoginEmail := EmailRequired]
             else if !ValidEmail(email) then none[LoginEmail := EmailInvalid]
             else none;
    if password == "" then e[LoginPassword := PasswordRequired]
    else if Utf16Length(password) < 8 then e[LoginPassword := PasswordTooShort]
    else e
  }

  /** The form is accepted exactly when the address matches the e-mail pattern and the
      password is at least eight UTF-16 code units long (`password.length`). */
  lemma FormErrorsEmptyIff(email: string, password: string)
    ensures FormErrors(email, password) == map[] <==> MatchesPattern(email) && Utf16Length(password) >= 8
  {
    ValidEmailMatchesPattern(email);
    if email == "" { EmptyIsNotValid(); }
    if !ValidEmail(email) { assert LoginEmail in FormErrors(email, password); }
    if Utf16Length(password) < 8 { assert LoginPassword in FormErrors(email, password); }
  }

  /** The length rule counts code units: four emoji are eight units, so such a password is
      long enough although it has only four characters. */
  lemma FourEmojiPasswordIsLongEnough(email: string)
    ensures LoginPassword !in FormErrors(email, "\U{1F600}\U{1F600}\U{1F600}\U{1F600}")
  {
    Utf16LengthAstral("\U{1F600}\U{1F600}\U{1F600}\U{1F600}");
  }

  /** Each field is flagged exactly when its own rule fails, and a missing value is reported as
      missing ahead of any other complaint. */
  lemma FormErrorsMessages(email: string, password: string)
    ensures var e := FormErrors(email, password);
      && (LoginEmail in e <==> !MatchesPattern(email))
      && (LoginEmail in e ==> e[LoginEmail] == if email == "" then EmailRequired else EmailInvalid)
      && (LoginPassword in e <==> Utf16Length(password) < 8)
      && (LoginPassword in e ==> e[LoginPassword] == if password == "" then PasswordRequired else PasswordTooShort)
  {
    ValidEmailMatchesPattern(email);
    if email == "" { EmptyIsNotValid(); }
  }

  /** How `login(email, password)` ended: its boolean, an axios error with the server's error
      record (or none), or some other error. */
  datatype LoginOutcome = Returned(success: bool) | AxiosFailure(data: Option<LoginErrors>) | OtherFailure

  function LoginCall(email: string, password: string): Event {
    Callback("login", Some(JArray([JString(email), JString(password)])))
  }

  class LoginPage {
    var email: string
    var password: string
    var errors: LoginErrors
    var log: seq<Event>

    constructor ()
      ensures email == "" && password == "" && errors == map[] && log == []
    {
      email, password, errors, log := "", "", map[], [];
    }

    /** `HandleEmailChange`. */
    method HandleEmailChange(value: string)
      modifies this`email, this`errors
      ensures email == value && errors == ClearError(old(errors), LoginEmail)
    {
      email := value;
      if LoginEmail in errors && errors[LoginEmail] != "" {
        errors := errors[LoginEmail := ""];
      }
    }

    /** `HandlePasswordChange`. */
    method HandlePasswordChange(value: string)
      modifies this`password, this`errors
      ensures password == value && errors == ClearError(old(errors), LoginPassword)
    {
      password := value;
      if LoginPassword in errors && errors[LoginPassword] != "" {
        errors := errors[LoginPassword := ""];
      }
    }

    /** `validateform`: fills a fresh record, replaces `errors` with it and reports whether it
        stayed empty. */
    method ValidateForm() returns (ok: bool)
      modifies this`errors
      ensures errors == FormErrors(email, password)
      ensures ok <==> MatchesPattern(email) && Utf16Length(password) >= 8
    {
      var validationErrors: LoginErrors := map[];
      if email == "" {
        validationErrors := validationErrors[LoginEmail := EmailRequired];
      } else if !ValidEmail(email) {
        validationErrors := validationErrors[LoginEmail := EmailInvalid];
      }
      if password == "" {
        validationErrors := validationErrors[LoginPassword := PasswordRequired];
      } else if Utf16Length(password) < 8 {
        validationErrors := validationErrors[LoginPassword := PasswordTooShort];
      }
      errors := validationErrors;
      ok := |validationErrors| == 0;
      FormErrorsEmptyIff(email, password);
      assert ok <==> validationErrors == map[];
    }

    /** `HandleLogin`: `login` is called only on a valid form, and the dashboard is opened only
        when it returns true; an axios error installs the server's error record. */
    method HandleLogin(outcome: LoginOutcome)
      modifies this`errors, this`log
      ensures !(MatchesPattern(email) && Utf16Length(password) >= 8) ==> errors == FormErrors(email, password) && log == old(log)
      ensures MatchesPattern(email) && Utf16Length(password) >= 8 ==>
        && log == old(log) + [LoginCall(email, password)]
                           + (if outcome == Returned(true) then [Navigate(DashboardPath)] else [])
        && errors == if outcome.AxiosFailure? then outcome.data.GetOr(map[]) else FormErrors(email, password)
    {
      var ok := ValidateForm();
      if ok {
        log := log + [LoginCall(email, password)];
        match outcome
        case Returned(success) =>
          if success {
            log := log + [Navigate(DashboardPath)];
          }
        case AxiosFailure(data) =>
          errors := data.GetOr(map[]);
        case OtherFailure =>
      }
    }
  }
}
