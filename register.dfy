/** The four-step registration form: names, e-mail, passwords, secret key. Each step is
    validated before the next is shown; the last step sends the registration. */
module Register {
  import opened Wrappers
  import opened Json
  import opened Effects
  import opened Text
  import opened EmailPattern

  const RegisterEndpoint := "/auth/register"
  const RegisteredNotice := "Registration successful"
  const SecretKeyLength := 4

  const FirstNameRequired := "First name is required"
  const LastNameRequired := "Last name is required"
  const EmailRequired := "Email is required"
  const EmailInvalid := "Invalid email format"
  const PasswordRequired := "Password is required"
  const PasswordTooShort := "Password should be at least 8 characters long"
  const ConfirmRequired := "Please confirm your password"
  const ConfirmMismatch := "Passwords do not match"
  const SecretKeyRequired := "Secret key is required"
  const SecretKeyWrongLength := "Secret key must be exactly 4 digits"

  datatype RegisterField = FirstName | LastName | Email | Password | ConfirmPassword | SecretKey

  /** `RegisterFormData`. */
  datatype FormData = FormData(firstName: string, lastName: string, email: string,
                               password: string, confirmPassword: string, secretKey: string)
  {
    /** `formData[field]`. */
    function Value(f: RegisterField): string {
      match f
      case FirstName => firstName
      case LastName => lastName
      case Email => email
      case Password => password
      case ConfirmPassword => confirmPassword
      case SecretKey => secretKey
    }

    /** `{ ...formData, [field]: v }`. */
    function With(f: RegisterField, v: string): (r: FormData)
      ensures r.Value(f) == v
      ensures forall g :: g != f ==> r.Value(g) == Value(g)
    {
      match f
      case FirstName => this.(firstName := v)
      case LastName => this.(lastName := v)
      case Email => this.(email := v)
      case Password => this.(password := v)
      case ConfirmPassword => this.(confirmPassword := v)
      case SecretKey => this.(secretKey := v)
    }
  }

  /** `FormErrors`: a message per field, any field may be missing. */
  type FormErrors = map<RegisterField, string>

  const EmptyForm := FormData("", "", "", "", "", "")

  // ---- The secret-key sanitiser: `value.replace(/\D/g, '').slice(0, 4)` ----

  /** `s.replace(/\D/g, '')`: the digits of `s`, in their order. */
  function Digits(s: string): (r: string)
    ensures |r| <= |s|
    ensures forall i :: 0 <= i < |r| ==> IsDigit(r[i])
  {
    if s == [] then [] else (if IsDigit(s[0]) then [s[0]] else []) + Digits(s[1..])
  }

  predicate AllDigits(s: string) {
    forall i :: 0 <= i < |s| ==> IsDigit(s[i])
  }

  function SanitiseSecretKey(value: string): (r: string) {
    var d := Digits(value);
    if |d| <= SecretKeyLength then d else d[..SecretKeyLength]
  }

  /** Removing the non-digits works piece by piece, so the digits keep their order. */
  lemma {:induction false} DigitsConcat(a: string, b: string)
    ensures Digits(a + b) == Digits(a) + Digits(b)
  {
    if a == [] {
      assert a + b == b;
    } else {
      assert (a + b)[1..] == a[1..] + b;
      DigitsConcat(a[1..], b);
    }
  }

  /** A string of digits is left as it is, and only such a string is. */
  lemma {:induction false} DigitsFixedIff(s: string)
    ensures Digits(s) == s <==> AllDigits(s)
  {
    if s != [] {
      DigitsFixedIff(s[1..]);
      if !IsDigit(s[0]) {
        assert |Digits(s)| < |s|;
      }
    }
  }

  /** The sanitised key has at most four characters, all digits, and it is the leading part
      of the input's digits (all of them when there are at most four). */
  lemma SanitiseSecretKeyFacts(value: string)
    ensures var r := SanitiseSecretKey(value);
      && |r| <= SecretKeyLength && AllDigits(r)
      && r == Digits(value)[..|r|]
      && (|Digits(value)| <= SecretKeyLength ==> r == Digits(value))
  {
  }

  /** Sanitising twice is sanitising once. */
  lemma SanitiseSecretKeyIdempotent(value: string)
    ensures SanitiseSecretKey(SanitiseSecretKey(value)) == SanitiseSecretKey(value)
  {
    var r := SanitiseSecretKey(value);
    DigitsFixedIff(r);
  }

  /** `Number(s)` for a string of digits; `Number("")` is `0`. */
  function DigitsValue(s: string): (n: nat)
    requires AllDigits(s)
  {
    if s == [] then 0 else DigitsValue(s[..|s| - 1]) * 10 + (s[|s| - 1] as int - '0' as int)
  }

  lemma {:induction false} DigitsValueBound(s: string)
    requires AllDigits(s)
    ensures DigitsValue(s) < Pow10(|s|)
  {
    if s != [] {
      DigitsValueBound(s[..|s| - 1]);
    }
  }

  function Pow10(k: nat): (p: nat)
    ensures p >= 1
  {
    if k == 0 then 1 else 10 * Pow10(k - 1)
  }

  /** A four-digit key is sent as a number below 10000. */
  lemma SecretKeyNumberBound(key: string)
    requires AllDigits(key) && |key| == SecretKeyLength
    ensures DigitsValue(key) < 10000
  {
    DigitsValueBound(key);
  }

  // ---- `validateStep` ----

  /** The errors `validateStep` records for `step`: only the fields of that step, and none for
      a step outside 0..3. */
  function StepErrors(step: int, form: FormData): FormErrors {
    var none: FormErrors := map[];
    if step == 0 then
      var e := if form.firstName == "" then none[FirstName := FirstNameRequired] else none;
      if form.lastName == "" then e[LastName := LastNameRequired] else e
    else if step == 1 then
      if form.email == "" then none[Email := EmailRequired]
      else if !ValidEmail(form.email) then none[Email := EmailInvalid]
      else none
    else if step == 2 then
      var e := if form.password == "" then none[Password := PasswordRequired]
               else if Utf16Length(form.password) < 8 then none[Password := PasswordTooShort]
               else none;
      if form.confirmPassword == "" then e[ConfirmPassword := ConfirmRequired]
      else if form.password != form.confirmPassword then e[ConfirmPassword := ConfirmMismatch]
      else e
    else if step == 3 then
      if form.secretKey == "" then none[SecretKey := SecretKeyRequired]
      else if Utf16Length(form.secretKey) != SecretKeyLength then none[SecretKey := SecretKeyWrongLength]
      else none
    else none
  }

  /** What each step demands, stated on its own. */
  ghost predicate StepAccepts(step: int, form: FormData) {
    if step == 0 then form.firstName != "" && form.lastName != ""
    else if step == 1 then MatchesPattern(form.email)
    else if step == 2 then Utf16Length(form.password) >= 8 && form.confirmPassword == form.password
    else if step == 3 then Utf16Length(form.secretKey) == SecretKeyLength
    else true
  }

  /** A step records no error exactly when the form meets what the step demands. */
  lemma StepErrorsEmptyIff(step: int, form: FormData)
    ensures StepErrors(step, form) == map[] <==> StepAccepts(step, form)
  {
    if step == 0 && !StepAccepts(step, form) {
      assert FirstName in StepErrors(step, form) || LastName in StepErrors(step, form);
    }
    if step == 1 {
      ValidEmailMatchesPattern(form.email);
      if form.email == "" { EmptyIsNotValid(); }
      if !ValidEmail(form.email) { assert Email in StepErrors(step, form); }
    }
    if step == 2 {
      if Utf16Length(form.password) < 8 {
        assert Password in StepErrors(step, form);
      } else if form.confirmPassword != form.password {
        assert ConfirmPassword in StepErrors(step, form);
      }
    }
    if step == 3 && Utf16Length(form.secretKey) != SecretKeyLength {
      assert SecretKey in StepErrors(step, form);
    }
  }

  /** The fields a step can flag. */
  function StepFields(step: int): set<RegisterField> {
    if step == 0 then {FirstName, LastName}
    else if step == 1 then {Email}
    else if step == 2 then {Password, ConfirmPassword}
    else if step == 3 then {SecretKey}
    else {}
  }

  /** Only the current step's fields are flagged, each with a message, and a field is flagged
      exactly when its own rule fails. */
  lemma StepErrorsFields(step: int, form: FormData)
    ensures StepErrors(step, form).Keys <= StepFields(step)
    ensures forall f :: f in StepErrors(step, form) ==> StepErrors(step, form)[f] != ""
    ensures step == 0 ==> (FirstName in StepErrors(step, form) <==> form.firstName == "") &&
                          (LastName in StepErrors(step, form) <==> form.lastName == "")
    ensures step == 2 ==> (Password in StepErrors(step, form) <==> Utf16Length(form.password) < 8) &&
                          (ConfirmPassword in StepErrors(step, form) <==> form.confirmPassword != form.password || form.confirmPassword == "")
  {
  }

  /** The e-mail step: an empty address is reported as missing, never as malformed; a
      non-empty one is reported as malformed exactly when the pattern rejects it. */
  lemma EmailStepMessages(form: FormData)
    ensures form.email == "" ==> StepErrors(1, form) == map[Email := EmailRequired]
    ensures form.email != "" ==> (Email in StepErrors(1, form) <==> !MatchesPattern(form.email))
    ensures form.email != "" && Email in StepErrors(1, form) ==> StepErrors(1, form) == map[Email := EmailInvalid]
  {
    ValidEmailMatchesPattern(form.email);
  }

  /** The password step: the shorter-than-eight message is given only to a non-empty
      password, and the mismatch message only to a non-empty confirmation. */
  lemma PasswordStepMessages(form: FormData)
    ensures var e := StepErrors(2, form);
      && (Password in e ==> e[Password] == if form.password == "" then PasswordRequired else PasswordTooShort)
      && (ConfirmPassword in e ==> e[ConfirmPassword] == if form.confirmPassword == "" then ConfirmRequired else ConfirmMismatch)
  {
  }

  /** The secret-key step: empty is missing, any other length but four is the wrong length. */
  lemma SecretKeyStepMessages(form: FormData)
    ensures form.secretKey == "" ==> StepErrors(3, form) == map[SecretKey := SecretKeyRequired]
    ensures form.secretKey != "" && Utf16Length(form.secretKey) != SecretKeyLength ==> StepErrors(3, form) == map[SecretKey := SecretKeyWrongLength]
    ensures Utf16Length(form.secretKey) == SecretKeyLength ==> StepErrors(3, form) == map[]
  {
  }

  /** The `/auth/register` body; the key goes as the number its digits spell. */
  function RegisterBody(form: FormData): Object
    requires AllDigits(form.secretKey)
  {
    [Field("firstName", JString(form.firstName)), Field("lastName", JString(form.lastName)),
     Field("email", JString(form.email)), Field("password", JString(form.password)),
     Field("secretKey", JNumber(DigitsValue(form.secretKey) as real))]
  }

  /** How the registration request ended: accepted, an axios error with the server's error
      record (or none), or some other error. */
  datatype RegisterOutcome = Registered | AxiosFailure(data: Option<FormErrors>) | OtherFailure

  class RegisterPage {
    var formData: FormData
    var errors: FormErrors
    var activeStep: int
    var log: seq<Event>

    /** The key field only ever holds what the sanitiser lets through. */
    ghost predicate Valid()
      reads this
    {
      AllDigits(formData.secretKey) && |formData.secretKey| <= SecretKeyLength
    }

    constructor ()
      ensures Valid()
      ensures formData == EmptyForm && errors == map[] && activeStep == 0 && log == []
    {
      formData := EmptyForm;
      errors := map[];
      activeStep := 0;
      log := [];
    }

    /** `handleInputChange(field)` with the typed `value`. */
    method HandleInputChange(field: RegisterField, value: string)
      requires Valid()
      modifies this`formData, this`errors
      ensures Valid()
      ensures formData == old(formData).With(field, if field == SecretKey then SanitiseSecretKey(value) else value)
      ensures errors == ClearError(old(errors), field)
    {
      var v := value;
      if field == SecretKey {
        v := SanitiseSecretKey(v);
        SanitiseSecretKeyFacts(value);
      }
      formData := formData.With(field, v);
      if field in errors && errors[field] != "" {
        errors := errors[field := ""];
      }
    }

    /** `validateStep`: fills a fresh error record field by field for the current step,
        replaces `errors` with it and reports whether it stayed empty. */
    method ValidateStep() returns (ok: bool)
      modifies this`errors
      ensures errors == StepErrors(activeStep, formData)
      ensures ok <==> StepAccepts(activeStep, formData)
    {
      var stepErrors: FormErrors := map[];
      if activeStep == 0 {
        if formData.firstName == "" {
          stepErrors := stepErrors[FirstName := FirstNameRequired];
        }
        if formData.lastName == "" {
          stepErrors := stepErrors[LastName := LastNameRequired];
        }
      } else if activeStep == 1 {
        if formData.email == "" {
          stepErrors := stepErrors[Email := EmailRequired];
        } else if !ValidEmail(formData.email) {
          stepErrors := stepErrors[Email := EmailInvalid];
        }
      } else if activeStep == 2 {
        if formData.password == "" {
          stepErrors := stepErrors[Password := PasswordRequired];
        } else if Utf16Length(formData.password) < 8 {
          stepErrors := stepErrors[Password := PasswordTooShort];
        }
        if formData.confirmPassword == "" {
          stepErrors := stepErrors[ConfirmPassword := ConfirmRequired];
        } else if formData.password != formData.confirmPassword {
          stepErrors := stepErrors[ConfirmPassword := ConfirmMismatch];
        }
      } else if activeStep == 3 {
        if formData.secretKey == "" {
          stepErrors := stepErrors[SecretKey := SecretKeyRequired];
        } else if Utf16Length(formData.secretKey) != SecretKeyLength {
          stepErrors := stepErrors[SecretKey := SecretKeyWrongLength];
        }
      }
      errors := stepErrors;
      ok := |stepErrors| == 0;
      StepErrorsEmptyIff(activeStep, formData);
      assert ok <==> stepErrors == map[];
    }

    /** `handleNext`: one step forward, only when the current step validates. */
    method HandleNext()
      modifies this`errors, this`activeStep
      ensures errors == StepErrors(old(activeStep), formData)
      ensures activeStep == if StepAccepts(old(activeStep), formData) then old(activeStep) + 1 else old(activeStep)
    {
      var ok := ValidateStep();
      if ok {
        activeStep := activeStep + 1;
      }
    }

    /** `handleBack`: one step back. */
    method HandleBack()
      modifies this`activeStep
      ensures activeStep == old(activeStep) - 1
    {
      activeStep := activeStep - 1;
    }

    /** `handleRegister`: validates the current step; when it passes, sends the form and, on
        success, notifies and goes to the login page, while an axios error installs the
        server's error record. */
    method HandleRegister(outcome: RegisterOutcome)
      requires Valid()
      modifies this`errors, this`log
      ensures !StepAccepts(activeStep, formData) ==> errors == StepErrors(activeStep, formData) && log == old(log)
      ensures StepAccepts(activeStep, formData) ==>
        && log == old(log) + [Request(HttpPost, RegisterEndpoint, RegisterBody(formData))]
                           + (if outcome.Registered? then [Notify(RegisteredNotice, Success), Navigate("/login")] else [])
        && errors == match outcome
                     case AxiosFailure(data) => data.GetOr(map[])
                     case _ => StepErrors(activeStep, formData)
    {
      var ok := ValidateStep();
      if ok {
        log := log + [Request(HttpPost, RegisterEndpoint, RegisterBody(formData))];
        match outcome
        case Registered =>
          log := log + [Notify(RegisteredNotice, Success), Navigate("/login")];
        case AxiosFailure(data) =>
          errors := data.GetOr(map[]);
        case OtherFailure =>
      }
    }
  }
}
