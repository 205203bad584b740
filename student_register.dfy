/** src/pages/StudentRegister.jsx: the field checks, the submit gate and the
    handling of the registration response. */
module StudentRegister {
  import opened Wrappers
  import opened Strings
  import App

  datatype Form = Form(name: string, registrationNumber: string, password: string, confirmPassword: string)

  /** The keys of the error map. */
  datatype Field = Name | RegistrationNumber | Password | ConfirmPassword | SubmitField

  const NameRequired := "Name is required"
  const RegistrationRequired := "Registration number is required"
  const PasswordRequired := "Password is required"
  const PasswordTooShort := "Password must be at least 6 characters"
  const PasswordsDiffer := "Passwords do not match"
  const MinPasswordLength := 6

  /** Whether `field`'s check fails for `form`. */
  predicate Fails(form: Form, field: Field) {
    match field
    case Name => IsBlank(form.name)
    case RegistrationNumber => IsBlank(form.registrationNumber)
    case Password => |form.password| < MinPasswordLength
    case ConfirmPassword => form.password != form.confirmPassword
    case SubmitField => false
  }

  /** The message the map holds for each failed field; for the password it is
      always the length message, which overwrites "Password is required". */
  function Message(field: Field): string {
    match field
    case Name => NameRequired
    case RegistrationNumber => RegistrationRequired
    case Password => PasswordTooShort
    case ConfirmPassword => PasswordsDiffer
    case SubmitField => ""
  }

  /** `errors` has an entry for `field` exactly when its check fails, and
      then holds the field's message. */
  predicate EntryFor(form: Form, errors: map<Field, string>, field: Field) {
    (field in errors <==> Fails(form, field)) && (field in errors ==> errors[field] == Message(field))
  }

  /** `errors` is the map validateForm builds for `form`: one entry per failed
      field, each with its message. */
  predicate ErrorsFor(form: Form, errors: map<Field, string>) {
    && EntryFor(form, errors, Name) && EntryFor(form, errors, RegistrationNumber)
    && EntryFor(form, errors, Password) && EntryFor(form, errors, ConfirmPassword)
    && EntryFor(form, errors, SubmitField)
  }

  /** A form that passes every check. */
  predicate Acceptable(form: Form) {
    !IsBlank(form.name) && !IsBlank(form.registrationNumber)
    && |form.password| >= MinPasswordLength && form.password == form.confirmPassword
  }

  /** The error map has no entry exactly when the form is acceptable. */
  lemma EmptyErrorsIffAcceptable(form: Form, errors: map<Field, string>)
    requires ErrorsFor(form, errors)
    ensures errors == map[] <==> Acceptable(form)
  {
    if !Acceptable(form) {
      assert Fails(form, Name) || Fails(form, RegistrationNumber) || Fails(form, Password)
        || Fails(form, ConfirmPassword);
    }
    if Acceptable(form) {
      assert forall f :: f !in errors by {
        forall f ensures f !in errors {
          assert EntryFor(form, errors, f) && !Fails(form, f);
        }
      }
    }
  }

  /** validateForm: fills the error map field by field; the length check
      overwrites the "required" message for an empty password. */
  method ValidateForm(form: Form) returns (errors: map<Field, string>)
    ensures ErrorsFor(form, errors)
    ensures errors == map[] <==> Acceptable(form)
  {
    errors := map[];
    if Trim(form.name) == "" {
      errors := errors[Name := NameRequired];
    }
    if Trim(form.registrationNumber) == "" {
      errors := errors[RegistrationNumber := RegistrationRequired];
    }
    if form.password == "" {
      errors := errors[Password := PasswordRequired];
    }
    if |form.password| < MinPasswordLength {
      errors := errors[Password := PasswordTooShort];
    }
    if form.password != form.confirmPassword {
      errors := errors[ConfirmPassword := PasswordsDiffer];
    }
    EmptyErrorsIffAcceptable(form, errors);
  }

  /** The body of `POST /api/auth/register`. */
  datatype RegisterRequest = RegisterRequest(name: string, identifier: string, password: string, role: string)

  /** The registration outcome: a response with its token (`None` when
      missing) and user, or a thrown error with the server's message and the
      error's own message. */
  datatype RegisterResponse =
    | Registered(token: Option<string>, user: App.User)
    | RegisterFailed(serverMessage: Option<string>, errorMessage: Option<string>)

  const NoTokenText := "Registration successful but no authentication token received"
  const FailedText := "Registration failed - check console for details"

  /** The sign-in handed to App's `login`. */
  datatype SignIn = SignIn(user: App.User, token: string)

  class Page {
    var form: Form
    var errors: map<Field, string>
    var loading: bool

    constructor ()
      ensures form == Form("", "", "", "") && errors == map[] && !loading
    {
      form := Form("", "", "", "");
      errors := map[];
      loading := false;
    }

    /** handleSubmit up to the request: with any error, show the map and send
        nothing; otherwise clear the errors, start loading and send the form
        as a student registration. */
    method Submit() returns (request: Option<RegisterRequest>)
      modifies this
      ensures form == old(form)
      ensures request.Some? <==> Acceptable(form)
      ensures request.Some? ==>
        errors == map[] && loading
        && request.value == RegisterRequest(form.name, form.registrationNumber, form.password, App.StudentRole)
      ensures request.None? ==> ErrorsFor(form, errors) && errors != map[] && loading == old(loading)
    {
      var newErrors := ValidateForm(form);
      if |newErrors.Keys| > 0 {
        errors := newErrors;
        return None;
      }
      loading := true;
      errors := map[];
      request := Some(RegisterRequest(form.name, form.registrationNumber, form.password, App.StudentRole));
    }

    /** handleSubmit after the request: with a token, sign in and go to
        "/student-profile"; without one, or on an error, show a `submit`
        error. Loading ends either way. */
    method OnResponse(response: RegisterResponse) returns (signIn: Option<SignIn>, navigate: Option<string>)
      modifies this
      ensures !loading && form == old(form)
      ensures signIn.Some? <==> response.Registered? && response.token.Some? && response.token.value != ""
      ensures signIn.Some? ==>
        signIn.value == SignIn(response.user, response.token.value)
        && navigate == Some(App.LegacyStudentProfilePath) && errors == old(errors)
      ensures signIn.None? ==> navigate.None?
      ensures response.Registered? && signIn.None? ==> errors == map[SubmitField := NoTokenText]
      ensures response.RegisterFailed? ==>
        errors == map[SubmitField := OrElse(response.serverMessage, OrElse(response.errorMessage, FailedText))]
    {
      signIn, navigate := None, None;
      match response {
        case Registered(token, user) =>
          if token.Some? && token.value != "" {
            signIn := Some(SignIn(user, token.value));
            navigate := Some(App.LegacyStudentProfilePath);
          } else {
            errors := map[SubmitField := NoTokenText];
          }
        case RegisterFailed(serverMessage, errorMessage) =>
          errors := map[SubmitField := OrElse(serverMessage, OrElse(errorMessage, FailedText))];
      }
      loading := false;
    }
  }

  /** Registering sends the new student to "/student-profile", which App
      redirects at once to the student's policy target. */
  lemma RegisteredStudentLandsOnTarget(u: App.User, sp: Option<App.StudentRecord>, ap: Option<App.AdvisorRecord>)
    requires u.role == Some(App.StudentRole)
    ensures App.RouteElement(App.LegacyStudentProfilePath, Some(u), sp, ap) == App.Navigate(App.StudentRedirectPath(sp))
  {
  }
}
