/**
 * The login server action: both fields must be non-empty strings; the
 * backend is called only with valid input; every outcome returns the full
 * form state, echoing the raw input except after a successful login.
 */
module AuthAction {
  import opened Wrappers
  import opened Js
  import opened Schema
  import opened Api
  import opened Messages


  /** `formData.get(...)` for the two fields; a missing entry is `null`. */
  datatype LoginForm = LoginForm(loginId: Option<string>, password: Option<string>)

  /** The keys of the login form's field errors. */
  datatype LoginField = LoginId | Password

  datatype LoginRequest = LoginRequest(loginId: string, password: string)

  datatype LoginFormState = LoginFormState(
    message: Message,
    errors: map<LoginField, seq<Message>>,
    formData: LoginForm,
    success: bool)

  /** A missing entry is `null`, which fails the string type test. */
  const NullString: Message := Expected(StringType, NullType)

  function LoginIdCheck(f: LoginForm): FieldCheck<string> {
    NonEmptyString(f.loginId, NullString, LoginIdRequired)
  }

  function PasswordCheck(f: LoginForm): FieldCheck<string> {
    NonEmptyString(f.password, NullString, PasswordRequired)
  }

  /** Messages the login schema reports under `field`. */
  function LoginMessages(f: LoginForm, field: LoginField): seq<Message> {
    match field
    case LoginId => LoginIdCheck(f).messages
    case Password => PasswordCheck(f).messages
  }

  /** The flattened field errors of the login schema. */
  function LoginErrors(f: LoginForm): map<LoginField, seq<Message>> {
    Flatten({LoginId, Password}, field => LoginMessages(f, field))
  }

  /** The login schema, stated directly. */
  predicate ValidLogin(f: LoginForm) {
    f.loginId.Some? && f.loginId.value != "" && f.password.Some? && f.password.value != ""
  }

  /** The schema reports no error exactly for valid input, and reports each failing field under its own name. */
  lemma LoginErrorsIff(f: LoginForm)
    ensures LoginErrors(f) == map[] <==> ValidLogin(f)
    ensures LoginId in LoginErrors(f) <==> !(f.loginId.Some? && f.loginId.value != "")
    ensures Password in LoginErrors(f) <==> !(f.password.Some? && f.password.value != "")
  {
    if LoginErrors(f) == map[] {
      assert LoginId !in LoginErrors(f);
      assert Password !in LoginErrors(f);
    }
  }

  function LoginAction<D>(f: LoginForm, backend: LoginRequest -> Outcome<Envelope<D>>): (run: Run<LoginRequest, LoginFormState>)
    ensures run.sent.Some? <==> ValidLogin(f)
    ensures run.sent.Some? ==> run.sent.value == LoginRequest(f.loginId.value, f.password.value)
    ensures !ValidLogin(f) ==>
      run.state == LoginFormState(LoginRecheck, LoginErrors(f), f, false) && run.state.errors != map[]
    ensures ValidLogin(f) ==> run.state.errors == map[]
    ensures ValidLogin(f) ==> (run.state.success <==> backend(run.sent.value).Returned?)
    ensures ValidLogin(f) && backend(run.sent.value).Returned? ==>
      run.state.message == Server(backend(run.sent.value).response.message)
      && run.state.formData == LoginForm(Some(""), Some(""))
    ensures ValidLogin(f) && !backend(run.sent.value).Returned? ==>
      run.state.message == ThrownMessage(backend(run.sent.value), ConnectionFallback)
      && run.state.formData == f
  {
    LoginErrorsIff(f);
    if !ValidLogin(f) then
      Run(None, LoginFormState(LoginRecheck, LoginErrors(f), f, false))
    else
      var request := LoginRequest(f.loginId.value, f.password.value);
      match backend(request)
      case Returned(response) =>
        Run(Some(request), LoginFormState(Server(response.message), map[], LoginForm(Some(""), Some("")), true))
      case ThrewApiError(m) =>
        Run(Some(request), LoginFormState(Server(m), map[], f, false))
      case ThrewOther =>
        Run(Some(request), LoginFormState(ConnectionFallback, map[], f, false))
  }
}
