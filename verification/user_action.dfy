/**
 * The signup server action. All four fields must be non-empty, the user name
 * at most 10 UTF-16 units long, and, when no field failed its type test, the
 * password confirmation must equal the password (reported under
 * `passwordCheck`). Only `loginId` and `username` are ever echoed back.
 */
module UserAction {
  import opened Wrappers
  import opened Js
  import opened Schema
  import opened Api
  import opened Messages

  /** `Object.fromEntries(formData.entries())`; a missing entry is `undefined`. */
  datatype SignupForm = SignupForm(
    loginId: Option<string>,
    password: Option<string>,
    passwordCheck: Option<string>,
    username: Option<string>)

  /** The keys of the signup form's field errors. */
  datatype SignupField = LoginId | Password | PasswordCheck | Username

  /** What the backend receives: the confirmation is not part of it. */
  datatype SignupRequest = SignupRequest(loginId: string, password: string, username: string)

  /** The echoed part of the form: `String(...)` of the raw `loginId` and `username`. */
  datatype SignupEcho = SignupEcho(loginId: string, username: string)

  datatype SignupFormState = SignupFormState(
    success: bool,
    message: Message,
    errors: Option<map<SignupField, seq<Message>>>,
    formData: Option<SignupEcho>)

  /** `z.string().min(1).max(10)`: both limits count UTF-16 units and both run. */
  function UsernameCheck(v: Option<string>): (c: FieldCheck<string>)
    ensures c.Aborted? <==> v.None?
    ensures c.Ok() <==> v.Some? && 1 <= Utf16Length(v.value) <= 10
  {
    match v
    case None => Aborted([Required])
    case Some(s) =>
      Checked(s, (if s == "" then [UsernameRequired] else [])
                 + (if Utf16Length(s) > 10 then [UsernameTooLong] else []))
  }

  /** The refinement runs when no field failed its type test. */
  predicate RefinementRuns(f: SignupForm) {
    f.loginId.Some? && f.password.Some? && f.passwordCheck.Some? && f.username.Some?
  }

  /** Messages reported under `passwordCheck`: its own check, then the refinement's. */
  function PasswordCheckMessages(f: SignupForm): seq<Message> {
    NonEmptyString(f.passwordCheck, Required, PasswordCheckRequired).messages
    + (if RefinementRuns(f) && f.password.value != f.passwordCheck.value then [PasswordMismatch] else [])
  }

  /** Messages the signup schema reports under `field`. */
  function SignupMessages(f: SignupForm, field: SignupField): seq<Message> {
    match field
    case LoginId => NonEmptyString(f.loginId, Required, SignupLoginIdRequired).messages
    case Password => NonEmptyString(f.password, Required, PasswordRequired).messages
    case PasswordCheck => PasswordCheckMessages(f)
    case Username => UsernameCheck(f.username).messages
  }

  /** The flattened field errors of the signup schema. */
  function SignupErrors(f: SignupForm): map<SignupField, seq<Message>> {
    Flatten({LoginId, Password, PasswordCheck, Username}, field => SignupMessages(f, field))
  }

  /** The signup schema, stated directly. */
  predicate ValidSignup(f: SignupForm) {
    && f.loginId.Some? && f.loginId.value != ""
    && f.password.Some? && f.password.value != ""
    && f.passwordCheck.Some? && f.passwordCheck.value == f.password.value
    && f.username.Some? && 1 <= Utf16Length(f.username.value) <= 10
  }

  lemma ValidFromChecks(f: SignupForm)
    requires forall k :: k in {LoginId, Password, PasswordCheck, Username} ==> SignupMessages(f, k) == []
    ensures ValidSignup(f)
  {
    assert SignupMessages(f, LoginId) == [] && SignupMessages(f, Password) == [];
    assert SignupMessages(f, PasswordCheck) == [] && SignupMessages(f, Username) == [];
  }

  lemma ChecksFromValid(f: SignupForm)
    requires ValidSignup(f)
    ensures forall k :: k in {LoginId, Password, PasswordCheck, Username} ==> SignupMessages(f, k) == []
  {
    assert UsernameCheck(f.username).Ok();
  }

  /** The schema reports no error exactly for input satisfying the rules stated directly. */
  lemma SignupErrorsIff(f: SignupForm)
    ensures SignupErrors(f) == map[] <==> ValidSignup(f)
  {
    if ValidSignup(f) {
      ChecksFromValid(f);
    }
    if SignupErrors(f) == map[] {
      ValidFromChecks(f);
    }
  }

  /** A ten-letter name passes although the message speaks of fewer than ten; eleven fails. */
  lemma UsernameLimitIsTenInclusive()
    ensures UsernameCheck(Some("abcdefghij")).Ok()
    ensures UsernameCheck(Some("abcdefghijk")).messages == [UsernameTooLong]
  {
    Utf16LengthOfBmp("abcdefghij");
    Utf16LengthOfBmp("abcdefghijk");
  }

  /** A mismatched confirmation is reported under `passwordCheck`, not under `password`. */
  lemma MismatchReportedUnderPasswordCheck(f: SignupForm)
    requires RefinementRuns(f) && f.password.value != "" && f.passwordCheck.value != ""
    requires f.password.value != f.passwordCheck.value
    ensures SignupErrors(f)[PasswordCheck] == [PasswordMismatch]
    ensures Password !in SignupErrors(f)
  {
    assert SignupMessages(f, PasswordCheck) == [PasswordMismatch];
  }

  function Echo(f: SignupForm): SignupEcho {
    SignupEcho(StringOf(f.loginId), StringOf(f.username))
  }

  function SignupAction<D>(f: SignupForm, backend: SignupRequest -> Outcome<Envelope<D>>)
    : (run: Run<SignupRequest, SignupFormState>)
    ensures run.sent.Some? <==> ValidSignup(f)
    ensures run.sent.Some? ==>
      run.sent.value == SignupRequest(f.loginId.value, f.password.value, f.username.value)
    ensures !ValidSignup(f) ==>
      run.state == SignupFormState(false, InputRecheck, Some(SignupErrors(f)), Some(Echo(f)))
      && run.state.errors.value != map[]
    ensures ValidSignup(f) ==> run.state.errors.None?
    ensures ValidSignup(f) ==> (run.state.success <==> backend(run.sent.value).Returned?)
    ensures ValidSignup(f) && backend(run.sent.value).Returned? ==>
      run.state == SignupFormState(true, Server(backend(run.sent.value).response.message), None, None)
    ensures ValidSignup(f) && !backend(run.sent.value).Returned? ==>
      run.state.message == ThrownMessage(backend(run.sent.value), SignupFallback)
      && run.state.formData == Some(Echo(f))
  {
    SignupErrorsIff(f);
    if !ValidSignup(f) then
      Run(None, SignupFormState(false, InputRecheck, Some(SignupErrors(f)), Some(Echo(f))))
    else
      var request := SignupRequest(f.loginId.value, f.password.value, f.username.value);
      match backend(request)
      case Returned(response) =>
        Run(Some(request), SignupFormState(true, Server(response.message), None, None))
      case ThrewApiError(m) =>
        Run(Some(request), SignupFormState(false, Server(m), None, Some(Echo(f))))
      case ThrewOther =>
        Run(Some(request), SignupFormState(false, SignupFallback, None, Some(Echo(f))))
  }

  /**
   * Neither password reaches the returned state: two forms that differ only
   * in their passwords get the same state whenever the backend answers them
   * alike, and an echo carries only the login id and the name.
   */
  lemma PasswordsNeverEchoed<D>(f: SignupForm, g: SignupForm, backend: SignupRequest -> Outcome<Envelope<D>>)
    requires g.loginId == f.loginId && g.username == f.username
    requires ValidSignup(f) && ValidSignup(g)
    requires backend(SignupAction(f, backend).sent.value) == backend(SignupAction(g, backend).sent.value)
    ensures SignupAction(f, backend).state == SignupAction(g, backend).state
  {
  }
}
