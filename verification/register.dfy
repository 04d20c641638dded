/**
 * The sign-up page (frontend/src/pages/Register.jsx): the checks made
 * before the request, the error the page ends up showing, and when its
 * submit button is disabled.
 */
module Register {
  import opened Optional
  import opened Entities
  import opened Traducciones

  const Mismatch: string := "Las contraseñas no coinciden"
  const TooShort: string := "La contraseña debe tener al menos 6 caracteres"
  const RegisterFailed: string := "Error en el registro"

  /** The shortest accepted password. */
  const MinPassword: nat := 6

  datatype RegisterForm = RegisterForm(username: string, email: string, password: string, repeatPassword: string)

  /** The checks of `handleSubmit`, in order: the message that stops it. */
  function Check(form: RegisterForm): (r: Option<string>)
    ensures r.None? <==> form.password == form.repeatPassword && |form.password| >= 6
    ensures form.password != form.repeatPassword ==> r == Some(Mismatch)
    ensures form.password == form.repeatPassword && |form.password| < 6 ==> r == Some(TooShort)
  {
    if form.password != form.repeatPassword then Some(Mismatch)
    else if |form.password| < MinPassword then Some(TooShort)
    else None
  }

  /** What a successful sign-up returns: the user and its token. */
  datatype Session = Session(user: Json, token: string)

  /** The end of `handleSubmit`: the error shown, whether `loginStart` was
      dispatched and the request made, and the session stored on success.
      `handleSubmit` clears the error before anything else, so the error shown
      before the submit has no say in the outcome and is not a parameter. */
  datatype SubmitRun = SubmitRun(error: string, started: bool, session: Option<Session>)

  function Submit(form: RegisterForm, reply: Reply<Session>): (r: SubmitRun)
    ensures r.started <==> Check(form).None?
    ensures !r.started ==> r.session.None? && r.error == Check(form).value
    ensures r.session.Some? <==> r.started && reply.Ok?
    ensures r.session.Some? ==> r.session.value == reply.value && r.error == []
    ensures r.started && !reply.Ok? ==>
              r.error == Translate(Some(FailureMessage(reply, RegisterFailed))) && r.error != []
  {
    match Check(form)
    case Some(message) => SubmitRun(message, false, None)
    case None =>
      match reply
      case Ok(session) => SubmitRun("", true, Some(session))
      case _ => SubmitRun(Translate(Some(FailureMessage(reply, RegisterFailed))), true, None)
  }

  /** Mismatched passwords are reported as such even when they are also too short. */
  lemma MismatchCheckedFirst(form: RegisterForm)
    requires form.password != form.repeatPassword && |form.password| < MinPassword
    ensures Check(form) == Some(Mismatch)
  {
  }

  /** The length limit is inclusive: six characters pass, five do not. */
  lemma LengthBoundary(form: RegisterForm)
    requires form.password == form.repeatPassword
    ensures |form.password| == 6 ==> Check(form).None?
    ensures |form.password| == 5 ==> Check(form) == Some(TooShort)
  {
  }

  /** The submit button. */
  function Disabled(form: RegisterForm, loading: bool): (r: bool)
    ensures !r ==> Check(form) != Some(Mismatch) && !loading
    ensures form.password != form.repeatPassword ==> r
    ensures r <==> form.username == [] || form.email == [] || form.password == []
                   || form.repeatPassword == [] || form.password != form.repeatPassword || loading
  {
    form.username == [] || form.email == [] || form.password == [] || form.repeatPassword == []
    || form.password != form.repeatPassword || loading
  }

  /** An enabled button never meets the mismatch check; the only check it
      can still fail is the length. */
  lemma EnabledSubmitChecksOnlyLength(form: RegisterForm, loading: bool)
    requires !Disabled(form, loading)
    ensures Check(form).None? <==> |form.password| >= MinPassword
  {
  }
}
