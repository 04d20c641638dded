/**
 * The sign-in page (frontend/src/pages/Login.jsx): the required-field check
 * made before the request, the error the page ends up showing, and when its
 * submit button is disabled.
 */
module Login {
  import opened Optional
  import opened Entities
  import opened Traducciones
  import Register

  const Required: string := "Usuario y contraseña son requeridos"
  const LoginFailed: string := "Error al iniciar sesión"

  /** The check of `handleSubmit`: `!username || !password`. */
  function Check(username: string, password: string): (r: Option<string>)
    ensures r.None? <==> username != [] && password != []
    ensures r.Some? ==> r.value == Required
  {
    if username == [] || password == [] then Some(Required) else None
  }

  /** The end of `handleSubmit`, as for sign-up. */
  function Submit(username: string, password: string,
                  reply: Reply<Register.Session>): (r: Register.SubmitRun)
    ensures r.started <==> username != [] && password != []
    ensures !r.started ==> r.session.None? && r.error == Required
    ensures r.session.Some? <==> r.started && reply.Ok?
    ensures r.session.Some? ==> r.session.value == reply.value && r.error == []
    ensures r.started && !reply.Ok? ==>
              r.error == Translate(Some(FailureMessage(reply, LoginFailed))) && r.error != []
  {
    match Check(username, password)
    case Some(message) => Register.SubmitRun(message, false, None)
    case None =>
      match reply
      case Ok(session) => Register.SubmitRun("", true, Some(session))
      case _ => Register.SubmitRun(Translate(Some(FailureMessage(reply, LoginFailed))), true, None)
  }

  /** The submit button: `!username || !password || loading`. */
  function Disabled(username: string, password: string, loading: bool): (r: bool)
    ensures r <==> username == [] || password == [] || loading
  {
    Check(username, password).Some? || loading
  }

  /** An enabled button always passes the check, and whenever the check
      passes only loading can disable the button. */
  lemma ButtonMatchesCheck(username: string, password: string, loading: bool)
    ensures !Disabled(username, password, loading) ==> Check(username, password).None?
    ensures Check(username, password).None? ==> (Disabled(username, password, loading) <==> loading)
  {
  }
}
