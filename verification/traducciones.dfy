/**
 * `traducirError` (frontend/src/utils/traducciones.js): the user-facing
 * Spanish text for an error message from the API or the network. The branches
 * are tried in source order on the lower-cased message and the first whose
 * substring test passes decides; a message no branch recognises is shown as
 * it came, with its first character upper-cased.
 */
module Traducciones {
  import opened Optional
  import opened Strings
  import opened Classifier

  const Unknown: string := "Error desconocido"

  // The texts `traducirError` can produce for a recognised message, grouped
  // as the branches are.

  datatype AuthMessage =
    | WrongCredentials | UserNotFound | WrongPassword | InvalidSession | ExpiredSession
    | Unauthorized | AuthenticationFailed

  function AuthText(m: AuthMessage): (r: string)
    ensures r != []
  {
    match m
    case WrongCredentials => "Usuario o contraseña incorrectos"
    case UserNotFound => "Usuario no encontrado"
    case WrongPassword => "Contraseña incorrecta"
    case InvalidSession => "Sesión inválida. Por favor, inicia sesión nuevamente"
    case ExpiredSession => "Sesión expirada. Por favor, inicia sesión nuevamente"
    case Unauthorized => "No autorizado. Por favor, inicia sesión"
    case AuthenticationFailed => "Error de autenticación"
  }

  datatype RegistrationMessage =
    | UsernameTaken | EmailTaken | UsernameRequired | EmailRequired | PasswordRequired
    | BadEmail | ShortPassword

  function RegistrationText(m: RegistrationMessage): (r: string)
    ensures r != []
  {
    match m
    case UsernameTaken => "El nombre de usuario ya está en uso"
    case EmailTaken => "El email ya está registrado"
    case UsernameRequired => "El nombre de usuario es requerido"
    case EmailRequired => "El email es requerido"
    case PasswordRequired => "La contraseña es requerida"
    case BadEmail => "El formato del email es inválido"
    case ShortPassword => "La contraseña debe tener al menos 6 caracteres"
  }

  datatype RecipeMessage =
    | RecipeLimit | RecipeNotFound | NoPermission | TitleRequired | IngredientsRequired
    | StepsRequired

  function RecipeText(m: RecipeMessage): (r: string)
    ensures r != []
  {
    match m
    case RecipeLimit =>
      "Has alcanzado el límite de recetas para tu plan. Actualiza a Premium para recetas ilimitadas."
    case RecipeNotFound => "Receta no encontrada"
    case NoPermission => "No tienes permisos para realizar esta acción"
    case TitleRequired => "El título de la receta es requerido"
    case IngredientsRequired => "Los ingredientes son requeridos"
    case StepsRequired => "Los pasos de preparación son requeridos"
  }

  datatype PlanMessage = PlusToPremiumOnly | AlreadyPremium | UpgradeNotAllowed

  function PlanText(m: PlanMessage): (r: string)
    ensures r != []
  {
    match m
    case PlusToPremiumOnly => "Solo puedes cambiar de plan Plus a Premium"
    case AlreadyPremium => "Ya tienes plan Premium"
    case UpgradeNotAllowed => "No puedes cambiar de plan en este momento"
  }

  datatype ValidationMessage = ValidationFailed | MissingField | BadInput

  function ValidationText(m: ValidationMessage): (r: string)
    ensures r != []
  {
    match m
    case ValidationFailed => "Error de validación en los datos enviados"
    case MissingField => "Campo requerido faltante"
    case BadInput => "Datos de entrada inválidos"
  }

  datatype ServerMessage =
    | ConnectionError | ServerTimeout | ServerError | ServiceUnavailable | BadRequest
    | ResourceNotFound | Forbidden

  function ServerText(m: ServerMessage): (r: string)
    ensures r != []
  {
    match m
    case ConnectionError => "Error de conexión. Verifica tu internet e intenta nuevamente."
    case ServerTimeout => "El servidor tardó demasiado en responder. Intenta nuevamente."
    case ServerError => "Error interno del servidor. Por favor, intenta más tarde."
    case ServiceUnavailable => "Servicio no disponible temporalmente"
    case BadRequest => "Solicitud incorrecta. Verifica los datos enviados."
    case ResourceNotFound => "Recurso no encontrado"
    case Forbidden => "Acceso denegado"
  }

  datatype OtherMessage = DatabaseError | DuplicateRecord | SomethingWentWrong | UnexpectedError

  function OtherText(m: OtherMessage): (r: string)
    ensures r != []
  {
    match m
    case DatabaseError => "Error de base de datos. Por favor, intenta más tarde."
    case DuplicateRecord => "Ya existe un registro con esos datos"
    case SomethingWentWrong => "Algo salió mal. Por favor, intenta nuevamente."
    case UnexpectedError => "Error inesperado. Por favor, contacta al soporte."
  }

  datatype Message =
    | Auth(auth: AuthMessage)
    | Registration(registration: RegistrationMessage)
    | Recipes(recipe: RecipeMessage)
    | Plans(plan: PlanMessage)
    | Validation(validation: ValidationMessage)
    | Server(server: ServerMessage)
    | Other(other: OtherMessage)

  /** The Spanish text of a recognised message. */
  function Text(m: Message): (r: string)
    ensures r != []
  {
    match m
    case Auth(a) => AuthText(a)
    case Registration(g) => RegistrationText(g)
    case Recipes(c) => RecipeText(c)
    case Plans(p) => PlanText(p)
    case Validation(v) => ValidationText(v)
    case Server(v) => ServerText(v)
    case Other(o) => OtherText(o)
  }

  /** The branches of `traducirError`, in the order they are tried. */
  const ErrorRules: seq<Rule<Message>> := [
    // authentication
    Rule(AnyOf(["invalid credentials", "invalid password"]), Auth(WrongCredentials)),
    Rule(AnyOf(["user not found", "usuario no encontrado"]), Auth(UserNotFound)),
    Rule(AnyOf(["incorrect password"]), Auth(WrongPassword)),
    Rule(AllOf(["token", "invalid"]), Auth(InvalidSession)),
    Rule(AllOf(["token", "expired"]), Auth(ExpiredSession)),
    Rule(AnyOf(["unauthorized", "no autorizado"]), Auth(Unauthorized)),
    Rule(AnyOf(["authentication failed"]), Auth(AuthenticationFailed)),
    // registration
    Rule(AnyOf(["username already exists", "usuario ya existe"]), Registration(UsernameTaken)),
    Rule(AnyOf(["email already exists", "email ya existe"]), Registration(EmailTaken)),
    Rule(AnyOf(["username is required", "username required"]), Registration(UsernameRequired)),
    Rule(AnyOf(["email is required", "email required"]), Registration(EmailRequired)),
    Rule(AnyOf(["password is required", "password required"]), Registration(PasswordRequired)),
    Rule(AnyOf(["invalid email", "email inválido"]), Registration(BadEmail)),
    Rule(AnyOf(["password too short", "contraseña muy corta"]), Registration(ShortPassword)),
    // recipes
    Rule(AllOf(["límite", "recetas"]), Recipes(RecipeLimit)),
    Rule(AnyOf(["recipe not found", "receta no encontrada"]), Recipes(RecipeNotFound)),
    Rule(AnyOf(["not authorized", "no autorizado"]), Recipes(NoPermission)),
    Rule(AnyOf(["title is required", "título requerido"]), Recipes(TitleRequired)),
    Rule(AnyOf(["ingredients are required", "ingredientes requeridos"]), Recipes(IngredientsRequired)),
    Rule(AnyOf(["steps are required", "pasos requeridos"]), Recipes(StepsRequired)),
    // plans
    Rule(AnyOf(["solo se puede cambiar de plan plus a premium"]), Plans(PlusToPremiumOnly)),
    Rule(AnyOf(["ya tienes plan premium"]), Plans(AlreadyPremium)),
    Rule(AnyOf(["plan upgrade not allowed"]), Plans(UpgradeNotAllowed)),
    // validation
    Rule(AnyOf(["validation failed"]), Validation(ValidationFailed)),
    Rule(AnyOf(["required field"]), Validation(MissingField)),
    Rule(AnyOf(["invalid input"]), Validation(BadInput)),
    // connection and server
    Rule(AnyOf(["network", "failed to fetch"]), Server(ConnectionError)),
    Rule(AnyOf(["timeout", "timed out"]), Server(ServerTimeout)),
    Rule(AnyOf(["internal server error"]), Server(ServerError)),
    Rule(AnyOf(["service unavailable"]), Server(ServiceUnavailable)),
    Rule(AnyOf(["bad request"]), Server(BadRequest)),
    Rule(AnyOf(["not found", "404"]), Server(ResourceNotFound)),
    Rule(AnyOf(["forbidden", "403"]), Server(Forbidden)),
    // database
    Rule(AnyOf(["database", "mongodb"]), Other(DatabaseError)),
    Rule(AnyOf(["duplicate key"]), Other(DuplicateRecord)),
    // generic
    Rule(AnyOf(["something went wrong"]), Other(SomethingWentWrong)),
    Rule(AnyOf(["unexpected error"]), Other(UnexpectedError))
  ]

  // Positions of the branches the lemmas below talk about.
  const TokenInvalidBranch: nat := 3
  const TokenExpiredBranch: nat := 4
  const UnauthorizedBranch: nat := 5
  const UserNotFoundBranch: nat := 1
  const RecipeNotFoundBranch: nat := 15
  const PermissionBranch: nat := 16
  const NotFoundBranch: nat := 31

  /** The branch a present, non-empty message takes, if any. */
  function Branch(message: string): (r: Option<nat>)
    ensures r.Some? ==> r.value < |ErrorRules|
  {
    FirstMatch(ErrorRules, ToLower(message))
  }

  /** `traducirError(mensajeError)`; `None` is `undefined` or `null`. */
  function Translate(message: Option<string>): (r: string)
    ensures r != []
    ensures message.None? || message.value == [] ==> r == Unknown
    ensures message.Some? && message.value != [] && Branch(message.value).Some? ==>
              r == Text(ErrorRules[Branch(message.value).value].outcome)
    ensures message.Some? && message.value != [] && Branch(message.value).None? ==>
              |r| == |message.value| && r[0] == UpperChar(message.value[0])
              && r[1..] == message.value[1..]
  {
    if message.None? || message.value == [] then Unknown
    else
      match Branch(message.value)
      case Some(k) => Text(ErrorRules[k].outcome)
      case None => Capitalize(message.value)
  }

  /** Only the lower-case form decides: two messages that lower-case alike are
      translated alike unless neither is recognised. */
  lemma CaseInsensitive(a: string, b: string)
    requires a != [] && b != [] && ToLower(a) == ToLower(b)
    ensures Branch(a) == Branch(b)
    ensures Branch(a).Some? ==> Translate(Some(a)) == Translate(Some(b))
  {
  }

  /** A message about a token that is both invalid and expired is reported as
      an invalid session (or by an earlier branch), never as an expired one. */
  lemma InvalidTokenShadowsExpired(message: string)
    requires Contains(ToLower(message), "token")
    requires Contains(ToLower(message), "invalid")
    ensures Branch(message).Some? && Branch(message).value <= TokenInvalidBranch
    ensures ErrorRules[Branch(message).value].outcome != Auth(ExpiredSession)
  {
    var text := ToLower(message);
    assert ErrorRules[TokenInvalidBranch].pattern == AllOf(["token", "invalid"]);
    assert Matches(AllOf(["token", "invalid"]), text);
    MatchingRuleBounds(ErrorRules, text, TokenInvalidBranch);
    EarlyOutcomes();
  }

  /** The first four branches report neither an expired session nor a
      generic not-found. */
  lemma EarlyOutcomes()
    ensures forall k :: 0 <= k <= TokenInvalidBranch ==> ErrorRules[k].outcome.Auth?
    ensures forall k :: 0 <= k <= TokenInvalidBranch ==>
              ErrorRules[k].outcome != Auth(ExpiredSession)
  {
  }

  /** "no autorizado" always lands on the unauthorized branch or earlier. */
  lemma NoAutorizadoIsUnauthorized(message: string)
    requires Contains(ToLower(message), "no autorizado")
    ensures Branch(message).Some? && Branch(message).value <= UnauthorizedBranch
  {
    var text := ToLower(message);
    AuthorizationPatterns();
    AnyOfMatches(["unauthorized", "no autorizado"], text, 1);
    MatchingRuleBounds(ErrorRules, text, UnauthorizedBranch);
  }

  /** The two branches that list "no autorizado". */
  lemma AuthorizationPatterns()
    ensures ErrorRules[UnauthorizedBranch].pattern == AnyOf(["unauthorized", "no autorizado"])
    ensures ErrorRules[PermissionBranch].pattern == AnyOf(["not authorized", "no autorizado"])
  {
  }

  /** The permissions branch, which also lists "no autorizado", fires only
      for "not authorized": its second alternative is dead. */
  lemma PermissionOnlyNotAuthorized(message: string)
    requires Branch(message) == Some(PermissionBranch)
    ensures Contains(ToLower(message), "not authorized")
    ensures !Contains(ToLower(message), "no autorizado")
  {
    AuthorizationPatterns();
    SharedAlternativeShadowed(ErrorRules, ToLower(message), UnauthorizedBranch, PermissionBranch,
                              "unauthorized", "not authorized", "no autorizado");
  }

  /** The three branches about something not found. */
  lemma NotFoundPatterns()
    ensures ErrorRules[UserNotFoundBranch].pattern == AnyOf(["user not found", "usuario no encontrado"])
    ensures ErrorRules[RecipeNotFoundBranch].pattern == AnyOf(["recipe not found", "receta no encontrada"])
    ensures ErrorRules[NotFoundBranch].pattern == AnyOf(["not found", "404"])
  {
  }

  /** "user not found" and "recipe not found" are reported by their own
      branch or an earlier one (a message that also names an invalid
      password takes the first branch), never by the generic not-found
      branch that also matches them. */
  lemma SpecificNotFoundFirst(message: string)
    ensures Contains(ToLower(message), "user not found") ==>
              Branch(message).Some? && Branch(message).value <= UserNotFoundBranch
    ensures Contains(ToLower(message), "recipe not found") ==>
              Branch(message).Some? && Branch(message).value <= RecipeNotFoundBranch
    ensures Contains(ToLower(message), "not found") ==>
              Branch(message).Some? && Branch(message).value <= NotFoundBranch
  {
    var text := ToLower(message);
    NotFoundPatterns();
    if Contains(text, "user not found") {
      FirstAlternativeBounds(ErrorRules, text, UserNotFoundBranch,
                             ["user not found", "usuario no encontrado"]);
    }
    if Contains(text, "recipe not found") {
      FirstAlternativeBounds(ErrorRules, text, RecipeNotFoundBranch,
                             ["recipe not found", "receta no encontrada"]);
    }
    if Contains(text, "not found") {
      FirstAlternativeBounds(ErrorRules, text, NotFoundBranch, ["not found", "404"]);
    }
  }
}
