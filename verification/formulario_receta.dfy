/**
 * The recipe creation form (frontend/src/componentes/FormularioReceta.jsx):
 * the recipe limit of each plan, the order of the submit guards, the draft
 * sent to the API, the state the form ends in, and what the form shows.
 */
module FormularioReceta {
  import opened Optional
  import opened Strings
  import opened Decimal
  import opened Entities
  import opened Traducciones

  // ---------------------------------------------------------------------------
  // Plan limit
  // ---------------------------------------------------------------------------

  /** `getMaxRecetas()`: a number of recipes, or `Infinity`. */
  datatype Limit = Unlimited | AtMost(n: nat)

  const PlusLimit: nat := 10

  function MaxRecipes(plan: string): (r: Limit)
    ensures r.Unlimited? <==> plan == "premium"
    ensures r.AtMost? ==> r.n == 10
  {
    match plan
    case "premium" => Unlimited
    case "plus" => AtMost(PlusLimit)
    case _ => AtMost(PlusLimit)
  }

  /** `count < limit`, where nothing reaches `Infinity`. */
  predicate Below(count: nat, limit: Limit) {
    limit.Unlimited? || count < limit.n
  }

  /** `puedeAgregarReceta`. */
  function CanAdd(plan: string, count: nat): (r: bool)
    ensures r <==> plan == "premium" || count < 10
  {
    Below(count, MaxRecipes(plan))
  }

  /** Having fewer recipes never takes the permission away. */
  lemma CanAddMonotone(plan: string, fewer: nat, more: nat)
    requires fewer <= more && CanAdd(plan, more)
    ensures CanAdd(plan, fewer)
  {
  }

  // ---------------------------------------------------------------------------
  // Submitting
  // ---------------------------------------------------------------------------

  datatype FormState = FormState(fields: Fields, loading: bool, error: string)

  const LimitReached: string := "Has alcanzado el límite de recetas para tu plan"
  const TitleRequired: string := "El título es requerido"
  const CreateFailed: string := "Error al crear receta"

  /** The guards of `manejarEnvio`, in order: the error that stops the submit. */
  function Guard(plan: string, count: nat, titulo: string): (r: Option<string>)
    ensures r.None? <==> CanAdd(plan, count) && !IsBlank(titulo)
    ensures !CanAdd(plan, count) ==> r == Some(LimitReached)
    ensures CanAdd(plan, count) && IsBlank(titulo) ==> r == Some(TitleRequired)
  {
    if !CanAdd(plan, count) then Some(LimitReached)
    else if IsBlank(titulo) then Some(TitleRequired)
    else None
  }


  /** The end of `manejarEnvio`: the form state it leaves, the draft it sent
      (if it sent one) and the recipe it handed to `onRecetaAdded`. */
  datatype SubmitRun = SubmitRun(final: FormState, sent: Option<Draft>, added: Option<Recipe>)

  function Submit(plan: string, count: nat, state: FormState, reply: Reply<Recipe>): (r: SubmitRun)
    ensures r.sent.Some? <==> Guard(plan, count, state.fields.titulo).None?
    ensures r.sent.None? ==>
              r.added.None? && r.final == state.(error := Guard(plan, count, state.fields.titulo).value)
    ensures r.sent.Some? ==> r.sent.value == DraftOf(state.fields) && !r.final.loading
    ensures r.added.Some? <==> r.sent.Some? && reply.Ok?
    ensures r.added.Some? ==> r.added.value == reply.value && r.final == FormState(EmptyFields, false, "")
    ensures r.sent.Some? && r.added.None? ==>
              r.final.fields == state.fields && r.final.error != []
              && r.final.error == Translate(Some(FailureMessage(reply, CreateFailed)))
  {
    match Guard(plan, count, state.fields.titulo)
    case Some(error) => SubmitRun(state.(error := error), None, None)
    case None =>
      var draft := DraftOf(state.fields);
      match reply
      case Ok(recipe) => SubmitRun(FormState(EmptyFields, false, ""), Some(draft), Some(recipe))
      case _ =>
        var shown := Translate(Some(FailureMessage(reply, CreateFailed)));
        SubmitRun(FormState(state.fields, false, shown), Some(draft), None)
  }

  /** At the limit, even a blank title reports the limit and nothing is sent. */
  lemma LimitCheckedFirst(plan: string, count: nat, state: FormState, reply: Reply<Recipe>)
    requires !CanAdd(plan, count)
    ensures Submit(plan, count, state, reply).sent.None?
    ensures Submit(plan, count, state, reply).final.error == LimitReached
  {
  }

  /** The title is only checked for blankness: an accepted title goes out
      exactly as typed, surrounding blanks included. */
  lemma TitleSentUntrimmed(plan: string, count: nat, state: FormState, reply: Reply<Recipe>)
    requires CanAdd(plan, count) && !IsBlank(state.fields.titulo)
    ensures Submit(plan, count, state, reply).sent.Some?
    ensures Submit(plan, count, state, reply).sent.value.titulo == state.fields.titulo
  {
  }

  /** The submit button: `cargando || !titulo.trim()`. */
  function SubmitDisabled(state: FormState): (r: bool)
    ensures r <==> state.loading || Trim(state.fields.titulo) == []
    ensures forall plan: string, count: nat :: CanAdd(plan, count) && !state.loading ==>
              (r <==> Guard(plan, count, state.fields.titulo) == Some(TitleRequired))
  {
    state.loading || IsBlank(state.fields.titulo)
  }

  /** Below the limit, a submit from an enabled button is always sent. */
  lemma EnabledSubmitIsSent(plan: string, count: nat, state: FormState, reply: Reply<Recipe>)
    requires CanAdd(plan, count) && !SubmitDisabled(state)
    ensures Submit(plan, count, state, reply).sent == Some(DraftOf(state.fields))
  {
  }

  // ---------------------------------------------------------------------------
  // What the form shows
  // ---------------------------------------------------------------------------

  const PlusLimitNotice: string := "Límite alcanzado (10 recetas). Actualiza a Premium para recetas ilimitadas."
  const OtherLimitNotice: string := "No se pueden agregar más recetas."

  /** What follows the count in the counter: the plus plan shows its limit. */
  const PlusCounterSuffix: string := "/10 recetas"
  const OtherCounterSuffix: string := " recetas"

  /** The rendered form: only a notice once the limit is reached, otherwise
      the recipe counter and, near the plus limit, how many recipes remain. */
  datatype FormView = Blocked(notice: string) | Open(counter: string, remaining: Option<int>)

  function View(plan: string, count: nat): (r: FormView)
    ensures r.Blocked? <==> !CanAdd(plan, count)
    ensures r.Blocked? ==> (r.notice == PlusLimitNotice <==> plan == "plus")
    ensures r.Blocked? && plan != "plus" ==> r.notice == OtherLimitNotice
    ensures r.Open? ==> NatToString(count) <= r.counter
    ensures r.Open? && plan == "plus" ==> r.counter == NatToString(count) + PlusCounterSuffix
    ensures r.Open? && plan != "plus" ==> r.counter == NatToString(count) + OtherCounterSuffix
    ensures r.Open? ==> (r.remaining.Some? <==> plan == "plus" && count >= 8)
    ensures r.Open? && r.remaining.Some? ==> r.remaining.value == 10 - count
  {
    if !CanAdd(plan, count) then
      Blocked(if plan == "plus" then PlusLimitNotice else OtherLimitNotice)
    else
      var counter := NatToString(count) + (if plan == "plus" then PlusCounterSuffix else OtherCounterSuffix);
      Open(counter, if plan == "plus" && count >= 8 then Some(10 - count) else None)
  }

  /** The near-limit warning only ever says 2 or 1: at 10 the form is blocked. */
  lemma WarningRange(count: nat)
    requires View("plus", count).Open? && View("plus", count).remaining.Some?
    ensures View("plus", count).remaining.value in {1, 2}
  {
  }

  /** The counter starts with the recipe count: `parseInt` of it reads the
      count back. */
  lemma CounterShowsCount(plan: string, count: nat)
    requires View(plan, count).Open?
    ensures ParseInt(View(plan, count).counter) == Some(count)
  {
    var rest := if plan == "plus" then PlusCounterSuffix else OtherCounterSuffix;
    assert !IsDigit(rest[0]);
    ParseLeadingNumber(count, rest);
  }
}
