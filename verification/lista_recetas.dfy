/**
 * The recipe list (frontend/src/componentes/ListaRecetas.jsx): the period
 * filter, and the inline edit form that turns a recipe into text, parses
 * the text back and saves it.
 */
module ListaRecetas {
  import opened Optional
  import opened Strings
  import opened Seqs
  import opened Entities
  import opened Traducciones

  // ---------------------------------------------------------------------------
  // Period filter
  // ---------------------------------------------------------------------------

  /** The instants, as time values, one week and one month before now. */
  datatype Cutoffs = Cutoffs(week: int, month: int)

  /** `fechaReceta >= cutoff`: false for the Invalid Date. */
  predicate CreatedSince(r: Recipe, cutoff: int) {
    CreationMoment(r).Some? && CreationMoment(r).value.millis >= cutoff
  }

  /** The test `recetasFiltradas` applies to one recipe under `filtro`. */
  predicate Shown(filtro: string, cutoffs: Cutoffs, r: Recipe) {
    if filtro == "all" then true
    else if filtro == "week" then CreatedSince(r, cutoffs.week)
    else if filtro == "month" then CreatedSince(r, cutoffs.month)
    else true
  }

  /** `Shown` as the callback handed to `filter`. */
  function ShownBy(filtro: string, cutoffs: Cutoffs): Recipe -> bool {
    (x: Recipe) => Shown(filtro, cutoffs, x)
  }

  /** `recetasFiltradas`. */
  function FilterRecipes(recipes: seq<Recipe>, filtro: string, cutoffs: Cutoffs): (r: seq<Recipe>)
    ensures IsSubsequence(r, recipes) && |r| <= |recipes|
    ensures |r| == Count(recipes, ShownBy(filtro, cutoffs))
    ensures forall k :: 0 <= k < |r| ==> Shown(filtro, cutoffs, r[k])
    ensures filtro != "week" && filtro != "month" ==> r == recipes
    ensures filtro == "week" ==> forall x :: x in r <==> x in recipes && CreatedSince(x, cutoffs.week)
    ensures filtro == "month" ==> forall x :: x in r <==> x in recipes && CreatedSince(x, cutoffs.month)
  {
    var keep := ShownBy(filtro, cutoffs);
    if filtro != "week" && filtro != "month" then
      FilterAll(recipes, keep);
      recipes
    else
      forall x
        ensures x in Filter(recipes, keep) <==> x in recipes && keep(x)
      {
        FilterMembers(recipes, keep, x);
      }
      Filter(recipes, keep)
  }

  /** The header's `Mis recetas (n)`: the number of recipes the filter shows. */
  function HeaderCount(recipes: seq<Recipe>, filtro: string, cutoffs: Cutoffs): (n: nat)
    ensures n <= |recipes|
    ensures n == Count(recipes, ShownBy(filtro, cutoffs))
    ensures filtro == "all" ==> n == |recipes|
  {
    |FilterRecipes(recipes, filtro, cutoffs)|
  }

  /** With the month cutoff no later than the week cutoff, every recipe of
      the last week is also among those of the last month. */
  lemma WeekWithinMonth(recipes: seq<Recipe>, cutoffs: Cutoffs, x: Recipe)
    requires cutoffs.month <= cutoffs.week
    requires x in FilterRecipes(recipes, "week", cutoffs)
    ensures x in FilterRecipes(recipes, "month", cutoffs)
  {
  }

  /** A recipe without a usable creation date shows only under "all" (or an
      unknown filter value). */
  lemma UndatedOnlyInHistory(recipes: seq<Recipe>, filtro: string, cutoffs: Cutoffs, x: Recipe)
    requires CreationMoment(x).None?
    ensures x in FilterRecipes(recipes, filtro, cutoffs) ==> filtro != "week" && filtro != "month"
  {
  }

  // ---------------------------------------------------------------------------
  // Editing
  // ---------------------------------------------------------------------------

  /** `editandoId` and the four edit buffers. */
  datatype EditState = EditState(editingId: Option<string>, fields: Fields)

  const NotEditing: EditState := EditState(None, EmptyFields)

  /** `comenzarEdicion(receta)`: the recipe as text. */
  function StartEdit(r: Recipe): (e: EditState)
    ensures e.editingId == Some(r.id) && e.fields.titulo == r.titulo
    ensures e.fields.descripcion == (if r.descripcion.Some? then r.descripcion.value else "")
    ensures r.ingredientes.None? ==> e.fields.ingredientes == ""
    ensures r.pasos.None? ==> e.fields.pasos == ""
  {
    EditState(Some(r.id), Fields(r.titulo, OrElse(r.descripcion, ""), IngredientsText(r.ingredientes), StepsText(r.pasos)))
  }

  /** `cancelarEdicion()`. */
  function CancelEdit(e: EditState): (r: EditState)
    ensures r.editingId.None?
    ensures r.fields.titulo == [] && r.fields.descripcion == []
    ensures r.fields.ingredientes == [] && r.fields.pasos == []
  {
    NotEditing
  }

  /** The end of `guardarEdicion`: the edit state it leaves, the body it
      sent, the recipe handed to `onRecetaUpdated` and the alert it raised. */
  datatype SaveRun = SaveRun(final: EditState, sent: Draft, updated: Option<Recipe>, alert: Option<string>)

  function SaveEdit(e: EditState, reply: Reply<Recipe>): (r: SaveRun)
    ensures r.sent == DraftOf(e.fields)
    ensures r.updated.Some? <==> reply.Ok?
    ensures r.updated.Some? ==> r.updated.value == reply.value && r.alert.None?
                                && r.final == EditState(None, e.fields)
    ensures reply.Refused? ==> r.final == e && r.alert == Some(Translate(reply.error))
    ensures reply.Threw? ==> r.final == e && r.alert == Some(Translate(Some(reply.message)))
  {
    var draft := DraftOf(e.fields);
    match reply
    case Ok(recipe) => SaveRun(e.(editingId := None), draft, Some(recipe), None)
    case Refused(error) => SaveRun(e, draft, None, Some(Translate(error)))
    case Threw(message) => SaveRun(e, draft, None, Some(Translate(Some(message))))
  }

  /** An edit that leaves the text untouched saves the recipe's own lists,
      when its names are trimmed, non-empty and comma-free and its steps are
      non-blank single lines. */
  lemma EditRoundTrip(r: Recipe, reply: Reply<Recipe>)
    requires r.ingredientes.Some? ==>
               forall k :: 0 <= k < |r.ingredientes.value| ==> WellFormedName(r.ingredientes.value[k].nombre)
    requires r.pasos.Some? ==> forall k :: 0 <= k < |r.pasos.value| ==> WellFormedStep(r.pasos.value[k])
    ensures SaveEdit(StartEdit(r), reply).sent.titulo == r.titulo
    ensures SaveEdit(StartEdit(r), reply).sent.ingredientes == r.ingredientes.GetOr([])
    ensures SaveEdit(StartEdit(r), reply).sent.pasos == r.pasos.GetOr([])
  {
    IngredientsRoundTrip(r.ingredientes);
    StepsRoundTrip(r.pasos);
  }

  /** Starting an edit and cancelling it leaves no trace. */
  lemma CancelForgetsEdit(r: Recipe)
    ensures CancelEdit(StartEdit(r)) == NotEditing
  {
  }
}
