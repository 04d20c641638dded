/**
 * The dashboard page (frontend/src/pages/Dashboard.jsx): the recipe list it
 * holds and the three callbacks that change it, the loading of that list,
 * and the plan it hands to the panels below it.
 */
module Dashboard {
  import opened Optional
  import opened Strings
  import opened Seqs
  import opened Entities
  import opened Traducciones

  datatype DashboardState = DashboardState(recipes: seq<Recipe>, loading: bool, error: string)

  /** The end of `obtenerRecetasUsuario`: the list from a successful reply,
      or the translated error of a failed one. */
  function Loaded(state: DashboardState, reply: Reply<seq<Recipe>>): (r: DashboardState)
    ensures !r.loading
    ensures reply.Ok? ==> r.recipes == reply.value && r.error == state.error
    ensures reply.Refused? ==> r.recipes == state.recipes && r.error == Translate(reply.error)
    ensures reply.Threw? ==> r.recipes == state.recipes && r.error == Translate(Some(reply.message))
    ensures !reply.Ok? ==> r.error != []
  {
    match reply
    case Ok(list) => state.(recipes := list, loading := false)
    case Refused(error) => state.(loading := false, error := Translate(error))
    case Threw(message) => state.(loading := false, error := Translate(Some(message)))
  }

  /** `manejarRecetaAgregada`: the new recipe goes first and the error is cleared. */
  function AddRecipe(state: DashboardState, recipe: Recipe): (r: DashboardState)
    ensures |r.recipes| == |state.recipes| + 1
    ensures r.recipes[0] == recipe && r.recipes[1..] == state.recipes
    ensures r.error == [] && r.loading == state.loading
  {
    DashboardState([recipe] + state.recipes, state.loading, "")
  }

  /** The test `receta._id === id`, as one value so that counts over it agree. */
  function IdIs(id: string): Recipe -> bool {
    (r: Recipe) => r.id == id
  }

  function IdIsNot(id: string): Recipe -> bool {
    (r: Recipe) => r.id != id
  }

  /** `manejarRecetaEliminada`: `prev.filter(receta => receta._id !== id)`. */
  function DeleteById(recipes: seq<Recipe>, id: string): (r: seq<Recipe>)
    ensures IsSubsequence(r, recipes)
    ensures forall k :: 0 <= k < |r| ==> r[k].id != id
    ensures forall x :: x in r <==> x in recipes && x.id != id
    ensures |r| == |recipes| - Count(recipes, IdIs(id))
  {
    forall x
      ensures x in Filter(recipes, IdIsNot(id)) <==> x in recipes && x.id != id
    {
      FilterMembers(recipes, IdIsNot(id), x);
    }
    CountComplement(recipes, IdIsNot(id), IdIs(id));
    Filter(recipes, IdIsNot(id))
  }

  /** Deleting an id that is not in the list leaves the list as it was. */
  lemma DeleteAbsent(recipes: seq<Recipe>, id: string)
    requires forall k :: 0 <= k < |recipes| ==> recipes[k].id != id
    ensures DeleteById(recipes, id) == recipes
  {
    FilterAll(recipes, IdIsNot(id));
  }

  /** Deleting twice is deleting once. */
  lemma DeleteIdempotent(recipes: seq<Recipe>, id: string)
    ensures DeleteById(DeleteById(recipes, id), id) == DeleteById(recipes, id)
  {
    DeleteAbsent(DeleteById(recipes, id), id);
  }

  /** `manejarRecetaActualizada`: every recipe with the updated one's id is
      replaced by it. */
  function ReplaceById(recipes: seq<Recipe>, updated: Recipe): (r: seq<Recipe>)
    ensures |r| == |recipes|
    ensures forall k :: 0 <= k < |r| ==> r[k] == (if recipes[k].id == updated.id then updated else recipes[k])
    decreases |recipes|
  {
    if recipes == [] then []
    else [if recipes[0].id == updated.id then updated else recipes[0]] + ReplaceById(recipes[1..], updated)
  }

  /** Replacing never changes which id sits at which position. */
  lemma ReplaceKeepsIds(recipes: seq<Recipe>, updated: Recipe)
    ensures forall k :: 0 <= k < |recipes| ==> ReplaceById(recipes, updated)[k].id == recipes[k].id
  {
  }

  /** An update for an id that is not in the list changes nothing. */
  lemma ReplaceAbsent(recipes: seq<Recipe>, updated: Recipe)
    requires forall k :: 0 <= k < |recipes| ==> recipes[k].id != updated.id
    ensures ReplaceById(recipes, updated) == recipes
  {
  }

  /** Applying the same update twice is applying it once. */
  lemma ReplaceIdempotent(recipes: seq<Recipe>, updated: Recipe)
    ensures ReplaceById(ReplaceById(recipes, updated), updated) == ReplaceById(recipes, updated)
  {
  }

  /** An update followed by deleting its id is the same as deleting it. */
  lemma {:induction false} DeleteAfterReplace(recipes: seq<Recipe>, updated: Recipe)
    ensures DeleteById(ReplaceById(recipes, updated), updated.id) == DeleteById(recipes, updated.id)
    decreases |recipes|
  {
    if recipes != [] {
      DeleteAfterReplace(recipes[1..], updated);
      var replaced := ReplaceById(recipes, updated);
      assert replaced[1..] == ReplaceById(recipes[1..], updated);
      assert replaced[0].id == recipes[0].id;
    }
  }

  /** `user?.plan || "plus"`: the plan handed to the form, the usage report
      and the upgrade panel. */
  function EffectivePlan(user: Option<User>): (p: string)
    ensures p != []
    ensures PlanOf(user).Some? && PlanOf(user).value != [] ==> p == PlanOf(user).value
    ensures PlanOf(user).None? || PlanOf(user).value == [] ==> p == "plus"
  {
    OrElse(PlanOf(user), "plus")
  }

  /** `user?.plan?.toUpperCase() || "PLUS"`: the badge in the header. */
  function PlanBadge(user: Option<User>): (r: string)
    ensures r != []
  {
    PlanLabel(PlanOf(user))
  }

  /** The badge always names the plan the panels are given. */
  lemma BadgeNamesEffectivePlan(user: Option<User>)
    ensures PlanBadge(user) == ToUpper(EffectivePlan(user))
  {
    assert ToUpper("plus") == "PLUS";
  }
}
