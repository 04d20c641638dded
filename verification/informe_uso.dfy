/**
 * The usage report (frontend/src/componentes/InformeUso.jsx): how many
 * recipes were created in the current month, how full the plan is, and how
 * many recipes remain.
 */
module InformeUso {
  import opened Optional
  import opened Entities
  import GraficoEstadisticas
  import FormularioReceta

  /** The local calendar year and month of "now". */
  datatype YearMonth = YearMonth(year: int, month: Month)

  /** `fechaReceta.getMonth() === now.getMonth() && fechaReceta.getFullYear()
      === now.getFullYear()`: NaN equals nothing, so an Invalid Date never
      counts. */
  predicate CreatedIn(r: Recipe, now: YearMonth) {
    CreationMoment(r).Some?
    && CreationMoment(r).value.month == now.month
    && CreationMoment(r).value.year == now.year
  }

  /** `recetasEsteMes`. */
  function ThisMonthCount(recipes: seq<Recipe>, now: YearMonth): (n: nat)
    ensures n <= |recipes|
    ensures n == 0 <==> forall i :: 0 <= i < |recipes| ==> !CreatedIn(recipes[i], now)
    decreases |recipes|
  {
    if recipes == [] then 0
    else
      var rest := ThisMonthCount(recipes[1..], now);
      assert forall i :: 1 <= i < |recipes| ==> recipes[i] == recipes[1..][i - 1];
      (if CreatedIn(recipes[0], now) then 1 else 0) + rest
  }

  /** The report and the chart agree: this month's count is the size of the
      chart's bucket for this month. */
  lemma {:induction false} ThisMonthIsChartBucket(recipes: seq<Recipe>, now: YearMonth)
    ensures ThisMonthCount(recipes, now) ==
            multiset(GraficoEstadisticas.KeysOfRecipes(recipes))[GraficoEstadisticas.MonthKey(now.year, now.month)]
    decreases |recipes|
  {
    if recipes != [] {
      ThisMonthIsChartBucket(recipes[1..], now);
      var keys := GraficoEstadisticas.KeysOfRecipes(recipes);
      assert keys == [GraficoEstadisticas.KeyOf(recipes[0])] + GraficoEstadisticas.KeysOfRecipes(recipes[1..]);
    }
  }

  /** `usoActual` as a percentage: exact, where the source computes
      `(total / 10) * 100` in floating point. */
  function Usage(plan: string, total: nat): (u: nat)
    ensures plan != "plus" ==> u == 100
    ensures plan == "plus" ==> u * 10 == total * 100
  {
    if plan == "plus" then total * 10 else 100
  }

  /** The width of the usage bar, in percent. */
  function BarWidth(plan: string, total: nat): (w: nat)
    ensures plan == "premium" ==> w == 100
  {
    if plan == "premium" then 100 else Usage(plan, total)
  }

  /** The premium override of the bar width changes nothing: `usoActual` is
      already 100 for every plan but "plus". */
  lemma PremiumOverrideRedundant(plan: string, total: nat)
    ensures BarWidth(plan, total) == Usage(plan, total)
  {
  }

  /** On the plus plan the bar's width exceeds 100% exactly when there are
      more than 10 recipes; the track hides the overflow on screen. */
  lemma PlusBarFits(total: nat)
    ensures BarWidth("plus", total) <= 100 <==> total <= 10
  {
  }

  /** The line under the bar: the number of recipes still available, or
      `None` for "Recetas ilimitadas". */
  function Available(plan: string, total: nat): (r: Option<int>)
    ensures r.Some? <==> plan == "plus"
    ensures r.Some? ==> r.value + total == 10
  {
    if plan == "plus" then Some(10 - total) else None
  }

  /** The available count is not clamped: above 10 recipes it is negative. */
  lemma AvailableGoesNegative(total: nat)
    requires total > 10
    ensures Available("plus", total).value < 0
  {
  }

  /** On the plus plan the report shows recipes available exactly when the
      creation form lets another one be added. */
  lemma AvailableAgreesWithForm(total: nat)
    ensures Available("plus", total).value > 0 <==> FormularioReceta.CanAdd("plus", total)
  {
  }
}
