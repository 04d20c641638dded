/**
 * The plan upgrade panel (frontend/src/componentes/ActualizarPlan.jsx): the
 * guards before the request, the stored user after a successful upgrade,
 * and the colour the panel's message is shown in.
 */
module ActualizarPlan {
  import opened Optional
  import opened Strings
  import opened Entities
  import opened Traducciones
  import Dashboard
  import FormularioReceta

  const AlreadyPremium: string := "Ya tienes plan Premium"
  const PlusOnly: string := "Solo se puede cambiar de plan plus a premium"
  const UpgradeFailed: string := "Error al actualizar el plan"
  const Upgraded: string := "¡Plan actualizado a Premium exitosamente!"

  datatype PlanPanel = PlanPanel(loading: bool, message: string)

  /** `{ ...usuarioAlmacenado, plan: "premium" }`, where a missing stored
      user spreads as nothing. */
  function Promote(stored: Option<User>): (u: User)
    ensures PlanField in u && u[PlanField] == JString("premium")
    ensures stored.Some? ==> forall f :: f in stored.value ==> f in u
    ensures forall f :: f in u && f != PlanField ==> stored.Some? && f in stored.value && u[f] == stored.value[f]
  {
    stored.GetOr(map[])[PlanField := JString("premium")]
  }

  /** The end of `manejarActualizacion`: the panel it leaves, whether it
      sent the request, and the user it stored and dispatched, if any. */
  datatype UpgradeRun = UpgradeRun(final: PlanPanel, requested: bool, saved: Option<User>)

  /** `manejarActualizacion`, with the answer to `window.confirm`, the user
      in local storage and the API's reply as parameters. */
  function Upgrade(currentPlan: Option<string>, panel: PlanPanel, confirmed: bool,
                   stored: Option<User>, reply: Reply<()>): (r: UpgradeRun)
    ensures r.requested <==> currentPlan == Some("plus") && confirmed
    ensures currentPlan == Some("premium") ==> r.final == panel.(message := AlreadyPremium)
    ensures currentPlan != Some("premium") && currentPlan != Some("plus") ==>
              r.final == panel.(message := PlusOnly)
    ensures currentPlan == Some("plus") && !confirmed ==> r.final == panel
    ensures !r.requested ==> r.saved.None?
    ensures r.requested ==> !r.final.loading
    ensures r.saved.Some? <==> r.requested && reply.Ok?
    ensures r.saved.Some? ==> r.saved.value == Promote(stored) && r.final.message == Upgraded
    ensures r.requested && !reply.Ok? ==>
              r.final.message == Translate(Some(FailureMessage(reply, UpgradeFailed)))
  {
    if currentPlan == Some("premium") then UpgradeRun(panel.(message := AlreadyPremium), false, None)
    else if currentPlan != Some("plus") then UpgradeRun(panel.(message := PlusOnly), false, None)
    else if !confirmed then UpgradeRun(panel, false, None)
    else
      match reply
      case Ok(_) => UpgradeRun(PlanPanel(false, Upgraded), true, Some(Promote(stored)))
      case _ => UpgradeRun(PlanPanel(false, Translate(Some(FailureMessage(reply, UpgradeFailed)))), true, None)
  }

  /** After a successful upgrade the dashboard's plan is "premium", so the
      creation form no longer has a limit. */
  lemma UpgradeLiftsLimit(panel: PlanPanel, stored: Option<User>, count: nat)
    ensures var r := Upgrade(Some("plus"), panel, true, stored, Ok(()));
            Dashboard.EffectivePlan(r.saved) == "premium"
            && FormularioReceta.CanAdd(Dashboard.EffectivePlan(r.saved), count)
  {
  }

  /** `mensaje.includes("éxito") || mensaje.includes("¡")`: the message is
      shown in green. */
  predicate SuccessStyle(message: string) {
    Contains(message, "éxito") || Contains(message, "¡")
  }

  /** The success message is shown in green. */
  lemma UpgradedIsSuccess()
    ensures SuccessStyle(Upgraded)
  {
    assert Upgraded[0] == '¡';
    assert Upgraded[0..1] == "¡";
    ContainsAt(Upgraded, "¡", 0);
  }

  /** A text with neither 'é' nor '¡' is shown in red. */
  lemma PlainTextIsError(message: string)
    requires 'é' !in message && '¡' !in message
    ensures !SuccessStyle(message)
  {
    assert "éxito"[0] == 'é';
    MissingCharNotContained(message, "éxito", 'é');
    MissingCharNotContained(message, "¡", '¡');
  }

  /** The guard for a premium plan is shown in red. */
  lemma AlreadyPremiumIsError()
    ensures !SuccessStyle(AlreadyPremium)
  {
    PlainTextIsError(AlreadyPremium);
  }

  /** The guard for any other plan is shown in red. */
  lemma PlusOnlyIsError()
    ensures !SuccessStyle(PlusOnly)
  {
    PlainTextIsError(PlusOnly);
  }
}
