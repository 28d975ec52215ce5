/** `design.wizard_rechazo`: the rejection dialog that the design's
    `abrir_wizard_rechazo` opens. It forwards its note to the design without
    any check of its own, so a whitespace-only note is accepted. */
module WizardRechazo {
  import opened Common
  import opened Templates
  import opened Designs

  /** The wizard record. `observacion` is a required Text field; the design
      link is optional, so it may be empty (`None`). */
  datatype WizardRechazoDesign = WizardRechazoDesign(observacion: string, design: Option<Design>)

  /** `aplicar_rechazo`: `marcar_como_rechazado(observacion)` on the linked
      design. On an empty link the field assignments touch no record and the
      log entry is created without its required design, so the request
      fails and is rolled back. */
  method AplicarRechazo(w: WizardRechazoDesign, env: Env, templates: seq<ChecklistTemplate>, user: UserId, now: Timestamp)
    returns (r: Result<bool, OdooError>)
    requires env.Valid()
    requires w.design.Some? ==> env.Holds(w.design.value)
    modifies env, if w.design.Some? then {w.design.value} else {}
    ensures env.Valid()
    ensures w.design.None? ==>
      && r == Failure(RequiredFieldMissing("design_id", "design.revision_log"))
      && unchanged(env)
    ensures w.design.Some? ==>
      && r == Success(true)
      && w.design.value.row == Rejected(old(w.design.value.row), w.observacion, now)
      && env.logs == old(env.logs) + [RejectionEntry(w.design.value.id, user, w.observacion)]
      && env.items == old(env.items) && env.designs == old(env.designs)
      && env.lastDesignId == old(env.lastDesignId)
  {
    if w.design.None? {
      return Failure(RequiredFieldMissing("design_id", "design.revision_log"));
    }
    w.design.value.MarcarComoRechazado(env, templates, w.observacion, user, now);
    r := Success(true);
  }
}
