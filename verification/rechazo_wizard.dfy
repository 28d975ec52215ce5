/** `design.rechazo.wizard`: the dialog in which a reviewer rejects a design
    and must give a reason. */
module RechazoWizard {
  import opened Common
  import opened PyStr
  import opened Templates
  import opened Designs

  /** The wizard record: the design it was opened on and the reason typed
      in. `motivo` is a required Text field, so it is always a string. */
  datatype DesignRechazoWizard = DesignRechazoWizard(design: Design, motivo: string)

  const MotivoRequerido := "Debe proporcionar un motivo para el rechazo."

  /** `action_confirmar_rechazo`: a reason that is empty once surrounding
      whitespace is stripped raises a ValidationError before anything is
      written; any other reason, unstripped, is handed to
      `marcar_como_rechazado` and the dialog closes. */
  method ActionConfirmarRechazo(w: DesignRechazoWizard, env: Env, templates: seq<ChecklistTemplate>, user: UserId, now: Timestamp)
    returns (r: Result<Action, OdooError>)
    requires env.Valid() && env.Holds(w.design)
    modifies w.design, env
    ensures env.Valid()
    ensures IsBlank(w.motivo) ==>
      && r == Failure(ValidationError(MotivoRequerido))
      && unchanged(w.design) && unchanged(env)
    ensures !IsBlank(w.motivo) ==>
      && r == Success(ActWindowClose)
      && w.design.row == Rejected(old(w.design.row), w.motivo, now)
      && env.logs == old(env.logs) + [RejectionEntry(w.design.id, user, w.motivo)]
      && env.items == old(env.items) && env.designs == old(env.designs)
      && env.lastDesignId == old(env.lastDesignId)
  {
    if Strip(w.motivo) == [] {
      return Failure(ValidationError(MotivoRequerido));
    }
    w.design.MarcarComoRechazado(env, templates, w.motivo, user, now);
    r := Success(ActWindowClose);
  }
}
