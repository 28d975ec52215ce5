/** `design.delete.confirm`: the dialog that confirms deleting a selection
    of designs. */
module DeleteConfirmWizard {
  import opened Common
  import opened ChecklistItems
  import opened RevisionLog
  import opened Designs

  /** The keys of the request context the wizard reads: the preselected
      design ids and their count (`None` when the key is absent). */
  datatype DeleteContext = DeleteContext(defaultDesignIds: Option<seq<Id>>, defaultCount: Option<int>)

  /** The defaults dictionary being built: `None` when a key is not set. */
  datatype DeleteDefaults = DeleteDefaults(designIds: Option<set<Id>>, count: Option<int>)

  /** The wizard record: its Many2many selection and the count shown. */
  datatype DesignDeleteConfirm = DesignDeleteConfirm(designIds: set<Id>, count: int)

  const NadaQueEliminar := "No hay diseños para eliminar."

  /** `default_get`: starting from the generic defaults `base`, a non-empty
      `default_design_ids` list in the context replaces the selection with
      exactly those designs and sets the count to `default_count`, or 0
      when the context has none; otherwise `base` is returned as is. */
  method DefaultGet(base: DeleteDefaults, ctx: DeleteContext) returns (res: DeleteDefaults)
    ensures ctx.defaultDesignIds.Some? && ctx.defaultDesignIds.value != [] ==>
      && res.designIds.Some?
      && (forall i :: i in res.designIds.value <==> i in ctx.defaultDesignIds.value)
      && res.count == Some(if ctx.defaultCount.Some? then ctx.defaultCount.value else 0)
    ensures !(ctx.defaultDesignIds.Some? && ctx.defaultDesignIds.value != []) ==> res == base
  {
    res := base;
    if ctx.defaultDesignIds.Some? && ctx.defaultDesignIds.value != [] {
      var ids := ctx.defaultDesignIds.value;
      res := res.(designIds := Some(set i | i in ids));
      res := res.(count := Some(ctx.defaultCount.GetOr(0)));
    }
  }

  /** `action_confirm`: an empty selection raises a UserError; then a user
      outside the administrators' group reaches the `raise AccessError`,
      whose name is never imported, so the request fails with a NameError;
      otherwise the selected designs are unlinked, their checklist items and
      log entries going with them, and a success notification is returned.
      Whether the user is an administrator is an input. */
  method ActionConfirm(w: DesignDeleteConfirm, env: Env, isAdmin: bool) returns (r: Result<Action, OdooError>)
    requires env.Valid()
    modifies env
    ensures env.Valid()
    ensures w.designIds == {} ==>
      r == Failure(UserError(NadaQueEliminar)) && unchanged(env)
    ensures w.designIds != {} && !isAdmin ==>
      r == Failure(NameError("AccessError")) && unchanged(env)
    ensures w.designIds != {} && isAdmin ==>
      && r == Success(DisplayNotification)
      && env.designs == old(env.designs) - w.designIds
      && env.items == Filter(old(env.items), (i: ChecklistItem) => i.designId !in w.designIds)
      && env.logs == Filter(old(env.logs), (e: RevisionEntry) => e.designId !in w.designIds)
      && env.lastDesignId == old(env.lastDesignId)
  {
    if w.designIds == {} {
      return Failure(UserError(NadaQueEliminar));
    }
    if !isAdmin {
      return Failure(NameError("AccessError"));
    }
    env.Unlink(w.designIds);
    r := Success(DisplayNotification);
  }
}
