/** The revision log (`design.revision_log`): entries are created by the
    design operations and never changed afterwards. */
module RevisionLog {
  import opened Common

  /** The kinds of entry. `Resubida` is not among the kinds the log model
      declares; only the corrected re-upload wizard uses it. */
  datatype Tipo =
    | ValidacionDisenador
    | ValidacionValidador
    | Rechazo
    | AprobacionCliente
    | Resubida

  datatype RevisionEntry = RevisionEntry(
    designId: Id,
    usuario: UserId,
    observaciones: Option<string>,
    tipo: Tipo)
}
