/** `design.subir.diseno.wizard`: the dialog in which a designer uploads a
    new version of a rejected design, sending it back to validation. */
module SubirDisenoWizard {
  import opened Common
  import opened Templates
  import opened RevisionLog
  import opened Designs

  /** The wizard record: the design and the new image (empty when none was
      chosen). */
  datatype SubirDisenoWizard = SubirDisenoWizard(design: Design, image: Binary)

  const ImagenRequerida := "Debe seleccionar una imagen para continuar."

  const NotaResubida := "Nueva versión del diseño subida después de rechazo."

  /** The dictionary the wizard writes on the design, as written: besides
      the image and the workflow reset it holds two keys, 'diseño_subido'
      and 'fecha_subida_diseno', that name no field of `design.design`. */
  function UploadValsAsWritten(image: Binary): (v: DesignVals)
    ensures v.undeclared != [] && v.undeclared[0] == "diseño_subido"
  {
    NoVals.(image := Some(image), state := Some(Validacion), rechazado := Some(false),
            observacionesRechazo := Some(None), etapa := Some(Etapa1),
            undeclared := ["diseño_subido", "fecha_subida_diseno"])
  }

  /** The same dictionary with only the keys the design declares. */
  function UploadVals(image: Binary): DesignVals {
    UploadValsAsWritten(image).(undeclared := [])
  }

  /** A design's columns after a new version is uploaded: the new image,
      back to validation in stage 1, no longer rejected and without a
      rejection note. */
  function Resubmitted(f: DesignFields, image: Binary): DesignFields {
    f.(image := image, state := Validacion, rechazado := false, observacionesRechazo := None, etapa := Etapa1)
  }

  /** The log entry of the corrected upload: it names the acting user (the
      field is required) and uses the kind `Resubida`. */
  function ResubmissionEntry(id: Id, user: UserId): RevisionEntry {
    RevisionEntry(id, user, Some(NotaResubida), Resubida)
  }

  /** `action_subir_diseno` as written. Without an image it raises a
      ValidationError. With one, the `write` refuses the undeclared key
      'diseño_subido' before changing anything, so the log entry and the
      notification after it are never reached: the upload can never
      succeed. */
  method ActionSubirDisenoAsWritten(w: SubirDisenoWizard, env: Env, templates: seq<ChecklistTemplate>)
    returns (r: Result<Action, OdooError>)
    requires env.Valid() && env.Holds(w.design)
    modifies w.design, env
    ensures env.Valid()
    ensures r == Failure(if w.image == [] then ValidationError(ImagenRequerida)
                         else InvalidField("diseño_subido", "design.design"))
    ensures w.design.row == old(w.design.row)
    ensures env.designs == old(env.designs) && env.items == old(env.items) && env.logs == old(env.logs)
    ensures env.lastDesignId == old(env.lastDesignId)
  {
    if w.image == [] {
      return Failure(ValidationError(ImagenRequerida));
    }
    var written := env.Write([w.design], UploadValsAsWritten(w.image), templates);
    assert [w.design][0] == w.design;
    r := Failure(written.error);
  }

  /** `action_subir_diseno` as intended: the same guard, then a write of the
      declared keys only (writing 'etapa1' adds no checklist item), then one
      log entry for the design by the acting user; it returns the design's
      form. The message to the validators is not part of this model. */
  method ActionSubirDiseno(w: SubirDisenoWizard, env: Env, templates: seq<ChecklistTemplate>, user: UserId)
    returns (r: Result<Action, OdooError>)
    requires env.Valid() && env.Holds(w.design)
    modifies w.design, env
    ensures env.Valid()
    ensures w.image == [] ==>
      && r == Failure(ValidationError(ImagenRequerida))
      && unchanged(w.design) && unchanged(env)
    ensures w.image != [] ==>
      && r == Success(OpenDesignForm(w.design.id))
      && w.design.row == Resubmitted(old(w.design.row), w.image)
      && env.items == old(env.items)
      && env.logs == old(env.logs) + [ResubmissionEntry(w.design.id, user)]
      && env.designs == old(env.designs) && env.lastDesignId == old(env.lastDesignId)
  {
    if w.image == [] {
      return Failure(ValidationError(ImagenRequerida));
    }
    var _ := env.Write([w.design], UploadVals(w.image), templates);
    assert [w.design][0] == w.design;
    env.CreateLog(ResubmissionEntry(w.design.id, user));
    r := Success(OpenDesignForm(w.design.id));
  }
}
