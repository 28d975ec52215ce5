# Design-approval workflow (Odoo module `ModuloDiseno`), modelled in Dafny

The module manages artwork designs for an agency. A design (`design.design`)
belongs to a client, a project task and a product category. It moves through
the states `borrador`, `validacion`, `cliente`, `aprobado` and `rechazado`,
and through the stages `etapa1`, `etapa2` and `completo`. Each design has:

- a checklist of items (`design.checklist_item`). The designer and the
  validator each tick every item; ticking stamps the acting user and the
  time.
- a revision log (`design.revision_log`) of rejections and approvals.

Checklists are instantiated from per-category, per-stage templates:

- `create` copies the first stage-1 template of the category named in its values dictionary.
- A `write` that sets `etapa` to `etapa2` appends the first stage-2 template,
  unless the checklist already has an item whose name mentions `etapa2`.

The checklist gate opens a fully validated design to the client.

Four wizards drive the workflow:

- `design.wizard_rechazo`, the rejection dialog that the design's own
  `abrir_wizard_rechazo` opens. It forwards its note without any check, so
  a whitespace-only note reaches `marcar_como_rechazado` through it;
- `design.rechazo.wizard`, a second rejection dialog that insists on a
  non-blank reason. No method of the module opens it;
- a re-upload dialog that sends a rejected design back to validation;
- an administrators-only bulk delete, which cascades to checklist items and
  log entries.

The model is imperative, like the module:

- `Designs.Env` is the database. It holds:
  - the design table, keyed by id;
  - the checklist-item and revision-log tables, in creation order;
  - the last id handed out.
- `Designs.Design` and `ChecklistItems.ChecklistItem` are records whose
  columns the operations assign in place:
  - A `Design` keeps its stored columns in one value, `row`. Each assignment
    of the source is one update of that value.
  - A `ChecklistItem` has one Dafny field per column.
- Log entries and checklist templates are values; nothing changes them.

Every state-changing method is proved against a function on values:

- `Rejected`, `ApprovedByClient`, `Gate`, `ApplyVals`, `Stage2Step`,
  `AddStage2` and `InitialChecklist` in `Designs`;
- `DesignerOnchange` and `ValidatorOnchange` in `ChecklistItems`;
- `Filter` in `Common`, for the cascade of `Designs.Env.Unlink` and
  `DeleteConfirmWizard.ActionConfirm`;
- `Resubmitted` in `SubirDisenoWizard`.

`DesignProperties` proves what the workflow promises about these functions.

Inputs of the model:

- The acting user, the current time and the administrator check
  (`has_group('base.group_system')`) are parameters.
- The checklist templates are a read-only sequence in id order.
  `search(..., limit=1)` is the first match in that sequence.
- An Odoo exception is a `Failure` of an `OdooError`. The request it aborts
  is rolled back, so every failing path is proved to change nothing.

## Model

| member | source | states |
|---|---|---|
| `Templates.FirstMatch` | models/design.py:99-102 | the position found is the first template whose category and stage match; it is absent exactly when no template matches |
| `Templates.FirstTemplate` | models/design.py:121-124 | `search(limit=1)` yields the first template of the sequence, in id order, that matches the category and stage; it yields nothing exactly when no template matches |
| `PyStr.TrimStart` | wizards/rechazo_wizard.py:16 | the result is a suffix of the input; only whitespace was removed; it does not start with whitespace |
| `PyStr.TrimEnd` | wizards/rechazo_wizard.py:16 | the result is a prefix of the input; only whitespace was removed; it does not end with whitespace |
| `PyStr.BlankIffAllSpace` | wizards/rechazo_wizard.py:16 | `not s.strip()` holds exactly when every character of `s` is Python whitespace |
| `Common.Filter` | models/checklist_item.py:12 | a cascade keeps only rows the predicate accepts, and keeps every row it accepts |
| `Common.FilterCount` | models/checklist_item.py:12 | a kept row stays as many times as it occurred, so equal log entries are not merged; a removed row disappears altogether |
| `Common.FilterAppend` | models/checklist_item.py:12 | the cascade on two tables laid end to end is the cascade on each in turn, so the kept rows keep their order |
| `ChecklistItems.ChecklistItem.constructor` | models/checklist_item.py:11-22 | a new item belongs to its design, carries its name and comment, and has both flags false with no user and no date |
| `ChecklistItems.ChecklistItem.OnchangeValidadoDisenador` | models/checklist_item.py:24-28 | when the designer flag is set, the item gets the acting user and the current time; otherwise it is unchanged |
| `ChecklistItems.ChecklistItem.OnchangeValidadoValidador` | models/checklist_item.py:30-34 | the same for the validator's flag, user and date |
| `ChecklistItems.ChecklistItem.SetValidadoPorDisenador` | models/checklist_item.py:14-16 | ticking or unticking the designer box, followed by its onchange |
| `ChecklistItems.ChecklistItem.SetValidadoPorValidador` | models/checklist_item.py:18-20 | ticking or unticking the validator box, followed by its onchange |
| `ChecklistItems.ChecklistOfMembers` | models/design.py:28 | `checklist_ids` holds exactly the item rows whose `design_id` is the design |
| `ChecklistItems.ChecklistOfAppend` | models/design.py:28 | appending rows to the item table extends each checklist by the new rows that point at it, in order |
| `ChecklistItems.ChecklistOfAbsent` | models/design.py:28 | a design that no row points at has an empty checklist |
| `ChecklistItems.FromTemplateAt` | models/design.py:105-110 | one item per template item, in the template's order, with its name and `comentario_default or ''`, unvalidated |
| `ChecklistItems.ChecklistOfFromTemplate` | models/design.py:127-132 | the items created for design `id` join its checklist and no other |
| `Designs.Design.Assign` | models/design.py:115 | the ORM's generic write: every key of the dictionary replaces its column and every other column is kept |
| `Designs.Design.MarcarComoRechazado` | models/design.py:60-75 | the design is rejected and reset to a hidden, unapproved stage-1 design with the note and date; one `rechazo` entry by the user is logged; the checklist is untouched |
| `Designs.Design.MarcarComoAprobadoPorCliente` | models/design.py:77-89 | approved, stage 2, dated; the stage-2 step of `write` runs on the checklist; one `aprobacion_cliente` entry "Aprobado por cliente" is logged |
| `Designs.Env.CreateLog` | models/design.py:70-75 | `revision_log.create`: exactly one entry is appended and nothing else changes |
| `Designs.Env.CreateItem` | models/design.py:106-110 | `checklist_item.create`: exactly one fresh, unvalidated item is appended for the design |
| `Designs.Env.CreateItemsFromTemplate` | models/design.py:105-110 | the item table grows by exactly the items of the template, in order, and earlier rows are kept |
| `Designs.Env.AllValidatedBy` | models/design.py:53-54 | `all(item.<flag> for item in record.checklist_ids)`, including true for an empty checklist |
| `Designs.Env.HasEtapa2ItemFor` | models/design.py:120 | whether some item of the design's checklist has a name whose lower-case form contains 'etapa2' |
| `Designs.MissingRequired` | models/design.py:13-20 | a row can be inserted exactly when `name`, `cliente_id`, `task_id` and `categoria_id` are all set; otherwise it names one of those columns, `name` exactly when the name is missing |
| `Designs.Env.Create` | models/design.py:91-112 | an undeclared key fails with nothing inserted; then a required column that neither the dictionary nor the request's defaults fills fails on that column, with nothing inserted; otherwise a fresh design with an id above every id handed out before, its field defaults overridden by the request's defaults and then by the dictionary, and with exactly the items of the first stage-1 template of the category the dictionary names |
| `Designs.Env.AssignAll` | models/design.py:115 | `super().write(vals)` on every record of the recordset |
| `Designs.Env.Stage2For` | models/design.py:118-132 | unless the design's checklist already mentions 'etapa2', the items of the first stage-2 template of its category are appended |
| `Designs.Env.SetEtapa` | models/design.py:66 | `record.etapa = e` is a one-key `write`: it sets the stage, and only 'etapa2' adds checklist items |
| `Designs.Env.AddStage2Items` | models/design.py:117-132 | the stage-2 step runs for each record in turn |
| `Designs.Env.Write` | models/design.py:114-134 | on an empty recordset it returns True and changes nothing, whatever the keys; otherwise an undeclared key fails with nothing written; otherwise each record gets the dictionary, and the stage-2 items are added only when 'etapa2' is written |
| `Designs.Env.GateRecord` | models/design.py:53-58 | the design becomes visible and 'cliente' exactly when both roles validated its whole checklist and it was hidden |
| `Designs.Env.ComputeEstadoChecklist` | models/design.py:50-58 | the gate applied to every record of the recordset |
| `Designs.Env.Unlink` | wizards/delete_confirm_wizard.py:30 | the designs are removed with their checklist items and log entries (cascade on `design_id`), and every other row stays, in order |
| `RechazoWizard.ActionConfirmarRechazo` | wizards/rechazo_wizard.py:13-23 | a blank reason fails with a ValidationError and nothing changes; otherwise the design is rejected with the unstripped reason, logged, and the dialog closes |
| `WizardRechazo.AplicarRechazo` | models/wizard_rechazo.py:10-12 | the note is passed verbatim, with no blank check; without a linked design the log entry misses its required design and nothing changes |
| `SubirDisenoWizard.UploadValsAsWritten` | wizards/subir_diseno_wizard.py:18-26 | the written dictionary holds an undeclared key, first of all 'diseño_subido' |
| `SubirDisenoWizard.ActionSubirDisenoAsWritten` | wizards/subir_diseno_wizard.py:11-33 | without an image a ValidationError; with one the write always fails on 'diseño_subido'; in both cases nothing changes |
| `SubirDisenoWizard.ActionSubirDiseno` | wizards/subir_diseno_wizard.py:11-33 | without an image a ValidationError and nothing changes; otherwise the design is resubmitted, the checklist is untouched, one entry by the user is logged, and the form is opened |
| `DeleteConfirmWizard.DefaultGet` | wizards/delete_confirm_wizard.py:11-17 | a non-empty `default_design_ids` selects exactly those designs, with `default_count` or 0; otherwise the defaults are left as they were |
| `DeleteConfirmWizard.ActionConfirm` | wizards/delete_confirm_wizard.py:19-42 | an empty selection fails first, then a non-administrator fails, both changing nothing; an administrator deletes exactly the selection, with cascade |
| `DesignProperties.CreatedStartsAsDraft` | models/design.py:22-48 | a new design is a hidden stage-1 draft, neither approved nor rejected; a value of the dictionary wins over a request default, and a category missing from the dictionary comes from the request's defaults |
| `DesignProperties.DefaultCategoryBuildsNoChecklist` | models/design.py:93-97 | a category that only a request default supplies is stored on the design, yet `create` builds no checklist for it |
| `DesignProperties.NoInitialChecklist` | models/design.py:95-104 | without a category, or without a stage-1 template for it, `create` adds no item |
| `DesignProperties.InitialChecklistFromFirstTemplate` | models/design.py:99-110 | the initial checklist is exactly the items of the first matching stage-1 template, in order |
| `DesignProperties.NewChecklistIncomplete` | models/design.py:50-58 | right after `create`, the new design's checklist is its template's items, and a non-empty one keeps the gate closed |
| `DesignProperties.CompleteIffAllRowsValidated` | models/design.py:53-56 | the gate's condition holds exactly when every item row of the design is validated by both roles; an empty checklist counts as complete |
| `DesignProperties.GateOnlyOpens` | models/design.py:56-58 | the gate never hides a design; it opens and moves to 'cliente' exactly a hidden design with a complete checklist; nothing else changes |
| `DesignProperties.GateIdempotent` | models/design.py:50-58 | evaluating the gate again changes nothing |
| `DesignProperties.RejectionResets` | models/design.py:60-67 | the reset fields after a rejection, the data kept, and the later note winning on a second rejection |
| `DesignProperties.RejectedCompleteDesignReopens` | models/design.py:50-67 | rejection leaves the checklist validated, so a design rejected with a complete checklist is reopened to the client by the next gate |
| `DesignProperties.ApprovalFields` | models/design.py:77-81 | approval sets approved, stage 2, the date and 'aprobado', and nothing else |
| `DesignProperties.Stage2StepChecklists` | models/design.py:117-132 | the stage-2 step only appends, and only to the checklist of its own design |
| `DesignProperties.Stage2StepFromFirstTemplate` | models/design.py:118-132 | when the guard does not hold, the stage-2 step appends exactly the items of the first matching stage-2 template, in order, to the table and to the design's checklist |
| `DesignProperties.Stage2StepLocal` | models/design.py:118-132 | the stage-2 step's effect on a design's checklist depends on nothing but that checklist |
| `DesignProperties.AddStage2OwnChecklist` | models/design.py:117-132 | on a recordset of distinct designs, each design's checklist ends as the stage-2 step on that design alone would leave it |
| `DesignProperties.AddStage2OtherDesigns` | models/design.py:117-132 | writing 'etapa2' on a recordset leaves the checklists of designs outside it unchanged |
| `DesignProperties.FromTemplateMentions` | models/design.py:120-132 | the items created from a template mention 'etapa2' exactly when the template's items do |
| `DesignProperties.Stage2StepTwice` | models/design.py:118-132 | a second 'etapa2' write adds nothing exactly when the guard already held, there is no stage-2 template, or that template is empty or names an item 'etapa2'; otherwise its items are duplicated |
| `DesignProperties.UploadValsResubmit` | wizards/subir_diseno_wizard.py:18-26 | writing the declared keys of the upload dictionary yields the resubmitted design |
| `DesignProperties.ResubmitAfterRejection` | wizards/subir_diseno_wizard.py:18-26 | after a rejection and an upload, the design waits for validation in stage 1 with the new image, no longer rejected and without a note, still hidden and unapproved, with its data kept |
| `DesignProperties.OnchangesIndependent` | models/checklist_item.py:24-34 | each handler stamps only its own role's user and date, only when its flag is set; neither touches a flag or the other role's fields; the two commute |

## Source defects and how they are modelled

- `models/checklist_item.py:24` and `:30` decorate the handlers with `api.onchange`, but the file imports only `models` and `fields`. Loading the module would fail with a NameError. Modelled as corrected: the handlers behave as if `api` were imported.
- `wizards/delete_confirm_wizard.py:27` raises `AccessError`, which the file never imports. A non-administrator therefore gets a NameError, not an access error. Modelled as written: `DeleteConfirmWizard.ActionConfirm` returns `NameError("AccessError")`. Either way nothing is deleted.
- `models/design.py:50` declares dependencies on fields that the item model does not have, and no field uses `_compute_estado_checklist` as its compute. Modelled as the method body: the gate is an explicit operation, `Designs.Env.ComputeEstadoChecklist`.
- `wizards/subir_diseno_wizard.py:29-33` creates the log entry with kind 'resubida', which `models/revision_log.py:13-18` does not declare. It also omits the required `usuario_id`. As written, this code is never reached, because the `write` before it always fails (see Findings). Modelled as corrected, in the corrected wizard only: it logs the acting user with a kind of its own, `Resubida`, which the source does not declare.
- `models/design.py:95` takes the category from the caller's dictionary, not from the created record. Modelled as written: a category that only the request's defaults supply is stored but builds no checklist (`DesignProperties.DefaultCategoryBuildsNoChecklist`).
- The code does not do the following, and neither does the model:
  - Rejection does not reset the checklist validations.
  - Nothing counts modifications.
  - Nothing restricts which role may tick which box.
  - Nothing moves a design to 'validacion' when the designer finishes.

## Left out

- `controllers/portal.py` is not part of this model. It covers HTTP routing, rendering and access checks. Its handlers also call methods that `design.design` does not define.
- `models/design_image.py` is not part of this model. Deleting a design also removes its images through the cascade on `design_id`; the model has no image table.
- `wizards/portal_access_wizard.py` (a stub) and `__manifest__.py` are not part of this model.
- Mail: the `message_post` to the validators in the upload wizard is not modelled, and neither is the field tracking of `mail.thread`.
- UI: `abrir_wizard_rechazo` and the contents of the returned action dictionaries are not modelled. This includes the text and count of the deletion notification. Only the kind of action is kept.
- `_order = "create_date desc"` on designs and log entries only affects display. The tables are kept in creation order.
- The creation date of log entries is set by the ORM and is not modelled.
- `Designs.Env.Create`: a failed insert keeps `lastDesignId`, so the next design gets the id right after the last one created. In the database the id comes from a sequence that a rollback does not reset, so a refused insert uses up an id. Nothing in the module depends on id values.
- `Designs.Env.Write`: writing `False` to the Char and Many2one columns (`name`, `cliente_id`, `task_id`, `categoria_id`) or to the selection columns (`etapa`, `state`) cannot be expressed. The Boolean, Text and Datetime columns can be cleared; the one `False` the module writes to a non-Boolean column, to the note in the upload wizard, is modelled as clearing it.
- `Designs.Env.Create` and `Designs.Env.Write`: the values dictionary cannot carry One2many commands for `checklist_ids` or `historial_ids`. In the source, item lines given that way are created by `super().create` before the template's items, and lines created by a `write` are already seen by its 'etapa2' guard; the model shows neither.
- `Designs.Env.Write` and `Designs.Env.ComputeEstadoChecklist` require the records of the recordset to be distinct. Within the module, `write` is only reached through field assignments on a single record (`self.etapa = ...`), and the upload wizard writes on a single design. An Odoo recordset in general may repeat a record (`browse([1, 1])`, `rs + rs`); that case is not modelled.
- `PyStr.Lower` lower-cases ASCII letters only and leaves every other character as it is; Python's `str.lower` also folds other alphabets. The test for 'etapa2' is unaffected: the few non-ASCII characters that Python lower-cases to ASCII (the Kelvin sign to 'k', the dotted capital I to 'i' followed by a combining dot) cannot produce the letters of 'etapa2'.
- Access rules and record rules, other than the administrator check of the delete wizard, are not modelled.

## Findings

| source | as written | input that shows it | evidently intended | confidence | as-written member | corrected member |
|---|---|---|---|---|---|---|
| wizards/subir_diseno_wizard.py:18-26 | the `write` dictionary has the keys 'diseño_subido' and 'fecha_subida_diseno', which `design.design` does not declare, so the ORM refuses it with "Invalid field" | any wizard record with an image: the upload fails and the design stays rejected | write only the declared keys (image, state 'validacion', not rejected, no note, stage 1), then log the upload with the acting user | not executed | `SubirDisenoWizard.ActionSubirDisenoAsWritten` | `SubirDisenoWizard.ActionSubirDiseno` |
