/** Properties of the design workflow, stated on the functions that the
    operations of `Designs` and of the wizards are proved against. */
module DesignProperties {
  import opened Common
  import opened PyStr
  import opened Templates
  import opened ChecklistItems
  import opened Designs
  import opened SubirDisenoWizard

  /** A design created without an explicit stage, state or flag, in the
      dictionary or in the request's defaults, starts as a stage-1 draft,
      hidden from the client, neither approved nor rejected; a value the
      dictionary gives wins over a request default. */
  lemma CreatedStartsAsDraft(ctx: DesignVals, v: DesignVals)
    requires v.etapa.None? && v.state.None? && ctx.etapa.None? && ctx.state.None?
    requires v.visibleParaCliente.None? && v.aprobadoCliente.None? && v.rechazado.None?
    requires ctx.visibleParaCliente.None? && ctx.aprobadoCliente.None? && ctx.rechazado.None?
    ensures Created(ctx, v).state == Borrador && Created(ctx, v).etapa == Etapa1
    ensures !Created(ctx, v).visibleParaCliente && !Created(ctx, v).aprobadoCliente && !Created(ctx, v).rechazado
    ensures v.name.Some? ==> Created(ctx, v).name == v.name
    ensures v.categoria.Some? ==> Created(ctx, v).categoria == v.categoria
    ensures v.cliente.Some? ==> Created(ctx, v).cliente == v.cliente
    ensures v.task.Some? ==> Created(ctx, v).task == v.task
    ensures v.categoria.None? ==> Created(ctx, v).categoria == ctx.categoria
  {
  }

  /** `create` looks the template up by the category in the caller's
      dictionary only: a design whose category comes from a request default
      is stored with that category but gets no checklist item. */
  lemma DefaultCategoryBuildsNoChecklist(id: Id, ctx: DesignVals, v: DesignVals, templates: seq<ChecklistTemplate>)
    requires v.categoria.None? && ctx.categoria.Some?
    ensures Created(ctx, v).categoria == ctx.categoria
    ensures InitialChecklist(id, v.categoria, templates) == []
  {
  }

  /** Without a category, or without a stage-1 template for it, a new design
      gets no checklist item. */
  lemma NoInitialChecklist(id: Id, cat: Option<CategoryId>, templates: seq<ChecklistTemplate>)
    requires cat.None? || forall k :: 0 <= k < |templates| ==> !Matches(templates[k], cat, TEtapa1)
    ensures InitialChecklist(id, cat, templates) == []
  {
  }

  /** When the first stage-1 template of the category is `templates[k]`, a
      new design gets exactly one unvalidated item per item of that
      template, in the template's order, named after it and carrying its
      default comment, or '' when it has none. */
  lemma {:induction false} InitialChecklistFromFirstTemplate(id: Id, cat: Option<CategoryId>, templates: seq<ChecklistTemplate>, k: nat)
    requires k < |templates| && Matches(templates[k], cat, TEtapa1)
    requires forall j :: 0 <= j < k ==> !Matches(templates[j], cat, TEtapa1)
    ensures |InitialChecklist(id, cat, templates)| == |templates[k].items|
    ensures forall i :: 0 <= i < |templates[k].items| ==>
      var t := templates[k].items[i];
      InitialChecklist(id, cat, templates)[i] == NewItem(id, t.name, DefaultComment(t))
  {
    var m := FirstMatch(templates, cat, TEtapa1);
    assert m == Some(k);
    FromTemplateAt(id, templates[k].items);
  }

  /** Right after `create`, the checklist of the new design is exactly the
      items built from its template; when there are any, the gate cannot
      open, since they start unvalidated. */
  lemma {:induction false} NewChecklistIncomplete(vs: seq<ItemValue>, id: Id, cat: Option<CategoryId>, templates: seq<ChecklistTemplate>)
    requires forall k :: 0 <= k < |vs| ==> vs[k].designId != id
    ensures ChecklistOf(vs + InitialChecklist(id, cat, templates), id) == InitialChecklist(id, cat, templates)
    ensures InitialChecklist(id, cat, templates) != [] ==>
      !Complete(ChecklistOf(vs + InitialChecklist(id, cat, templates), id))
  {
    var init := InitialChecklist(id, cat, templates);
    ChecklistOfAppend(vs, init, id);
    ChecklistOfAbsent(vs, id);
    if cat.Some? {
      match FirstTemplate(templates, cat, TEtapa1)
      case None =>
      case Some(p) =>
        ChecklistOfFromTemplate(id, p.items, id);
        if init != [] {
          FromTemplateAt(id, p.items);
          assert !Validated(init[0], Disenador);
        }
    }
  }

  /** The gate is complete for design `id` exactly when every row of the
      table that points at `id` is validated by both roles; in particular a
      design without items passes it. */
  lemma {:induction false} CompleteIffAllRowsValidated(vs: seq<ItemValue>, id: Id)
    ensures Complete(ChecklistOf(vs, id)) <==>
      forall k :: 0 <= k < |vs| && vs[k].designId == id ==>
        vs[k].validadoPorDisenador && vs[k].validadoPorValidador
  {
    ChecklistOfMembers(vs, id);
    if Complete(ChecklistOf(vs, id)) {
      forall k | 0 <= k < |vs| && vs[k].designId == id
        ensures vs[k].validadoPorDisenador && vs[k].validadoPorValidador
      {
        assert vs[k] in ChecklistOf(vs, id);
        assert Validated(vs[k], Disenador) && Validated(vs[k], Validador);
      }
    } else {
      var role := if AllValidated(ChecklistOf(vs, id), Disenador) then Validador else Disenador;
      assert !AllValidated(ChecklistOf(vs, id), role);
      var v :| v in ChecklistOf(vs, id) && !Validated(v, role);
      var k :| 0 <= k < |vs| && vs[k] == v;
      assert vs[k].designId == id;
    }
  }

  /** The gate never hides a design: it opens it, moving it to 'cliente',
      exactly when the checklist is complete and the design was still
      hidden, and changes nothing else. */
  lemma GateOnlyOpens(f: DesignFields, complete: bool)
    ensures Gate(f, complete).visibleParaCliente == (f.visibleParaCliente || complete)
    ensures Gate(f, complete).state == if complete && !f.visibleParaCliente then Cliente else f.state
    ensures Gate(f, complete).(visibleParaCliente := f.visibleParaCliente, state := f.state) == f
  {
  }

  /** A second evaluation of the gate changes nothing. */
  lemma GateIdempotent(f: DesignFields, complete: bool)
    ensures Gate(Gate(f, complete), complete) == Gate(f, complete)
  {
  }

  /** Rejection resets the workflow whatever state the design was in, keeps
      its data (name, image, partner, task, category, approval date) and
      records the note and the date; rejecting twice keeps the later note. */
  lemma RejectionResets(f: DesignFields, obs: string, obs2: string, now: Timestamp, later: Timestamp)
    ensures Rejected(f, obs, now).state == Rechazado && Rejected(f, obs, now).etapa == Etapa1
    ensures Rejected(f, obs, now).rechazado
    ensures !Rejected(f, obs, now).visibleParaCliente && !Rejected(f, obs, now).aprobadoCliente
    ensures Rejected(f, obs, now).observacionesRechazo == Some(obs) && Rejected(f, obs, now).fechaRechazo == Some(now)
    ensures Rejected(f, obs, now).(rechazado := f.rechazado, observacionesRechazo := f.observacionesRechazo,
      fechaRechazo := f.fechaRechazo, visibleParaCliente := f.visibleParaCliente,
      aprobadoCliente := f.aprobadoCliente, etapa := f.etapa, state := f.state) == f
    ensures Rejected(Rejected(f, obs, now), obs2, later) == Rejected(f, obs2, later)
  {
  }

  /** Rejection does not touch the checklist, so a design whose checklist
      was complete when it was rejected is opened to the client again, in
      state 'cliente', by the next evaluation of the gate. */
  lemma RejectedCompleteDesignReopens(f: DesignFields, obs: string, now: Timestamp)
    ensures Gate(Rejected(f, obs, now), true).visibleParaCliente
    ensures Gate(Rejected(f, obs, now), true).state == Cliente
    ensures Gate(Rejected(f, obs, now), false) == Rejected(f, obs, now)
  {
  }

  /** Client approval marks the design approved in stage 2, records the
      date, and leaves the rejection fields and the visibility alone. */
  lemma ApprovalFields(f: DesignFields, now: Timestamp)
    ensures ApprovedByClient(f, now).aprobadoCliente && ApprovedByClient(f, now).etapa == Etapa2
    ensures ApprovedByClient(f, now).state == Aprobado
    ensures ApprovedByClient(f, now).fechaAprobacionCliente == Some(now)
    ensures ApprovedByClient(f, now).(aprobadoCliente := f.aprobadoCliente, etapa := f.etapa, state := f.state,
      fechaAprobacionCliente := f.fechaAprobacionCliente) == f
  {
  }

  /** The stage-2 step for design `id` appends at the end of the table, adds
      rows only to the checklist of `id`, and leaves every other design's
      checklist as it was. */
  lemma {:induction false} Stage2StepChecklists(vs: seq<ItemValue>, id: Id, cat: Option<CategoryId>, templates: seq<ChecklistTemplate>, other: Id)
    ensures vs <= Stage2Step(vs, id, cat, templates)
    ensures ChecklistOf(vs, id) <= ChecklistOf(Stage2Step(vs, id, cat, templates), id)
    ensures other != id ==> ChecklistOf(Stage2Step(vs, id, cat, templates), other) == ChecklistOf(vs, other)
  {
    if !HasEtapa2Item(ChecklistOf(vs, id)) {
      match FirstTemplate(templates, cat, TEtapa2)
      case None =>
      case Some(p) =>
        ChecklistOfAppend(vs, FromTemplate(id, p.items), id);
        ChecklistOfAppend(vs, FromTemplate(id, p.items), other);
        ChecklistOfFromTemplate(id, p.items, id);
        ChecklistOfFromTemplate(id, p.items, other);
    }
  }

  /** When the guard does not hold and the first stage-2 template of the
      category is `templates[k]`, the stage-2 step appends exactly that
      template's items, in order, to the table and to the design's
      checklist. */
  lemma {:induction false} Stage2StepFromFirstTemplate(vs: seq<ItemValue>, id: Id, cat: Option<CategoryId>, templates: seq<ChecklistTemplate>, k: nat)
    requires k < |templates| && Matches(templates[k], cat, TEtapa2)
    requires forall j :: 0 <= j < k ==> !Matches(templates[j], cat, TEtapa2)
    requires !HasEtapa2Item(ChecklistOf(vs, id))
    ensures Stage2Step(vs, id, cat, templates) == vs + FromTemplate(id, templates[k].items)
    ensures ChecklistOf(Stage2Step(vs, id, cat, templates), id) == ChecklistOf(vs, id) + FromTemplate(id, templates[k].items)
  {
    var m := FirstMatch(templates, cat, TEtapa2);
    assert m == Some(k);
    ChecklistOfAppend(vs, FromTemplate(id, templates[k].items), id);
    ChecklistOfFromTemplate(id, templates[k].items, id);
  }

  /** The stage-2 step's effect on a design's checklist depends only on
      that checklist. */
  lemma {:induction false} Stage2StepLocal(a: seq<ItemValue>, b: seq<ItemValue>, id: Id, cat: Option<CategoryId>, templates: seq<ChecklistTemplate>)
    requires ChecklistOf(a, id) == ChecklistOf(b, id)
    ensures ChecklistOf(Stage2Step(a, id, cat, templates), id) == ChecklistOf(Stage2Step(b, id, cat, templates), id)
  {
    if !HasEtapa2Item(ChecklistOf(a, id)) {
      match FirstTemplate(templates, cat, TEtapa2)
      case None =>
      case Some(p) =>
        ChecklistOfAppend(a, FromTemplate(id, p.items), id);
        ChecklistOfAppend(b, FromTemplate(id, p.items), id);
    }
  }

  /** On a recordset of distinct designs, a `write` of 'etapa2' leaves each
      design's checklist exactly as the stage-2 step on that design alone
      would: the other records of the recordset do not interfere. */
  lemma {:induction false} AddStage2OwnChecklist(vs: seq<ItemValue>, targets: seq<(Id, Option<CategoryId>)>, templates: seq<ChecklistTemplate>, k: nat)
    requires k < |targets|
    requires forall i, j :: 0 <= i < j < |targets| ==> targets[i].0 != targets[j].0
    ensures ChecklistOf(AddStage2(vs, targets, templates), targets[k].0)
         == ChecklistOf(Stage2Step(vs, targets[k].0, targets[k].1, templates), targets[k].0)
  {
    var n := |targets| - 1;
    var init := targets[..n];
    var t := targets[n];
    var before := AddStage2(vs, init, templates);
    if k == n {
      AddStage2OtherDesigns(vs, init, templates, t.0);
      Stage2StepLocal(before, vs, t.0, t.1, templates);
    } else {
      assert init[k] == targets[k];
      AddStage2OwnChecklist(vs, init, templates, k);
      Stage2StepChecklists(before, t.0, t.1, templates, targets[k].0);
    }
  }

  /** A `write` of 'etapa2' on a recordset leaves the checklist of every
      design outside the recordset as it was. */
  lemma {:induction false} AddStage2OtherDesigns(vs: seq<ItemValue>, targets: seq<(Id, Option<CategoryId>)>, templates: seq<ChecklistTemplate>, other: Id)
    requires forall k :: 0 <= k < |targets| ==> targets[k].0 != other
    ensures ChecklistOf(AddStage2(vs, targets, templates), other) == ChecklistOf(vs, other)
  {
    if targets != [] {
      var t := targets[|targets| - 1];
      AddStage2OtherDesigns(vs, targets[..|targets| - 1], templates, other);
      Stage2StepChecklists(AddStage2(vs, targets[..|targets| - 1], templates), t.0, t.1, templates, other);
    }
  }

  /** The items of a template are safe from duplication when the template
      is empty or one of its items mentions 'etapa2'. */
  predicate GuardedTemplate(items: seq<TemplateItem>) {
    items == [] || exists t :: t in items && MentionsEtapa2(t.name)
  }

  /** Does a checklist built from `items` contain an item mentioning
      'etapa2'? Exactly when one of the template items does. */
  lemma {:induction false} FromTemplateMentions(id: Id, items: seq<TemplateItem>)
    ensures HasEtapa2Item(FromTemplate(id, items)) <==> exists t :: t in items && MentionsEtapa2(t.name)
  {
    FromTemplateAt(id, items);
    if HasEtapa2Item(FromTemplate(id, items)) {
      var v :| v in FromTemplate(id, items) && MentionsEtapa2(v.name);
      var i :| 0 <= i < |items| && FromTemplate(id, items)[i] == v;
      assert items[i] in items;
    }
    if exists t :: t in items && MentionsEtapa2(t.name) {
      var t :| t in items && MentionsEtapa2(t.name);
      var i :| 0 <= i < |items| && items[i] == t;
      assert FromTemplate(id, items)[i] in FromTemplate(id, items);
    }
  }

  /** Writing 'etapa2' a second time adds nothing exactly when the guard
      already held, when the category has no stage-2 template, or when that
      template is empty or names an item 'etapa2'; with any other template
      every repeated write appends its items again. */
  lemma {:induction false} Stage2StepTwice(vs: seq<ItemValue>, id: Id, cat: Option<CategoryId>, templates: seq<ChecklistTemplate>)
    ensures Stage2Step(Stage2Step(vs, id, cat, templates), id, cat, templates) == Stage2Step(vs, id, cat, templates)
      <==> (|| HasEtapa2Item(ChecklistOf(vs, id))
            || FirstTemplate(templates, cat, TEtapa2).None?
            || GuardedTemplate(FirstTemplate(templates, cat, TEtapa2).value.items))
  {
    if !HasEtapa2Item(ChecklistOf(vs, id)) {
      match FirstTemplate(templates, cat, TEtapa2)
      case None =>
      case Some(p) =>
        var added := FromTemplate(id, p.items);
        var w := vs + added;
        ChecklistOfAppend(vs, added, id);
        ChecklistOfFromTemplate(id, p.items, id);
        assert ChecklistOf(w, id) == ChecklistOf(vs, id) + added;
        FromTemplateMentions(id, p.items);
        FromTemplateAt(id, p.items);
        if HasEtapa2Item(added) {
          var v :| v in added && MentionsEtapa2(v.name);
          assert v in ChecklistOf(w, id);
        } else if p.items != [] {
          assert !HasEtapa2Item(ChecklistOf(w, id));
          assert |Stage2Step(w, id, cat, templates)| == |w| + |added|;
        } else {
          assert w == vs;
        }
    }
  }

  /** The corrected upload's dictionary does what the wizard intends: a
      `write` of it yields `Resubmitted`. */
  lemma UploadValsResubmit(f: DesignFields, image: Binary)
    ensures ApplyVals(f, UploadVals(image)) == Resubmitted(f, image)
  {
  }

  /** Uploading a new version after a rejection puts the design back into
      validation in stage 1, no longer rejected, without a note, still
      hidden and unapproved, with the new image; its data and the rejection
      date are kept. */
  lemma ResubmitAfterRejection(f: DesignFields, obs: string, now: Timestamp, image: Binary)
    ensures var g := Resubmitted(Rejected(f, obs, now), image);
      && g.state == Validacion && g.etapa == Etapa1 && !g.rechazado
      && g.observacionesRechazo == None && g.image == image
      && !g.visibleParaCliente && !g.aprobadoCliente
      && g.fechaRechazo == Some(now)
      && g.name == f.name && g.cliente == f.cliente && g.task == f.task && g.categoria == f.categoria
  {
  }

  /** Each onchange handler keeps both flags, touches only its own role's
      user and date, and stamps them only when its flag is set; the two
      handlers commute. */
  lemma OnchangesIndependent(v: ItemValue, user: UserId, now: Timestamp)
    ensures DesignerOnchange(v, user, now).(fechaDisenador := v.fechaDisenador, usuarioDisenador := v.usuarioDisenador) == v
    ensures ValidatorOnchange(v, user, now).(fechaValidador := v.fechaValidador, usuarioValidador := v.usuarioValidador) == v
    ensures v.validadoPorDisenador ==>
      DesignerOnchange(v, user, now).usuarioDisenador == Some(user) && DesignerOnchange(v, user, now).fechaDisenador == Some(now)
    ensures !v.validadoPorDisenador ==> DesignerOnchange(v, user, now) == v
    ensures v.validadoPorValidador ==>
      ValidatorOnchange(v, user, now).usuarioValidador == Some(user) && ValidatorOnchange(v, user, now).fechaValidador == Some(now)
    ensures !v.validadoPorValidador ==> ValidatorOnchange(v, user, now) == v
    ensures DesignerOnchange(ValidatorOnchange(v, user, now), user, now) == ValidatorOnchange(DesignerOnchange(v, user, now), user, now)
  {
  }
}
