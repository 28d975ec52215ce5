/** The design record (`design.design`) and the store it lives in.

    A `Design` holds the workflow fields that its operations assign one after
    another; its checklist items and revision-log entries are records of
    their own, kept by the store `Env` and linked back by `design_id`.
    Every method is proved against a function on values: `row` is the
    stored state of a design, `Views(items)` that of the checklist table. */
module Designs {
  import opened Common
  import opened Templates
  import opened ChecklistItems
  import opened RevisionLog

  datatype Etapa = Etapa1 | Etapa2 | Completo

  datatype State = Borrador | Validacion | Cliente | Aprobado | Rechazado

  /** The stored columns of a design other than its id and its One2many
      relations. An unset Many2one, Char, Text or Datetime is `None`. */
  datatype DesignFields = DesignFields(
    name: Option<string>,
    image: Binary,
    cliente: Option<PartnerId>,
    task: Option<TaskId>,
    categoria: Option<CategoryId>,
    etapa: Etapa,
    visibleParaCliente: bool,
    aprobadoCliente: bool,
    rechazado: bool,
    observacionesRechazo: Option<string>,
    fechaAprobacionCliente: Option<Timestamp>,
    fechaRechazo: Option<Timestamp>,
    state: State)

  /** A values dictionary for `create` or `write`: a key is present when its
      component is `Some`. Keys that name no field of the design are listed in
      `undeclared`, in the dictionary's order. */
  datatype DesignVals = DesignVals(
    name: Option<string>,
    image: Option<Binary>,
    cliente: Option<PartnerId>,
    task: Option<TaskId>,
    categoria: Option<CategoryId>,
    etapa: Option<Etapa>,
    visibleParaCliente: Option<bool>,
    aprobadoCliente: Option<bool>,
    rechazado: Option<bool>,
    observacionesRechazo: Option<Option<string>>,
    fechaAprobacionCliente: Option<Option<Timestamp>>,
    fechaRechazo: Option<Option<Timestamp>>,
    state: Option<State>,
    undeclared: seq<string>)

  /** The empty dictionary. */
  const NoVals := DesignVals(None, None, None, None, None, None, None, None, None, None, None, None, None, [])

  /** The field defaults: stage 1, draft, and every flag false. */
  const Defaults := DesignFields(None, [], None, None, None, Etapa1, false, false, false, None, None, None, Borrador)

  /** The ORM's generic write of a values dictionary: each present key
      replaces its field, every other field keeps its value. */
  function ApplyVals(f: DesignFields, v: DesignVals): DesignFields {
    DesignFields(
      if v.name.Some? then v.name else f.name,
      v.image.GetOr(f.image),
      if v.cliente.Some? then v.cliente else f.cliente,
      if v.task.Some? then v.task else f.task,
      if v.categoria.Some? then v.categoria else f.categoria,
      v.etapa.GetOr(f.etapa),
      v.visibleParaCliente.GetOr(f.visibleParaCliente),
      v.aprobadoCliente.GetOr(f.aprobadoCliente),
      v.rechazado.GetOr(f.rechazado),
      v.observacionesRechazo.GetOr(f.observacionesRechazo),
      v.fechaAprobacionCliente.GetOr(f.fechaAprobacionCliente),
      v.fechaRechazo.GetOr(f.fechaRechazo),
      v.state.GetOr(f.state))
  }

  /** The fields of a record created from `v`: the field defaults,
      overridden by the defaults the request supplies (`default_<field>`
      context keys and user defaults, given as `ctx`) for the keys missing
      from `v`, overridden by the keys `v` holds. */
  function Created(ctx: DesignVals, v: DesignVals): DesignFields {
    ApplyVals(ApplyVals(Defaults, ctx), v)
  }

  /** `marcar_como_rechazado(obs)` on the fields. */
  function Rejected(f: DesignFields, obs: string, now: Timestamp): DesignFields {
    f.(rechazado := true, observacionesRechazo := Some(obs), fechaRechazo := Some(now),
       visibleParaCliente := false, aprobadoCliente := false, etapa := Etapa1, state := Rechazado)
  }

  /** `marcar_como_aprobado_por_cliente()` on the fields. */
  function ApprovedByClient(f: DesignFields, now: Timestamp): DesignFields {
    f.(aprobadoCliente := true, fechaAprobacionCliente := Some(now), etapa := Etapa2, state := Aprobado)
  }

  /** `_compute_estado_checklist` on the fields, given whether both roles
      have validated every item of the checklist. */
  function Gate(f: DesignFields, complete: bool): DesignFields {
    if complete && !f.visibleParaCliente then f.(visibleParaCliente := true, state := Cliente) else f
  }

  /** The first of the required columns (`name`, `cliente_id`, `task_id`,
      `categoria_id`, in declaration order) that a row leaves empty: the
      column whose NOT NULL constraint refuses the insert. */
  function MissingRequired(f: DesignFields): (r: Option<string>)
    ensures r.None? <==> f.name.Some? && f.cliente.Some? && f.task.Some? && f.categoria.Some?
    ensures r.Some? ==> r.value in ["name", "cliente_id", "task_id", "categoria_id"]
    ensures r == Some("name") <==> f.name.None?
  {
    if f.name.None? then Some("name")
    else if f.cliente.None? then Some("cliente_id")
    else if f.task.None? then Some("task_id")
    else if f.categoria.None? then Some("categoria_id")
    else None
  }

  /** The log entry `marcar_como_rechazado` adds. */
  function RejectionEntry(id: Id, user: UserId, obs: string): RevisionEntry {
    RevisionEntry(id, user, Some(obs), Rechazo)
  }

  /** The log entry `marcar_como_aprobado_por_cliente` adds. */
  function ApprovalEntry(id: Id, user: UserId): RevisionEntry {
    RevisionEntry(id, user, Some("Aprobado por cliente"), AprobacionCliente)
  }

  /** The checklist `create` builds for design `id`: the items of the first
      stage-1 template of its category, or nothing when it has no category or
      no such template exists. */
  function InitialChecklist(id: Id, cat: Option<CategoryId>, templates: seq<ChecklistTemplate>): seq<ItemValue> {
    if cat.None? then []
    else
      match FirstTemplate(templates, cat, TEtapa1)
      case None => []
      case Some(p) => FromTemplate(id, p.items)
  }

  /** One turn of the loop in `write` for a record with id `id` and category
      `cat`, when `etapa` is written as 'etapa2': unless its checklist already
      has an item mentioning 'etapa2', append the items of the first stage-2
      template of its category. */
  function Stage2Step(vs: seq<ItemValue>, id: Id, cat: Option<CategoryId>, templates: seq<ChecklistTemplate>): seq<ItemValue> {
    if HasEtapa2Item(ChecklistOf(vs, id)) then vs
    else
      match FirstTemplate(templates, cat, TEtapa2)
      case None => vs
      case Some(p) => vs + FromTemplate(id, p.items)
  }

  /** The whole loop of `write` over the records `targets` (id, category). */
  function AddStage2(vs: seq<ItemValue>, targets: seq<(Id, Option<CategoryId>)>, templates: seq<ChecklistTemplate>): seq<ItemValue> {
    if targets == [] then vs
    else
      var t := targets[|targets| - 1];
      Stage2Step(AddStage2(vs, targets[..|targets| - 1], templates), t.0, t.1, templates)
  }

  /** The (id, category) of each record of a recordset. */
  function Targets(recs: seq<Design>): seq<(Id, Option<CategoryId>)>
    reads recs
  {
    seq(|recs|, k requires 0 <= k < |recs| reads recs => (recs[k].id, recs[k].row.categoria))
  }

  /** A record of `design.design`. Its id never changes; `row` is its stored
      row, whose columns the operations assign one after another. */
  class Design {
    const id: Id
    var row: DesignFields

    constructor (id: Id, f: DesignFields)
      ensures this.id == id && row == f
    {
      this.id := id;
      row := f;
    }

    /** The ORM's generic write of `v` on this record (the `super().write`
        that `Design.write` starts with). */
    method Assign(v: DesignVals)
      modifies this
      ensures row == ApplyVals(old(row), v)
    {
      row := ApplyVals(row, v);
    }

    /** `marcar_como_rechazado(observacion)`. Each assignment goes through
        `Design.write` with a one-key dictionary; only the 'etapa' key can
        add checklist items, and 'etapa1' adds none. */
    method MarcarComoRechazado(env: Env, templates: seq<ChecklistTemplate>, observacion: string, user: UserId, now: Timestamp)
      requires env.Valid() && env.Holds(this)
      modifies this, env
      ensures env.Valid()
      ensures row == Rejected(old(row), observacion, now)
      ensures env.logs == old(env.logs) + [RejectionEntry(id, user, observacion)]
      ensures env.designs == old(env.designs) && env.items == old(env.items)
      ensures env.lastDesignId == old(env.lastDesignId)
    {
      row := row.(rechazado := true);
      row := row.(observacionesRechazo := Some(observacion));
      row := row.(fechaRechazo := Some(now));
      row := row.(visibleParaCliente := false);
      row := row.(aprobadoCliente := false);
      env.SetEtapa(this, Etapa1, templates);
      row := row.(state := Rechazado);
      env.CreateLog(RejectionEntry(id, user, observacion));
    }

    /** `marcar_como_aprobado_por_cliente()`. The assignment `self.etapa =
        'etapa2'` is a `write({'etapa': 'etapa2'})` on this record, which
        appends the stage-2 template's items to the checklist. */
    method MarcarComoAprobadoPorCliente(env: Env, templates: seq<ChecklistTemplate>, user: UserId, now: Timestamp)
      requires env.Valid() && env.Holds(this)
      modifies this, env
      ensures env.Valid()
      ensures row == ApprovedByClient(old(row), now)
      ensures Views(env.items) == Stage2Step(old(Views(env.items)), id, row.categoria, templates)
      ensures old(env.items) <= env.items
      ensures forall k :: |old(env.items)| <= k < |env.items| ==> fresh(env.items[k])
      ensures env.logs == old(env.logs) + [ApprovalEntry(id, user)]
      ensures env.designs == old(env.designs) && env.lastDesignId == old(env.lastDesignId)
    {
      row := row.(aprobadoCliente := true);
      row := row.(fechaAprobacionCliente := Some(now));
      env.SetEtapa(this, Etapa2, templates);
      row := row.(state := Aprobado);
      env.CreateLog(ApprovalEntry(id, user));
    }
  }

  /** The database: the design table keyed by id, the checklist-item and
      revision-log tables in id (creation) order, and the last design id
      handed out. */
  class Env {
    var designs: map<Id, Design>
    var items: seq<ChecklistItem>
    var logs: seq<RevisionEntry>
    var lastDesignId: nat

    /** Every design is filed under its own id, ids are handed out in
        increasing order, and every item and log entry points at a design
        that exists. */
    ghost predicate Valid()
      reads this
    {
      && (forall id :: id in designs ==> designs[id].id == id && id <= lastDesignId)
      && (forall k :: 0 <= k < |items| ==> items[k].designId in designs)
      && (forall k :: 0 <= k < |logs| ==> logs[k].designId in designs)
    }

    /** `d` is a record of this database. */
    predicate Holds(d: Design)
      reads this
    {
      d.id in designs && designs[d.id] == d
    }

    constructor ()
      ensures Valid() && designs == map[] && items == [] && logs == [] && lastDesignId == 0
    {
      designs, items, logs, lastDesignId := map[], [], [], 0;
    }

    /** `env['design.revision_log'].create(...)`. */
    method CreateLog(e: RevisionEntry)
      requires Valid() && e.designId in designs
      modifies this
      ensures Valid()
      ensures logs == old(logs) + [e]
      ensures designs == old(designs) && items == old(items) && lastDesignId == old(lastDesignId)
      ensures Views(items) == old(Views(items))
    {
      logs := logs + [e];
    }

    /** `env['design.checklist_item'].create({'name': ..., 'design_id': id,
        'comentario': ...})`. */
    method CreateItem(id: Id, name: string, comentario: string)
      requires Valid() && id in designs
      modifies this
      ensures Valid()
      ensures |items| == |old(items)| + 1 && items[..|old(items)|] == old(items)
      ensures fresh(items[|old(items)|]) && items[|old(items)|].Value() == NewItem(id, name, comentario)
      ensures designs == old(designs) && logs == old(logs) && lastDesignId == old(lastDesignId)
    {
      var item := new ChecklistItem(id, name, comentario);
      items := items + [item];
    }

    /** One item per template item, in the template's order (the inner loop
        of `create` and `write`). */
    method CreateItemsFromTemplate(id: Id, ts: seq<TemplateItem>)
      requires Valid() && id in designs
      modifies this
      ensures Valid()
      ensures Views(items) == old(Views(items)) + FromTemplate(id, ts)
      ensures old(items) <= items
      ensures forall k :: |old(items)| <= k < |items| ==> fresh(items[k])
      ensures designs == old(designs) && logs == old(logs) && lastDesignId == old(lastDesignId)
    {
      var k := 0;
      while k < |ts|
        invariant 0 <= k <= |ts|
        invariant Valid()
        invariant Views(items) == old(Views(items)) + FromTemplate(id, ts[..k])
        invariant old(items) <= items
        invariant forall j :: |old(items)| <= j < |items| ==> fresh(items[j])
        invariant designs == old(designs) && logs == old(logs) && lastDesignId == old(lastDesignId)
      {
        ghost var pre := Views(items);
        CreateItem(id, ts[k].name, DefaultComment(ts[k]));
        assert Views(items) == pre + [NewItem(id, ts[k].name, DefaultComment(ts[k]))];
        assert ts[..k + 1][..k] == ts[..k];
        k := k + 1;
      }
      assert ts[..k] == ts;
    }

    /** `all(item.<flag of role> for item in record.checklist_ids)` for the
        design `id`; stops at the first item the role has not validated. */
    method AllValidatedBy(id: Id, role: Role) returns (b: bool)
      ensures b == AllValidated(ChecklistOf(Views(items), id), role)
    {
      b := true;
      var k := 0;
      while k < |items| && b
        invariant 0 <= k <= |items|
        invariant b <==> forall j :: 0 <= j < k && items[j].designId == id ==> Validated(items[j].Value(), role)
      {
        if items[k].designId == id {
          b := Validated(items[k].Value(), role);
        }
        k := k + 1;
      }
      var vs := Views(items);
      ChecklistOfMembers(vs, id);
      if b {
        forall v | v in ChecklistOf(vs, id) ensures Validated(v, role) {
          var j :| 0 <= j < |vs| && vs[j] == v;
        }
      } else {
        var j :| 0 <= j < k && items[j].designId == id && !Validated(items[j].Value(), role);
        assert vs[j] in ChecklistOf(vs, id);
      }
    }

    /** The duplicate guard of `write`: does the checklist of design `id`
        already hold an item whose lower-cased name contains 'etapa2'? Stops
        at the first such item. */
    method HasEtapa2ItemFor(id: Id) returns (b: bool)
      ensures b == HasEtapa2Item(ChecklistOf(Views(items), id))
    {
      b := false;
      var k := 0;
      while k < |items| && !b
        invariant 0 <= k <= |items|
        invariant b <==> exists j :: 0 <= j < k && items[j].designId == id && PyStr.MentionsEtapa2(items[j].name)
      {
        if items[k].designId == id && PyStr.MentionsEtapa2(items[k].name) {
          b := true;
        }
        k := k + 1;
      }
      var vs := Views(items);
      ChecklistOfMembers(vs, id);
      if b {
        var j :| 0 <= j < k && items[j].designId == id && PyStr.MentionsEtapa2(items[j].name);
        assert vs[j] in ChecklistOf(vs, id);
      } else {
        forall v | v in ChecklistOf(vs, id) ensures !PyStr.MentionsEtapa2(v.name) {
          var j :| 0 <= j < |vs| && vs[j] == v;
        }
      }
    }

    /** `Design.create(vals)`: insert the record, then, when `vals` itself
        names a category, create one checklist item per item of the first
        stage-1 template of that category. A category that comes from the
        request's defaults `ctx` is stored but builds no checklist. The
        insert fails on an undeclared key, and then on a required column
        that neither `vals` nor `ctx` fills. */
    method Create(vals: DesignVals, ctx: DesignVals, templates: seq<ChecklistTemplate>) returns (r: Result<Design, OdooError>)
      requires Valid()
      modifies this
      ensures Valid()
      ensures logs == old(logs)
      ensures vals.undeclared != [] ==>
        && r == Failure(InvalidField(vals.undeclared[0], "design.design"))
        && designs == old(designs) && items == old(items) && lastDesignId == old(lastDesignId)
      ensures vals.undeclared == [] && MissingRequired(Created(ctx, vals)).Some? ==>
        && r == Failure(RequiredFieldMissing(MissingRequired(Created(ctx, vals)).value, "design.design"))
        && designs == old(designs) && items == old(items) && lastDesignId == old(lastDesignId)
      ensures vals.undeclared == [] && MissingRequired(Created(ctx, vals)).None? ==>
        && r.Success? && fresh(r.value)
        && r.value.id == old(lastDesignId) + 1 == lastDesignId
        && r.value.row == Created(ctx, vals)
        && designs == old(designs)[r.value.id := r.value]
        && Views(items) == old(Views(items)) + InitialChecklist(r.value.id, vals.categoria, templates)
        && old(items) <= items
        && forall k :: |old(items)| <= k < |items| ==> fresh(items[k])
    {
      if vals.undeclared != [] {
        return Failure(InvalidField(vals.undeclared[0], "design.design"));
      }
      var missing := MissingRequired(Created(ctx, vals));
      if missing.Some? {
        return Failure(RequiredFieldMissing(missing.value, "design.design"));
      }
      var record := new Design(lastDesignId + 1, Created(ctx, vals));
      lastDesignId := lastDesignId + 1;
      designs := designs[record.id := record];
      r := Success(record);
      if vals.categoria.None? {
        return;
      }
      var plantilla := FirstTemplate(templates, vals.categoria, TEtapa1);
      if plantilla.Some? {
        CreateItemsFromTemplate(record.id, plantilla.value.items);
      }
    }

    /** The ORM's generic write of `vals` on each record of `recs`. */
    method AssignAll(recs: seq<Design>, vals: DesignVals)
      requires forall i, j :: 0 <= i < j < |recs| ==> recs[i].id != recs[j].id
      modifies recs
      ensures forall k :: 0 <= k < |recs| ==> recs[k].row == ApplyVals(old(recs[k].row), vals)
    {
      var k := 0;
      while k < |recs|
        invariant 0 <= k <= |recs|
        invariant forall j :: 0 <= j < k ==> recs[j].row == ApplyVals(old(recs[j].row), vals)
        invariant forall j :: k <= j < |recs| ==> recs[j].row == old(recs[j].row)
      {
        recs[k].Assign(vals);
        k := k + 1;
      }
    }

    /** One turn of the loop in `write` when `etapa` is written as 'etapa2',
        for the record with id `id` and category `cat`. */
    method Stage2For(id: Id, cat: Option<CategoryId>, templates: seq<ChecklistTemplate>)
      requires Valid() && id in designs
      modifies this
      ensures Valid()
      ensures Views(items) == Stage2Step(old(Views(items)), id, cat, templates)
      ensures old(items) <= items
      ensures forall k :: |old(items)| <= k < |items| ==> fresh(items[k])
      ensures designs == old(designs) && logs == old(logs) && lastDesignId == old(lastDesignId)
    {
      var hasEtapa2 := HasEtapa2ItemFor(id);
      if !hasEtapa2 {
        var plantilla := FirstTemplate(templates, cat, TEtapa2);
        if plantilla.Some? {
          CreateItemsFromTemplate(id, plantilla.value.items);
        }
      }
    }

    /** `record.etapa = e`: the ORM turns the assignment into
        `record.write({'etapa': e})`, so setting 'etapa2' runs the stage-2
        step of `Design.write` for this one record. */
    method SetEtapa(record: Design, e: Etapa, templates: seq<ChecklistTemplate>)
      requires Valid() && Holds(record)
      modifies this, record
      ensures Valid()
      ensures record.row == old(record.row).(etapa := e)
      ensures Views(items) == (if e == Etapa2 then Stage2Step(old(Views(items)), record.id, record.row.categoria, templates)
                               else old(Views(items)))
      ensures old(items) <= items
      ensures forall k :: |old(items)| <= k < |items| ==> fresh(items[k])
      ensures designs == old(designs) && logs == old(logs) && lastDesignId == old(lastDesignId)
    {
      ghost var before := record.row;
      var _ := Write([record], NoVals.(etapa := Some(e)), templates);
      assert [record][0] == record;
      assert record.row == ApplyVals(before, NoVals.(etapa := Some(e)));
      assert Targets([record]) == [(record.id, record.row.categoria)];
      assert [(record.id, record.row.categoria)][..0] == [];
    }

    /** The loop of `write` over the (id, category) of each record, when
        `etapa` is written as 'etapa2'. */
    method AddStage2Items(targets: seq<(Id, Option<CategoryId>)>, templates: seq<ChecklistTemplate>)
      requires Valid()
      requires forall k :: 0 <= k < |targets| ==> targets[k].0 in designs
      modifies this
      ensures Valid()
      ensures Views(items) == AddStage2(old(Views(items)), targets, templates)
      ensures old(items) <= items
      ensures forall k :: |old(items)| <= k < |items| ==> fresh(items[k])
      ensures designs == old(designs) && logs == old(logs) && lastDesignId == old(lastDesignId)
    {
      var k := 0;
      while k < |targets|
        invariant 0 <= k <= |targets|
        invariant Valid()
        invariant Views(items) == AddStage2(old(Views(items)), targets[..k], templates)
        invariant old(items) <= items
        invariant forall j :: |old(items)| <= j < |items| ==> fresh(items[j])
        invariant designs == old(designs) && logs == old(logs) && lastDesignId == old(lastDesignId)
      {
        assert targets[..k + 1][..k] == targets[..k];
        Stage2For(targets[k].0, targets[k].1, templates);
        k := k + 1;
      }
      assert targets[..k] == targets;
    }

    /** `Design.write(vals)` on the recordset `recs`: the ORM's write (which
        returns at once on an empty recordset, and otherwise refuses
        undeclared keys before touching anything), then, for each record in
        turn, the stage-2 checklist step when `vals` sets `etapa` to
        'etapa2'. */
    method Write(recs: seq<Design>, vals: DesignVals, templates: seq<ChecklistTemplate>) returns (r: Result<bool, OdooError>)
      requires Valid()
      requires forall k :: 0 <= k < |recs| ==> Holds(recs[k])
      requires forall i, j :: 0 <= i < j < |recs| ==> recs[i].id != recs[j].id
      modifies this, recs
      ensures Valid()
      ensures designs == old(designs) && logs == old(logs) && lastDesignId == old(lastDesignId)
      ensures vals.undeclared != [] && recs != [] ==>
        && r == Failure(InvalidField(vals.undeclared[0], "design.design"))
        && items == old(items)
        && forall k :: 0 <= k < |recs| ==> recs[k].row == old(recs[k].row)
      ensures recs == [] ==> r == Success(true) && items == old(items)
      ensures vals.undeclared == [] ==>
        && r == Success(true)
        && (forall k :: 0 <= k < |recs| ==> recs[k].row == ApplyVals(old(recs[k].row), vals))
        && Views(items) == (if vals.etapa == Some(Etapa2) then AddStage2(old(Views(items)), Targets(recs), templates)
                            else old(Views(items)))
        && old(items) <= items
        && forall k :: |old(items)| <= k < |items| ==> fresh(items[k])
    {
      if recs == [] {
        return Success(true);
      }
      if vals.undeclared != [] {
        return Failure(InvalidField(vals.undeclared[0], "design.design"));
      }
      AssignAll(recs, vals);
      assert Views(items) == old(Views(items));
      if vals.etapa == Some(Etapa2) {
        var targets := Targets(recs);
        AddStage2Items(targets, templates);
        assert Targets(recs) == targets;
      }
      r := Success(true);
    }

    /** `_compute_estado_checklist` for one record. */
    method GateRecord(record: Design)
      modifies record
      ensures record.row == Gate(old(record.row), Complete(ChecklistOf(Views(items), record.id)))
    {
      var completoDisenador := AllValidatedBy(record.id, Disenador);
      var completoValidador := AllValidatedBy(record.id, Validador);
      if completoDisenador && completoValidador && !record.row.visibleParaCliente {
        record.row := record.row.(visibleParaCliente := true);
        record.row := record.row.(state := Cliente);
      }
    }

    /** `_compute_estado_checklist` on the recordset `recs`: a design whose
        checklist both roles have fully validated, and that is not yet
        visible to the client, becomes visible and moves to 'cliente'. The
        assignments go through `write` without an 'etapa' key, so no item is
        added. */
    method ComputeEstadoChecklist(recs: seq<Design>)
      requires Valid()
      requires forall k :: 0 <= k < |recs| ==> Holds(recs[k])
      requires forall i, j :: 0 <= i < j < |recs| ==> recs[i].id != recs[j].id
      modifies recs
      ensures forall k :: 0 <= k < |recs| ==>
        recs[k].row == Gate(old(recs[k].row), Complete(ChecklistOf(Views(items), recs[k].id)))
    {
      var k := 0;
      while k < |recs|
        invariant 0 <= k <= |recs|
        invariant forall j :: 0 <= j < k ==>
          recs[j].row == Gate(old(recs[j].row), Complete(ChecklistOf(Views(items), recs[j].id)))
        invariant forall j :: k <= j < |recs| ==> recs[j].row == old(recs[j].row)
      {
        GateRecord(recs[k]);
        k := k + 1;
      }
    }

    /** `unlink()` of the designs whose ids are in `ids`, with the database's
        `ondelete='cascade'` on `design_id` removing their checklist items and
        log entries. */
    method Unlink(ids: set<Id>)
      requires Valid()
      modifies this
      ensures Valid()
      ensures designs == old(designs) - ids
      ensures items == Filter(old(items), (i: ChecklistItem) => i.designId !in ids)
      ensures logs == Filter(old(logs), (e: RevisionEntry) => e.designId !in ids)
      ensures lastDesignId == old(lastDesignId)
    {
      designs := designs - ids;
      items := Filter(items, (i: ChecklistItem) => i.designId !in ids);
      logs := Filter(logs, (e: RevisionEntry) => e.designId !in ids);
    }
  }
}
