/** Checklist items (`design.checklist_item`): one verifiable requirement of
    a design, validated independently by the designer and by the validator.
    The form's onchange handlers stamp who validated it and when. */
module ChecklistItems {
  import opened Common
  import opened PyStr
  import opened Templates

  /** The stored state of one checklist item. */
  datatype ItemValue = ItemValue(
    designId: Id,
    name: string,
    validadoPorDisenador: bool,
    fechaDisenador: Option<Timestamp>,
    usuarioDisenador: Option<UserId>,
    validadoPorValidador: bool,
    fechaValidador: Option<Timestamp>,
    usuarioValidador: Option<UserId>,
    comentario: string)

  /** A freshly created item: both validation flags are plain Boolean fields
      without a default, so they start false, with no user and no date. */
  function NewItem(designId: Id, name: string, comentario: string): ItemValue {
    ItemValue(designId, name, false, None, None, false, None, None, comentario)
  }

  datatype Role = Disenador | Validador

  predicate Validated(v: ItemValue, role: Role) {
    match role
    case Disenador => v.validadoPorDisenador
    case Validador => v.validadoPorValidador
  }

  /** `_onchange_validado_disenador`: when the designer flag is set, stamp
      the acting user and the current time; otherwise leave the item alone. */
  function DesignerOnchange(v: ItemValue, user: UserId, now: Timestamp): ItemValue {
    if v.validadoPorDisenador then v.(fechaDisenador := Some(now), usuarioDisenador := Some(user)) else v
  }

  /** `_onchange_validado_validador`, the same for the validator's fields. */
  function ValidatorOnchange(v: ItemValue, user: UserId, now: Timestamp): ItemValue {
    if v.validadoPorValidador then v.(fechaValidador := Some(now), usuarioValidador := Some(user)) else v
  }

  class ChecklistItem {
    const designId: Id
    var name: string
    var validadoPorDisenador: bool
    var fechaDisenador: Option<Timestamp>
    var usuarioDisenador: Option<UserId>
    var validadoPorValidador: bool
    var fechaValidador: Option<Timestamp>
    var usuarioValidador: Option<UserId>
    var comentario: string

    function Value(): ItemValue
      reads this
    {
      ItemValue(designId, name, validadoPorDisenador, fechaDisenador, usuarioDisenador,
                validadoPorValidador, fechaValidador, usuarioValidador, comentario)
    }

    /** `env['design.checklist_item'].create({'name': ..., 'design_id': ...,
        'comentario': ...})`. */
    constructor (designId: Id, name: string, comentario: string)
      ensures Value() == NewItem(designId, name, comentario)
    {
      this.designId := designId;
      this.name := name;
      this.comentario := comentario;
      validadoPorDisenador, fechaDisenador, usuarioDisenador := false, None, None;
      validadoPorValidador, fechaValidador, usuarioValidador := false, None, None;
    }

    method OnchangeValidadoDisenador(user: UserId, now: Timestamp)
      modifies this
      ensures Value() == DesignerOnchange(old(Value()), user, now)
    {
      if validadoPorDisenador {
        fechaDisenador := Some(now);
        usuarioDisenador := Some(user);
      }
    }

    method OnchangeValidadoValidador(user: UserId, now: Timestamp)
      modifies this
      ensures Value() == ValidatorOnchange(old(Value()), user, now)
    {
      if validadoPorValidador {
        fechaValidador := Some(now);
        usuarioValidador := Some(user);
      }
    }

    /** The form flow: the designer ticks or unticks the box, then the
        onchange handler runs. */
    method SetValidadoPorDisenador(flag: bool, user: UserId, now: Timestamp)
      modifies this
      ensures Value() == DesignerOnchange(old(Value()).(validadoPorDisenador := flag), user, now)
    {
      validadoPorDisenador := flag;
      OnchangeValidadoDisenador(user, now);
    }

    /** The form flow for the validator's box. */
    method SetValidadoPorValidador(flag: bool, user: UserId, now: Timestamp)
      modifies this
      ensures Value() == ValidatorOnchange(old(Value()).(validadoPorValidador := flag), user, now)
    {
      validadoPorValidador := flag;
      OnchangeValidadoValidador(user, now);
    }
  }

  /** The stored states of a sequence of item records, position by
      position. */
  function Views(s: seq<ChecklistItem>): seq<ItemValue>
    reads s
  {
    seq(|s|, k requires 0 <= k < |s| reads s => s[k].Value())
  }

  /** `record.checklist_ids`: the items whose `design_id` is `id`, in id
      (creation) order. */
  function ChecklistOf(vs: seq<ItemValue>, id: Id): seq<ItemValue> {
    if vs == [] then []
    else
      var last := vs[|vs| - 1];
      ChecklistOf(vs[..|vs| - 1], id) + (if last.designId == id then [last] else [])
  }

  /** The checklist of design `id` holds exactly the items of the table that
      point at `id`. */
  lemma {:induction false} ChecklistOfMembers(vs: seq<ItemValue>, id: Id)
    ensures forall v :: v in ChecklistOf(vs, id) <==> v in vs && v.designId == id
  {
    if vs != [] {
      ChecklistOfMembers(vs[..|vs| - 1], id);
      assert vs == vs[..|vs| - 1] + [vs[|vs| - 1]];
    }
  }

  /** The checklist of a table extended at the end is the old checklist
      followed by the checklist of the new rows. */
  lemma {:induction false} ChecklistOfAppend(vs: seq<ItemValue>, ws: seq<ItemValue>, id: Id)
    ensures ChecklistOf(vs + ws, id) == ChecklistOf(vs, id) + ChecklistOf(ws, id)
  {
    if ws == [] {
      assert vs + ws == vs;
    } else {
      var init := ws[..|ws| - 1];
      assert (vs + ws)[..|vs + ws| - 1] == vs + init;
      assert (vs + ws)[|vs + ws| - 1] == ws[|ws| - 1];
      ChecklistOfAppend(vs, init, id);
    }
  }

  /** A design no row points at has an empty checklist. */
  lemma {:induction false} ChecklistOfAbsent(vs: seq<ItemValue>, id: Id)
    requires forall k :: 0 <= k < |vs| ==> vs[k].designId != id
    ensures ChecklistOf(vs, id) == []
  {
    if vs != [] {
      ChecklistOfAbsent(vs[..|vs| - 1], id);
    }
  }


  predicate AllValidated(vs: seq<ItemValue>, role: Role) {
    forall v :: v in vs ==> Validated(v, role)
  }

  /** Both roles have validated every item. */
  predicate Complete(vs: seq<ItemValue>) {
    AllValidated(vs, Disenador) && AllValidated(vs, Validador)
  }

  /** `any(item for item in checklist if item.name and 'etapa2' in
      item.name.lower())`. */
  predicate HasEtapa2Item(vs: seq<ItemValue>) {
    exists v :: v in vs && MentionsEtapa2(v.name)
  }

  /** The items created from a template's items for design `id`: one per
      template item, in the template's order, copying its name and its
      default comment (or ''). */
  function FromTemplate(id: Id, ts: seq<TemplateItem>): seq<ItemValue> {
    if ts == [] then []
    else FromTemplate(id, ts[..|ts| - 1]) + [NewItem(id, ts[|ts| - 1].name, DefaultComment(ts[|ts| - 1]))]
  }

  /** Exactly one new item per template item, in the template's order, with
      the template item's name and its default comment (or ''), unvalidated. */
  lemma {:induction false} FromTemplateAt(id: Id, ts: seq<TemplateItem>)
    ensures |FromTemplate(id, ts)| == |ts|
    ensures forall k :: 0 <= k < |ts| ==> FromTemplate(id, ts)[k] == NewItem(id, ts[k].name, DefaultComment(ts[k]))
  {
    if ts != [] {
      FromTemplateAt(id, ts[..|ts| - 1]);
    }
  }

  /** The items created from a template for design `id` all belong to the
      checklist of `id` and to no other. */
  lemma {:induction false} ChecklistOfFromTemplate(id: Id, ts: seq<TemplateItem>, other: Id)
    ensures ChecklistOf(FromTemplate(id, ts), other) == if other == id then FromTemplate(id, ts) else []
  {
    if ts != [] {
      var init := ts[..|ts| - 1];
      ChecklistOfFromTemplate(id, init, other);
      FromTemplateAt(id, ts);
      assert FromTemplate(id, ts)[..|ts| - 1] == FromTemplate(id, init);
    }
  }
}
