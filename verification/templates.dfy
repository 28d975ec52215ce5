/** Checklist templates: read-only reference data, one list of items per
    product category and stage, looked up when a design is created and when
    it enters stage 2. */
module Templates {
  import opened Common

  /** The stages a template can be declared for (a template has no
      'completo' stage). */
  datatype TemplateStage = TEtapa1 | TEtapa2

  datatype TemplateItem = TemplateItem(name: string, comentarioDefault: Option<string>)

  /** A template; its `items` are listed in id order, the order in which
      `item_ids` yields them (the `orden` field is never used to sort). */
  datatype ChecklistTemplate = ChecklistTemplate(
    name: string,
    categoria: CategoryId,
    etapa: TemplateStage,
    items: seq<TemplateItem>)

  /** The search domain `[('categoria_id', '=', cat), ('etapa', '=', etapa)]`;
      an empty category (`False`) matches no template, since every template
      has one. */
  predicate Matches(t: ChecklistTemplate, cat: Option<CategoryId>, etapa: TemplateStage) {
    cat == Some(t.categoria) && t.etapa == etapa
  }

  /** Position of the first template, in id order, that matches the domain. */
  function FirstMatch(ts: seq<ChecklistTemplate>, cat: Option<CategoryId>, etapa: TemplateStage): (r: Option<nat>)
    ensures r.None? <==> forall k :: 0 <= k < |ts| ==> !Matches(ts[k], cat, etapa)
    ensures r.Some? ==> r.value < |ts| && Matches(ts[r.value], cat, etapa)
    ensures r.Some? ==> forall k :: 0 <= k < r.value ==> !Matches(ts[k], cat, etapa)
  {
    if ts == [] then None
    else if Matches(ts[0], cat, etapa) then Some(0)
    else
      match FirstMatch(ts[1..], cat, etapa)
      case None => None
      case Some(k) => Some(k + 1)
  }

  /** `search(domain, limit=1)` over the templates, which are kept in id
      order: the first match, or the empty recordset. */
  function FirstTemplate(ts: seq<ChecklistTemplate>, cat: Option<CategoryId>, etapa: TemplateStage): (r: Option<ChecklistTemplate>)
    ensures r.Some? ==> exists k :: 0 <= k < |ts| && ts[k] == r.value && Matches(ts[k], cat, etapa)
                                   && forall j :: 0 <= j < k ==> !Matches(ts[j], cat, etapa)
    ensures r.None? <==> forall t :: t in ts ==> !Matches(t, cat, etapa)
  {
    match FirstMatch(ts, cat, etapa)
    case None => None
    case Some(k) => Some(ts[k])
  }

  /** `item.comentario_default or ''`. */
  function DefaultComment(t: TemplateItem): string {
    match t.comentarioDefault
    case Some(c) => c
    case None => ""
  }
}
