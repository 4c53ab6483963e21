// The include graph stays two-level: every edge runs from a template of kind
// "template" to one of kind "group" (internal/store/master.go, validInclude
// and validKindSwitch), in every reachable state.
module IncludeGraph {
  import opened Values
  import opened Vocabulary
  import opened Merging
  import opened Registry
  import opened Database
  import opened Stamping
  import opened Guards
  import opened Pipeline
  import opened System
  import opened Effects

  predicate EdgeOk(rows: Rows, k: Key) {
    && Cell(rows, k, TemplateId).Text? && HasKind(rows, Cell(rows, k, TemplateId).text, KIND_TEMPLATE)
    && Cell(rows, k, IncludedTemplateId).Text? && HasKind(rows, Cell(rows, k, IncludedTemplateId).text, KIND_GROUP)
  }

  ghost predicate TwoLevel(rows: Rows) {
    forall k {:trigger EdgeOk(rows, k)} | k in rows && k.table.TemplateIncludes? :: EdgeOk(rows, k)
  }

  /** What the registry must say about templates and their includes. */
  ghost predicate Composed(reg: Registry) {
    && reg.guard(Templates) == ValidKindSwitch && reg.guard(TemplateIncludes) == ValidInclude
    && !reg.retirable(TemplateIncludes)
    && {TemplateId, IncludedTemplateId} <= reg.columns(TemplateIncludes)
    && reg.link(TemplateIncludes, TemplateId) == Some(Link(Templates, Cascade, true))
    && reg.link(TemplateIncludes, IncludedTemplateId) == Some(Link(Templates, Cascade, true))
    && reg.link(Templates, Kind) == None && reg.defaults(TemplateIncludes) == map[]
    && reg.stamp(TemplateIncludes) == NoStamp && reg.stamp(Templates) == OnCreate(OwnerId)
  }

  /** An endpoint the write leaves behind was judged now, or was there before. */
  lemma EndpointKept(reg: Registry, a: Rows, b: Rows, m: Mutation, c: Column, kind: string)
    requires Composed(reg) && !m.op.Delete? && m.table.TemplateIncludes? && (c.TemplateId? || c.IncludedTemplateId?)
    requires SchemaOk(reg, b) && KeyOf(m) in b && b[KeyOf(m)] == RowAfter(reg, a, m)
    requires forall id: string :: Load(b, Key(Templates, id)) == Load(a, Key(Templates, id))
    requires HasKind(a, Incoming(a, m, c), kind)
    requires KeyOf(m) in a ==> Cell(a, KeyOf(m), c).Text? && HasKind(a, Cell(a, KeyOf(m), c).text, kind)
    ensures Cell(b, KeyOf(m), c).Text? && HasKind(b, Cell(b, KeyOf(m), c).text, kind)
  {
    hide SchemaOk, RowAfter, Wins;
    WrittenCell(reg, a, m, c);
    LinkNames(reg, b, KeyOf(m), c);
    assert Load(b, Key(Templates, Cell(b, KeyOf(m), c).text)) == Load(a, Key(Templates, Cell(b, KeyOf(m), c).text));
  }

  /** A kind that changed had no edge on the side that would break. */
  lemma KindSwitchFree(reg: Registry, a: Rows, b: Rows, m: Mutation, k: Key)
    requires Composed(reg) && TwoLevel(a) && SchemaOk(reg, a) && SchemaOk(reg, b)
    requires !m.op.Delete? && m.table.Templates? && KeyOf(m) in b && b[KeyOf(m)] == RowAfter(reg, a, m)
    requires JudgeKindSwitch(a, m).Pass?
    requires k in a && k.table.TemplateIncludes? && k in b && b[k] == a[k]
    requires forall id: string | id != m.id :: Load(b, Key(Templates, id)) == Load(a, Key(Templates, id))
    ensures EdgeOk(b, k)
  {
    var t := KeyOf(m);
    WrittenCell(reg, a, m, Kind);
    assert CheckOk(b, t);
    LinkNames(reg, a, k, TemplateId);
    LinkNames(reg, a, k, IncludedTemplateId);
    if t in a { assert CheckOk(a, t); }
    var parent, child := Key(Templates, Cell(a, k, TemplateId).text), Key(Templates, Cell(a, k, IncludedTemplateId).text);
    assert EdgeOk(a, k);
    if parent != t { assert Load(b, parent) == Load(a, parent); }
    if child != t { assert Load(b, child) == Load(a, child); }
  }

  /** An edge that was written passed the include rule. */
  lemma IncludeJudged(reg: Registry, a: Rows, p: Partition, w: Env, sent: Mutation, m: Mutation, source: Source)
    requires Composed(reg) && Sourced(reg, a, p, w, sent, m, source) && m.table.TemplateIncludes?
    ensures JudgeInclude(a, m).Pass?
  {
    if source.Gated? {
      var m1 := StampOwned(reg.stamp(sent.table), sent, KeyOf(sent) in a, p.actor, w);
      GateLets(reg, a, p, w, sent, m);
      assert Judge(reg, a, m1, p) == JudgeInclude(a, m1);
    }
  }

  /** A template that was written passed the kind rule. */
  lemma KindJudged(reg: Registry, a: Rows, p: Partition, w: Env, sent: Mutation, m: Mutation, source: Source)
    requires Composed(reg) && Sourced(reg, a, p, w, sent, m, source) && m.table.Templates?
    ensures JudgeKindSwitch(a, m).Pass?
  {
    if source.Gated? {
      var m1 := StampOwned(reg.stamp(sent.table), sent, KeyOf(sent) in a, p.actor, w);
      GateLets(reg, a, p, w, sent, m);
      assert Judge(reg, a, m1, p) == JudgeKindSwitch(a, m1);
    }
  }

  /** The edge a write leaves is as the rule asks, whichever endpoint the merge took. */
  lemma EdgeWritten(reg: Registry, a: Rows, b: Rows, m: Mutation)
    requires Composed(reg) && TwoLevel(a) && SchemaOk(reg, b) && JudgeInclude(a, m).Pass?
    requires !m.op.Delete? && m.table.TemplateIncludes?
    requires KeyOf(m) in b && b[KeyOf(m)] == RowAfter(reg, a, m)
    requires forall id: string :: Load(b, Key(Templates, id)) == Load(a, Key(Templates, id))
    ensures EdgeOk(b, KeyOf(m))
  {
    if KeyOf(m) in a { assert EdgeOk(a, KeyOf(m)); }
    EndpointKept(reg, a, b, m, TemplateId, KIND_TEMPLATE);
    EndpointKept(reg, a, b, m, IncludedTemplateId, KIND_GROUP);
  }

  /** A delete takes the edges of the template it removes. */
  lemma DeleteKeepsTwoLevel(reg: Registry, a: Rows, b: Rows, gone: Key)
    requires Composed(reg) && TwoLevel(a) && SchemaOk(reg, b) && b == Deleted(reg, a, gone)
    ensures TwoLevel(b)
  {
    forall k | k in b && k.table.TemplateIncludes? ensures EdgeOk(b, k) {
      DeletedCell(reg, a, gone, k, TemplateId);
      DeletedCell(reg, a, gone, k, IncludedTemplateId);
      LinkNames(reg, b, k, TemplateId);
      LinkNames(reg, b, k, IncludedTemplateId);
      assert EdgeOk(a, k);
      DeletedCell(reg, a, gone, Key(Templates, Cell(b, k, TemplateId).text), Kind);
      DeletedCell(reg, a, gone, Key(Templates, Cell(b, k, IncludedTemplateId).text), Kind);
    }
  }

  /** A two-level graph has no chain, so no cycle either: what is included includes nothing. */
  lemma NoChain(rows: Rows, e: Key, f: Key)
    requires TwoLevel(rows) && e in rows && f in rows && e.table.TemplateIncludes? && f.table.TemplateIncludes?
    ensures Cell(rows, e, IncludedTemplateId) != Cell(rows, f, TemplateId)
  {
    assert EdgeOk(rows, e) && EdgeOk(rows, f);
  }

  lemma EdgeKept(a: Rows, b: Rows, k: Key)
    requires EdgeOk(a, k) && k in a && k in b && b[k] == a[k]
    requires forall id: string :: Load(b, Key(Templates, id)) == Load(a, Key(Templates, id))
    ensures EdgeOk(b, k)
  {
    assert Load(b, Key(Templates, Cell(a, k, TemplateId).text)) == Load(a, Key(Templates, Cell(a, k, TemplateId).text));
    assert Load(b, Key(Templates, Cell(a, k, IncludedTemplateId).text)) == Load(a, Key(Templates, Cell(a, k, IncludedTemplateId).text));
  }

  /** A write keeps the graph two-level, even when the merge takes only one endpoint of the edge it judged. */
  lemma WriteKeepsTwoLevel(reg: Registry, a: Rows, b: Rows, p: Partition, w: Env, sent: Mutation, m: Mutation, source: Source)
    requires Composed(reg) && TwoLevel(a) && SchemaOk(reg, a) && SchemaOk(reg, b)
    requires !m.op.Delete? && Sourced(reg, a, p, w, sent, m, source) && b == Written(reg, a, p, w, m)
    ensures TwoLevel(b)
  {
    hide SchemaOk, RowAfter, Written, Sourced, EdgeOk, JudgeInclude, JudgeKindSwitch, Composed;
    forall id: string | !m.table.Templates? || id != m.id
      ensures Load(b, Key(Templates, id)) == Load(a, Key(Templates, id))
    {
      WrittenRows(reg, a, p, w, m, Key(Templates, id));
    }
    WrittenRows(reg, a, p, w, m, KeyOf(m));
    if m.table.TemplateIncludes? {
      IncludeJudged(reg, a, p, w, sent, m, source);
      EdgeWritten(reg, a, b, m);
    }
    if m.table.Templates? { KindJudged(reg, a, p, w, sent, m, source); }
    forall k | k in b && k.table.TemplateIncludes? && k != KeyOf(m) ensures EdgeOk(b, k) {
      WrittenRows(reg, a, p, w, m, k);
      assert EdgeOk(a, k);
      if m.table.Templates? { KindSwitchFree(reg, a, b, m, k); } else { EdgeKept(a, b, k); }
    }
  }

  /** No step breaks the two-level rule. */
  lemma StepKeepsTwoLevel(reg: Registry, a: Rows, b: Rows, s: Step)
    requires Composed(reg) && TwoLevel(a) && SchemaOk(reg, a) && SchemaOk(reg, b) && Acted(reg, a, b, s)
    ensures TwoLevel(b)
  {
    match s.act
    case Wrote(w, sent, m, source) => WriteKeepsTwoLevel(reg, a, b, s.p, w, sent, m, source);
    case Removed(_, _, m) => DeleteKeepsTwoLevel(reg, a, b, KeyOf(m));
    case _ =>
  }
}
