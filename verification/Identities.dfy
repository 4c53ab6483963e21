// Who a row says did a thing: always the actor of the push that said so, never
// a name the client sent (internal/store/stamp.go).
module Identities {
  import opened Values
  import opened Vocabulary
  import opened Merging
  import opened Registry
  import opened Database
  import opened Stamping
  import opened Guards
  import opened Pipeline
  import opened Restoring
  import opened System
  import opened Effects

  /** The columns a rule owns that name somebody. */
  function Identity(rule: StampRule): set<Column> {
    match rule
    case NoStamp => {}
    case OnInsert(c) => {c}
    case OnCreate(c) => {c}
    case OfComment => {AuthorId, ResolvedBy}
    case OfPurchase => {BoughtBy}
    case OfTripItem => {BoughtBy, PackedBy, PackingNowBy}
  }

  /** When a thing was done that a column says who did; the authors and creators of a row have no moment. */
  function MomentOf(c: Column): Option<Column> {
    match c
    case ResolvedBy => Some(ResolvedAt)
    case BoughtBy => Some(BoughtAt)
    case PackedBy => Some(PackedAt)
    case PackingNowBy => Some(PackingNowAt)
    case _ => None
  }

  /** What a mutation says of a thing: nothing, that it is done, or that it is not. */
  datatype Word = Unsaid | Done | Undone

  /** A state is said by text alone. */
  function SaidBy(state: Value, done: string): Word {
    if !state.Text? then Unsaid else if state.text == done then Done else Undone
  }

  /** What an insert, a creation or the state that comes with it says of a column. */
  function Said(rule: StampRule, m: Mutation, existed: bool, c: Column): Word {
    match rule
    case NoStamp => Unsaid
    case OnInsert(_) => if m.op.Insert? then Done else Unsaid
    case OnCreate(_) => if existed || m.op.Delete? then Unsaid else Done
    case OfComment =>
      if c.AuthorId? then (if m.op.Insert? then Done else Unsaid) else SaidBy(Get(m.fields, TaskState), TASK_RESOLVED)
    case OfPurchase => if Bought !in m.fields then Unsaid else if Truthy(m.fields[Bought]) then Done else Undone
    case OfTripItem =>
      if c.BoughtBy? then (if BoughtFrom !in m.fields then Unsaid else if m.fields[BoughtFrom] == Null then Undone else Done)
      else SaidBy(Get(m.fields, State), if c.PackedBy? then PACKED else PACKING_NOW)
  }

  // -------------------------------------------------------------------- the stamp

  /** A name is the actor's where the mutation says the thing is done, NULL where it says it is not, and not written
      where it says nothing. */
  lemma NamedExactly<K>(rule: StampRule, m: Mutation, existed: bool, actor: string, w: World<K>, c: Column)
    requires c in Identity(rule)
    ensures var fields := StampOwned(rule, m, existed, actor, w).fields;
      match Said(rule, m, existed, c)
      case Unsaid => c !in fields
      case Done => c in fields && fields[c] == Text(actor)
      case Undone => c in fields && fields[c] == Null
  {
  }

  /** The moment goes with the name: the one sent where it is an instant, and the server's otherwise. */
  lemma MomentExactly<K>(rule: StampRule, m: Mutation, existed: bool, actor: string, w: World<K>, c: Column)
    requires c in Identity(rule) && MomentOf(c).Some? && (rule.OfComment? || rule.OfPurchase? || rule.OfTripItem?)
    requires !w.instant("")
    ensures var fields, at := StampOwned(rule, m, existed, actor, w).fields, MomentOf(c).value;
      match Said(rule, m, existed, c)
      case Unsaid => at !in fields
      case Done =>
        at in fields &&
        fields[at] == if Names(m, at).Some? && w.instant(Names(m, at).value) then Text(Names(m, at).value) else Text(w.now)
      case Undone => at in fields && fields[at] == Null
  {
  }

  /** Two mutations that differ in the names they send alone. */
  predicate DifferInNames(rule: StampRule, m: Mutation, n: Mutation) {
    n == m.(fields := n.fields) && m.fields - Identity(rule) == n.fields - Identity(rule)
  }

  /** They are stamped alike: what the client says of who did it is never read. */
  lemma SentNamesAreIgnored<K>(rule: StampRule, m: Mutation, n: Mutation, existed: bool, actor: string, w: World<K>)
    requires DifferInNames(rule, m, n)
    ensures StampOwned(rule, m, existed, actor, w) == StampOwned(rule, n, existed, actor, w)
  {
    SentOtherwise(rule, m, n);
    assert m.fields - Owned(rule) == n.fields - Owned(rule);
  }

  lemma SentOtherwise(rule: StampRule, m: Mutation, n: Mutation)
    requires DifferInNames(rule, m, n)
    ensures forall c | c !in Identity(rule) :: Get(m.fields, c) == Get(n.fields, c) && (c in m.fields <==> c in n.fields)
  {
    forall c | c !in Identity(rule) ensures Get(m.fields, c) == Get(n.fields, c) && (c in m.fields <==> c in n.fields) {
      assert Get(m.fields - Identity(rule), c) == Get(m.fields, c) && Get(n.fields - Identity(rule), c) == Get(n.fields, c);
      assert c in m.fields <==> c in m.fields - Identity(rule);
      assert c in n.fields <==> c in n.fields - Identity(rule);
    }
  }

  // --------------------------------------------------------------------- one step

  /** A column of the table that says who did something: made a row, bought, packed, is packing, resolved. */
  predicate TellsWho(t: Table, c: Column) {
    match c
    case CreatedBy => t.Items? || t.Trips?
    case OwnerId => t.Templates? || t.TripSeries?
    case AuthorId => t.Comments? || t.Ideas? || t.IdeaComments? || t.DayEntries?
    case UserId => t.NoteAcks? || t.IdeaVotes?
    case ResolvedBy => t.Comments?
    case BoughtBy => t.TripItems? || t.ShoppingEntries? || t.MealIngredients?
    case PackedBy | PackingNowBy => t.TripItems?
    case _ => false
  }

  /** Those columns are stamped, and no others: whose membership it is, and what is retired, is no stamp's business. */
  ghost predicate Named(reg: Registry) {
    && reg.stamp(TripItems) == OfTripItem && reg.stamp(TripMembers) == NoStamp
    && (forall t: Table {:trigger reg.stamp(t)} ::
         && RetiredAt !in Identity(reg.stamp(t))
         && (reg.stamp(t).OnInsert? ==> reg.side(t) == OnTrip) && (reg.stamp(t).OnCreate? ==> reg.side(t) == OnMaster))
    && forall t: Table, c: Column :: c in Identity(reg.stamp(t)) <==> TellsWho(t, c)
  }

  /** What stood in a column before a step, or would on a new row. */
  function Before(reg: Registry, a: Rows, j: Key, c: Column): Value {
    if j in a then Cell(a, j, c) else Get(reg.defaults(j.table), c)
  }

  /** What a write goes by says that the thing is done; a retirement says nothing of anybody. */
  predicate Spoken(reg: Registry, a: Rows, sent: Mutation, m: Mutation, source: Source, c: Column) {
    !source.Retiring? && Said(reg.stamp(m.table), if source.Claiming? then m else sent, KeyOf(m) in a, c) == Done
  }

  /** The step wrote the row and says that its actor did this. */
  predicate SaysDone(reg: Registry, a: Rows, s: Step, j: Key, c: Column) {
    match s.act
    case Wrote(_, sent, m, source) => KeyOf(m) == j && Spoken(reg, a, sent, m, source, c)
    case _ => false
  }

  /** A name is what it was, or gone, or the actor's of a step that says so. */
  predicate Credited(reg: Registry, a: Rows, b: Rows, s: Step, j: Key, c: Column) {
    || Cell(b, j, c) == Before(reg, a, j, c) || Cell(b, j, c) == Null
    || (Cell(b, j, c) == Text(s.p.actor) && SaysDone(reg, a, s, j, c))
  }

  /** What the gate lets through of a name is the actor's, or NULL. */
  lemma GatedName(reg: Registry, a: Rows, p: Partition, w: Env, sent: Mutation, m: Mutation, c: Column)
    requires PassedGate(reg, a, p, w, sent, m) && c in Identity(reg.stamp(m.table)) && c in m.fields
    ensures m.fields[c] == Null || (m.fields[c] == Text(p.actor) && Said(reg.stamp(m.table), sent, KeyOf(m) in a, c) == Done)
  {
    hide Gate, Said;
    GateLets(reg, a, p, w, sent, m);
    NamedExactly(reg.stamp(m.table), sent, KeyOf(sent) in a, p.actor, w, c);
  }

  /** So it is with whatever a write carries. */
  lemma WrittenName(reg: Registry, a: Rows, p: Partition, w: Env, sent: Mutation, m: Mutation, source: Source, c: Column)
    requires Named(reg) && Sourced(reg, a, p, w, sent, m, source) && c in Identity(reg.stamp(m.table)) && c in m.fields
    ensures m.fields[c] == Null || (m.fields[c] == Text(p.actor) && Spoken(reg, a, sent, m, source, c))
  {
    hide PassedGate;
    if source.Gated? { GatedName(reg, a, p, w, sent, m, c); }
  }

  lemma WriteCredits(reg: Registry, a: Rows, p: Partition, w: Env, sent: Mutation, m: Mutation, source: Source, c: Column)
    requires Named(reg) && !m.op.Delete? && Sourced(reg, a, p, w, sent, m, source) && c in Identity(reg.stamp(m.table))
    ensures var v := Get(RowAfter(reg, a, m).fields, c);
      || v == Before(reg, a, KeyOf(m), c) || v == Null
      || (v == Text(p.actor) && Spoken(reg, a, sent, m, source, c))
  {
    hide RowAfter, Sourced, Spoken, Wins, Named;
    WrittenCell(reg, a, m, c);
    if c in m.fields { WrittenName(reg, a, p, w, sent, m, source, c); }
  }

  /** A write credits its actor, or leaves a name alone. */
  lemma RowsCredit(reg: Registry, a: Rows, s: Step, j: Key, c: Column)
    requires Named(reg) && s.act.Wrote? && !s.act.m.op.Delete? && c in Identity(reg.stamp(j.table))
    requires Sourced(reg, a, s.p, s.act.w, s.act.sent, s.act.m, s.act.source)
    requires j in Written(reg, a, s.p, s.act.w, s.act.m)
    ensures Credited(reg, a, Written(reg, a, s.p, s.act.w, s.act.m), s, j, c)
  {
    hide Written, RowAfter, Sourced, Spoken, Named, Identity, FounderRow;
    NamesNobody(reg);
    WrittenRows(reg, a, s.p, s.act.w, s.act.m, j);
    if j == KeyOf(s.act.m) { WriteCredits(reg, a, s.p, s.act.w, s.act.sent, s.act.m, s.act.source, c); }
  }

  /** No step records a name but its actor's, and that only where the mutation says so. */
  lemma StepCredits(reg: Registry, a: Rows, b: Rows, s: Step, j: Key, c: Column)
    requires Named(reg) && Acted(reg, a, b, s) && j in b && c in Identity(reg.stamp(j.table))
    ensures Credited(reg, a, b, s, j, c)
  {
    hide Written, Sourced, AfterChange, Spoken, Blocked, PassedGate, Named, Identity, Deleted, Tombstones, Relogged;
    match s.act
    case Wrote(_, _, _, _) => RowsCredit(reg, a, s, j, c);
    case Removed(_, _, m) => DeletedCell(reg, a, KeyOf(m), j, c);
    case _ =>
  }

  lemma NamesNobody(reg: Registry)
    requires Named(reg)
    ensures Identity(reg.stamp(TripMembers)) == {}
  {
  }
}
