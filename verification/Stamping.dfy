// The columns the server owns: stripped from every mutation and written back
// from the authenticated actor (internal/store/stamp.go).
module Stamping {
  import opened Values
  import opened Vocabulary
  import opened Merging
  import opened Registry

  /** What one step reads from outside the database. */
  datatype World<!K> = World(
    /** The server's clock as a time stamp. */
    now: string,
    /** Which strings are instants. */
    instant: string -> bool,
    /** Whether the constraints this model does not spell out accept the write. */
    accepts: bool,
    /** The id drawn for a creator's membership row. */
    memberId: string,
    /** The order an unordered query lists its rows in. */
    listing: set<K> -> seq<K>)

  function AsText(v: Value): string {
    if v.Text? then v.text else ""
  }

  function Owned(rule: StampRule): set<Column> {
    match rule
    case NoStamp => {}
    case OnInsert(c) => {c}
    case OnCreate(c) => {c}
    case OfComment => {AuthorId, ResolvedBy, ResolvedAt}
    case OfPurchase => {BoughtBy, BoughtAt}
    case OfTripItem => {BoughtBy, BoughtAt, PackedBy, PackedAt, PackingNowBy, PackingNowAt}
  }

  /** The client's tap time when it is an instant, the server's clock otherwise. */
  function TapTime<K>(w: World<K>, tapped: string): string {
    if w.instant(tapped) then tapped else w.now
  }

  /** Who and when, for a record the same mutation's state decides; nothing when it says nothing. */
  function Recorded<K>(
    fields: Fields, sent: Fields, who: Column, when: Column, known: bool, done: bool, actor: string, w: World<K>): Fields
  {
    if !known then fields
    else if done then fields[who := Text(actor)][when := Text(TapTime(w, AsText(Get(sent, when))))]
    else fields[who := Null][when := Null]
  }

  function StampOwned<K>(rule: StampRule, m: Mutation, existed: bool, actor: string, w: World<K>): Mutation {
    var sent, bare := m.fields, m.fields - Owned(rule);
    m.(fields :=
      match rule
      case NoStamp => bare
      case OnInsert(c) => if m.op.Insert? then bare[c := Text(actor)] else bare
      case OnCreate(c) => if !existed && !m.op.Delete? then bare[c := Text(actor)] else bare
      case OfComment =>
        var authored := if m.op.Insert? then bare[AuthorId := Text(actor)] else bare;
        var state := Get(authored, TaskState);
        Recorded(authored, sent, ResolvedBy, ResolvedAt, state.Text?, state == Text(TASK_RESOLVED), actor, w)
      case OfPurchase =>
        Recorded(bare, sent, BoughtBy, BoughtAt, Bought in bare, Truthy(Get(bare, Bought)), actor, w)
      case OfTripItem =>
        var bought := Recorded(bare, sent, BoughtBy, BoughtAt, BoughtFrom in bare, Get(bare, BoughtFrom) != Null, actor, w);
        var state := Get(bought, State);
        var packed := Recorded(bought, sent, PackedBy, PackedAt, state.Text?, state == Text(PACKED), actor, w);
        Recorded(packed, sent, PackingNowBy, PackingNowAt, state.Text?, state == Text(PACKING_NOW), actor, w))
  }

  /** The stamp writes the columns it owns and leaves the others as sent. */
  lemma StampKeeps<K>(rule: StampRule, m: Mutation, existed: bool, actor: string, w: World<K>)
    ensures var r := StampOwned(rule, m, existed, actor, w);
      && r == m.(fields := r.fields)
      && m.fields.Keys - Owned(rule) <= r.fields.Keys <= m.fields.Keys + Owned(rule)
      && forall c | c in r.fields && c !in Owned(rule) :: r.fields[c] == m.fields[c]
  {
  }
}
