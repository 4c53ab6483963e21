// Where the change log falls short of the database, step by step: the tables
// whose links may name rows of another trip, the rows a delete takes without
// naming them, and the links it empties (internal/store/tables_registry.go,
// pipeline.go, notethreads.go). Feeds.StepKeepsFaithfulExactly says when a step
// leaves the log right; Witnesses has runs that end in these gaps.
module Gaps {
  import opened Values
  import opened Vocabulary
  import opened Registry
  import opened Database
  import opened Guards
  import opened Pipeline
  import opened System
  import opened Cascading
  import opened Feeds
  import opened Threads
  import opened Discussions

  // ------------------------------------------------- a reference across two trips

  /** A tick of another trip's note goes with the note, and no device of its own trip is told. */
  lemma ForeignTickVanishes(reg: Registry, a: Db, b: Db, s: Step, tick: Key, trip: string)
    requires Ordered(reg, a.rows) && ThreadsCascade(reg) && Took(reg, a, b, s) && s.act.Removed? && FairStep(s)
    requires s.act.m.table.Comments? && tick.table.NoteAcks? && reg.side(NoteAcks).OnTrip?
    requires Holds(a.rows, TripFeed(trip), tick) && Cell(a.rows, tick, CommentId) == Text(s.act.m.id)
    requires s.p.feed != TripFeed(trip) && FeedLives(b.rows, TripFeed(trip)) && FaithfulAt(a, TripFeed(trip), tick)
    ensures !FaithfulAt(b, TripFeed(trip), tick)
  {
    hide PassedGate, Blocked, KidsOf, Newest, Doomed, Ordered, FaithfulAt, SchemaOk, FairStep;
    var gone := KeyOf(s.act.m);
    DoomedIsClosed(reg, a.rows, {gone});
    assert reg.Cascades(NoteAcks, CommentId, Comments);
    LinkDooms(reg, a.rows, tick, CommentId, Doomed(reg, a.rows, {gone}));
    assert LogOf(b, TripFeed(trip)) == LogAfter(a, b.rows, s, TripFeed(trip));
    StepKeepsFaithfulAt(reg, a, b, s, TripFeed(trip), tick);
  }

  // -------------------------------------------------- replies nobody names

  /** The replies of a note that hangs on an item go with the item, and no query names them. */
  lemma RepliesGoUnnamed(reg: Registry, rows: Rows, item: Key, note: Key, reply: Key)
    requires ThreadsCascade(reg) && Ticked(reg)
    requires item.table.TripItems? && note in rows && note.table.Comments? && reply in rows && reply.table.Comments?
    requires Cell(rows, note, TripItemId) == Text(item.id) && Cell(rows, reply, ParentId) == Text(note.id)
    requires Cell(rows, reply, TripItemId) != Text(item.id)
    ensures reply in Doomed(reg, rows, {item}) && reply !in Named(reg, rows, item)
  {
    hide Doomed;
    var doomed := Doomed(reg, rows, {item});
    DoomedIsClosed(reg, rows, {item});
    LinkDooms(reg, rows, note, TripItemId, doomed);
    assert reg.Cascades(Comments, ParentId, Comments);
    LinkDooms(reg, rows, reply, ParentId, doomed);
  }

  /** So do the answers to a reply, with the note the reply answers. */
  lemma AnswersGoUnnamed(reg: Registry, rows: Rows, note: Key, reply: Key, answer: Key)
    requires ThreadsCascade(reg) && note.table.Comments?
    requires reply in rows && reply.table.Comments? && answer in rows && answer.table.Comments?
    requires Cell(rows, reply, ParentId) == Text(note.id) && Cell(rows, answer, ParentId) == Text(reply.id) && reply.id != note.id
    ensures answer in Doomed(reg, rows, {note}) && answer !in Named(reg, rows, note)
  {
    hide Doomed;
    var doomed := Doomed(reg, rows, {note});
    assert reg.Cascades(Comments, ParentId, Comments);
    DoomedIsClosed(reg, rows, {note});
    LinkDooms(reg, rows, reply, ParentId, doomed);
    LinkDooms(reg, rows, answer, ParentId, doomed);
  }

  // ------------------------------------------------------------ links let go

  /** A row that outlives a delete changes exactly when a link of its own let go, and nobody is told. */
  lemma LettingGoIsSilent(reg: Registry, a: Rows, b: Rows, s: Step, f: Feed, k: Key)
    requires Honest(reg) && Acted(reg, a, b, s) && s.act.Removed? && Fair(s.act.w) && k in b
    ensures k in a && !Told(s, f, k)
    ensures b[k] != a[k] <==> exists c | c in a[k].fields ::
      reg.Severable(k.table, c) && TargetOf(reg, a, k, c).Some? && TargetOf(reg, a, k, c).value in Doomed(reg, a, {KeyOf(s.act.m)})
  {
    hide PassedGate, Blocked, KidsOf, Named, Honest, Doomed, Told;
    var gone := KeyOf(s.act.m);
    DoomedIsClosed(reg, a, {gone});
    DeleteTells(reg, a, b, s, f, k);
    if k in Named(reg, a, gone) { NamedIsDoomed(reg, a, gone, k); }
    UnlinkedChanges(reg, a, k, Doomed(reg, a, {gone}));
  }

  lemma UnlinkedChanges(reg: Registry, rows: Rows, k: Key, dead: set<Key>)
    requires k in rows
    ensures Unlinked(reg, rows, k, dead) != rows[k] <==> exists c | c in rows[k].fields ::
      reg.Severable(k.table, c) && TargetOf(reg, rows, k, c).Some? && TargetOf(reg, rows, k, c).value in dead
  {
    var after := Unlinked(reg, rows, k, dead);
    if c :| c in rows[k].fields && reg.Severable(k.table, c) && TargetOf(reg, rows, k, c).Some? && TargetOf(reg, rows, k, c).value in dead {
      assert after.fields[c] == Null && rows[k].fields[c] != Null;
    } else {
      assert after.fields == rows[k].fields;
    }
  }
}
