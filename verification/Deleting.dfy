// What a delete must meet for a feed's log to stay faithful in the tables the
// write gate does not confine to a trip (internal/store/master.go,
// cascadeChildren; internal/store/pipeline.go, relogCascadeChildren;
// internal/store/tables_registry.go).
module Deleting {
  import opened Vocabulary
  import opened Registry
  import opened Database
  import opened Guards
  import opened Pipeline
  import opened System
  import opened Steps
  import opened Cascading
  import opened Feeds

  /** A delete the server has not answered yet, of a row its endpoint's feed holds. */
  predicate Deletes(reg: Registry, db: Db, e: Event) {
    e.Push? && e.m.op.Delete? && e.m.mutationId !in db.memo && reg.side(e.m.table) == SideOf(e.p.feed) &&
    Holds(db.rows, e.p.feed, KeyOf(e.m))
  }

  /** Of the tables asked about, a delete takes from the feed exactly what it names, the feed being its own. A trip's
      own delete takes the feed along. */
  ghost predicate OwnDelete(reg: Registry, db: Db, e: Event, f: Feed, ts: set<Table>) {
    Deletes(reg, db, e) && (f.TripFeed? ==> KeyOf(e.m) != Key(Trips, f.trip)) ==>
      forall k: Key | Asked(reg, f, ts, k.table) :: TakesWhatItNames(reg, db.rows, KeyOf(e.m), e.p.feed, f, k)
  }

  predicate TakesWhatItNames(reg: Registry, rows: Rows, gone: Key, from: Feed, f: Feed, k: Key) {
    k in Doomed(reg, rows, {gone}) && Holds(rows, f, k) <==> f == from && (k == gone || k in Named(reg, rows, gone))
  }

  /** An event that deletes nothing owes no feed anything. */
  lemma OwnWithoutDelete(reg: Registry, a: Rows, s: Step, f: Feed, ts: set<Table>)
    requires s.act.Quiet? || !s.act.m.op.Delete?
    requires s.act.Removed? ==> s.act.m.op.Delete?
    ensures OwnStep(reg, a, s, f, ts)
  {
  }

  /** A delete that takes what it names does what its step owes, accepted or refused. */
  lemma DeleteIsOwn(reg: Registry, a: Rows, b: Rows, s: Step, f: Feed, k: Key)
    requires Founded(reg) && SchemaOk(reg, a) && Acted(reg, a, b, s) && (s.act.Removed? || s.act.Refused?)
    requires KeyOf(s.act.m) in a ==> TakesWhatItNames(reg, a, KeyOf(s.act.m), s.p.feed, f, k)
    ensures OwnAt(reg, a, s, f, k)
  {
    hide Doomed, Named, SchemaOk, Founded, Holds, Deleted, PassedGate, Blocked;
  }

  /** The row a deleting step is on is held by the step's feed. */
  lemma DeletedIsHeld(reg: Registry, a: Rows, b: Rows, s: Step)
    requires Founded(reg) && SchemaOk(reg, a) && Acted(reg, a, b, s) && (s.act.Removed? || s.act.Refused?)
    ensures reg.side(s.act.m.table) == SideOf(s.p.feed)
    ensures KeyOf(s.act.m) in a ==> Holds(a, s.p.feed, KeyOf(s.act.m))
  {
    hide SchemaOk, Founded, PassedGate, Blocked, Deleted;
    match s.act
    case Removed(w, sent, m) => GateConfines(reg, a, s.p, w, sent, m);
    case Refused(_, _) =>
  }

  /** The delete of a trip is a step of the master feed, and ends the trip's. */
  lemma TripDeleteEndsFeed(reg: Registry, a: Rows, b: Rows, s: Step, f: Feed, k: Key)
    requires Founded(reg) && Acted(reg, a, b, s) && (s.act.Removed? || s.act.Refused?)
    requires f.TripFeed? && KeyOf(s.act.m) == Key(Trips, f.trip) && FeedLives(b, f)
    ensures OwnAt(reg, a, s, f, k)
  {
    if s.act.Removed? { DoomedIsClosed(reg, a, {KeyOf(s.act.m)}); }
  }

  /** An event whose delete, if it is one, takes what it names does what it owes the feed. */
  lemma EventIsOwn(reg: Registry, s: Sys, e: Event, t: Step, f: Feed, ts: set<Table>)
    requires Ordered(reg, s.db.rows) && Took(reg, s.db, Next(reg, s, e).db, t) && FeedLives(Next(reg, s, e).db.rows, f)
    requires Answers(s.db, e, Minted(Next(reg, s, e)), t) && OwnDelete(reg, s.db, e, f, ts)
    ensures OwnStep(reg, s.db.rows, t, f, ts)
  {
    hide Next, Ordered, SchemaOk, Founded, Doomed, Named, OwnAt, Asked;
    OrderedIsSane(reg, s.db.rows);
    var a, b := s.db.rows, Next(reg, s, e).db.rows;
    if (t.act.Removed? || t.act.Refused?) && t.act.m.op.Delete? {
      DeletedIsHeld(reg, a, b, t);
      forall k: Key | Asked(reg, f, ts, k.table) ensures OwnAt(reg, a, t, f, k) {
        if f.TripFeed? && KeyOf(e.m) == Key(Trips, f.trip) { TripDeleteEndsFeed(reg, a, b, t, f, k); }
        else { DeleteIsOwn(reg, a, b, t, f, k); }
      }
    } else {
      RemovalDeletes(reg, a, b, t);
      OwnWithoutDelete(reg, a, t, f, ts);
    }
  }

  lemma OrderedIsSane(reg: Registry, rows: Rows)
    requires Ordered(reg, rows)
    ensures Founded(reg) && SchemaOk(reg, rows)
  {
  }

  lemma RemovalDeletes(reg: Registry, a: Rows, b: Rows, s: Step)
    requires Acted(reg, a, b, s)
    ensures s.act.Removed? ==> s.act.m.op.Delete?
    ensures s.act.Wrote? ==> !s.act.m.op.Delete?
  {
  }

  /** What a step owes about the sure tables it always does. */
  lemma OwnBeyondSure(reg: Registry, a: Rows, b: Rows, s: Step, f: Feed, ts: set<Table>)
    requires Ordered(reg, a) && Acted(reg, a, b, s) && FeedLives(b, f)
    requires OwnStep(reg, a, s, f, ts - Sure(f))
    ensures OwnStep(reg, a, s, f, ts)
  {
    hide Ordered, Acted, OwnAt, Sure;
    SureStep(reg, a, b, s, f);
    forall k: Key | Asked(reg, f, ts, k.table) ensures OwnAt(reg, a, s, f, k) {
      assert Asked(reg, f, Sure(f), k.table) || Asked(reg, f, ts - Sure(f), k.table);
    }
  }
}
