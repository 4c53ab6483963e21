// What every row's clocks keep: no field clock is above the row's, every
// column has one, and every clock of a live row is above every tombstone its
// feed holds for it. From the first two follows that a clock minted past a
// row's wins (internal/sync/merge.go, internal/store/pipeline.go).
module Clocks {
  import opened Values
  import opened Vocabulary
  import opened Merging
  import opened Registry
  import opened Database
  import opened Guards
  import opened Pipeline
  import opened System
  import opened Steps
  import opened Effects
  import opened Cascading
  import opened Feeds
  import opened Owners

  /** Every column has a clock of its own; a founder's membership is the one row without. */
  predicate Complete(reg: Registry, k: Key, row: Row) {
    !k.table.TripMembers? ==> reg.columns(k.table) <= row.clocks.Keys
  }

  ghost predicate Clocked(reg: Registry, rows: Rows) {
    forall k {:trigger Bounded(rows[k])} {:trigger Complete(reg, k, rows[k])} | k in rows ::
      Bounded(rows[k]) && Complete(reg, k, rows[k])
  }

  /** A mutation newer than the row wins every field, but a claim's state against "packed". */
  lemma NewerWins(row: Row, m: Mutation, f: Column)
    requires Bounded(row) && m.hlc > row.hlc && f in m.fields
    ensures Wins(row, m, f) <==>
      !((InStateGroup(f) || InStateRecord(f)) &&
        Get(m.fields, State) == Text(PACKING_NOW) && Get(row.fields, State) == Text(PACKED) && State in m.fields)
  {
  }

  lemma WrittenClocks(reg: Registry, a: Rows, m: Mutation)
    requires !m.op.Delete? && (KeyOf(m) in a ==> Bounded(a[KeyOf(m)]))
    ensures Bounded(RowAfter(reg, a, m))
    ensures (KeyOf(m) in a ==> Complete(reg, KeyOf(m), a[KeyOf(m)])) ==> Complete(reg, KeyOf(m), RowAfter(reg, a, m))
  {
  }

  lemma StepKeepsClocked(reg: Registry, a: Rows, b: Rows, s: Step)
    requires Clocked(reg, a) && Acted(reg, a, b, s)
    ensures Clocked(reg, b)
  {
    hide PassedGate, Sourced, AfterChange, Blocked, Written, RowAfter, KidsOf;
    forall k | k in b ensures Bounded(b[k]) && Complete(reg, k, b[k]) {
      assert k in a ==> Bounded(a[k]);
      match s.act
      case Wrote(w, _, m, _) =>
        WrittenRows(reg, a, s.p, w, m, k);
        if k == KeyOf(m) { WrittenClocks(reg, a, m); }
      case Removed(_, _, m) => DeletedCell(reg, a, KeyOf(m), k, TripId);
      case _ =>
    }
  }

  // -------------------------------------------------------------- no resurrection

  /** The row and every ordinary field of it are newer than `t`. */
  ghost predicate Above(row: Row, t: Clock) {
    row.hlc > t && forall c | Ordinary(c) :: ClockOf(row, c) > t
  }

  /** A live row is newer than every delete its feed remembers of it. */
  ghost predicate Unburied(reg: Registry, db: Db) {
    forall f: Feed, k: Key {:trigger NewestTombstone(LogOf(db, f), k)} | reg.side(k.table) == SideOf(f) && Holds(db.rows, f, k) ::
      Above(db.rows[k], NewestTombstone(LogOf(db, f), k))
  }

  lemma {:induction false} TombstonesAppended(log: seq<Entry>, more: seq<Entry>, k: Key)
    requires forall e | e in more :: e.key == k ==> !e.deleted
    ensures NewestTombstone(log + more, k) == NewestTombstone(log, k)
  {
    if more == [] {
      assert log + more == log;
    } else {
      var n := |more| - 1;
      assert (log + more)[..|log| + n] == log + more[..n];
      TombstonesAppended(log, more[..n], k);
    }
  }

  /** An upsert keeps its row above what it was above; a new row is above what its clock is. */
  lemma WrittenAbove(reg: Registry, a: Rows, m: Mutation, t: Clock)
    requires !m.op.Delete?
    requires if KeyOf(m) in a then Above(a[KeyOf(m)], t) else m.hlc > t
    ensures Above(RowAfter(reg, a, m), t)
  {
    var merged := Resolve(Load(a, KeyOf(m)), m);
    forall c | Ordinary(c) ensures ClockOf(RowAfter(reg, a, m), c) > t {
      if KeyOf(m) in a && c in m.fields { assert Wins(a[KeyOf(m)], m, c) ==> m.hlc > ClockOf(a[KeyOf(m)], c); }
    }
  }

  /** A founder's id was never used before. */
  predicate Fresh(db: Db, s: Step) {
    s.act.Wrote? && Founds(s.p, s.act.m, KeyOf(s.act.m) in db.rows, false) ==>
      NewestTombstone(LogOf(db, MasterFeed), Key(TripMembers, s.act.w.memberId)) == 0
  }

  /** A live row is named by no tombstone of the step. */
  lemma LiveRowsAreNotBuried(reg: Registry, a: Rows, b: Rows, s: Step, n: Note)
    requires Ordered(reg, a) && SchemaOk(reg, b) && Acted(reg, a, b, s) && FairStep(s)
    requires n in s.notes && n.deleted
    ensures n.key !in b
  {
    hide SchemaOk, AllInTrip, Founded, Rostered, Honest, MasterComplete, TripComplete;
    match s.act
    case Refused(_, _) =>
    case Wrote(_, _, _, _) => WriteNotesTrue(reg, a, b, s, n);
    case Removed(_, _, _) =>
      var k := KeyOf(s.act.m);
      DoomedIsClosed(reg, a, {k});
      if n.key != k {
        KidsAreNamed(reg, a, k, s.act.w, n.key);
        NamedIsDoomed(reg, a, k, n.key);
      }
  }

  /** A write keeps what was above a bound above it; what is new is above its own clock. */
  lemma WriteKeepsAbove(
    reg: Registry, a: Db, b: Rows, p: Partition, w: Env, sent: Mutation, m: Mutation, source: Source, f: Feed)
    requires Founded(reg) && SchemaOk(reg, a.rows) && SchemaOk(reg, b) && !m.op.Delete?
    requires Sourced(reg, a.rows, p, w, sent, m, source) && NewlyNamed(a, p.feed, m)
    requires reg.side(m.table) == SideOf(p.feed) == SideOf(f) && Holds(b, f, KeyOf(m)) && b[KeyOf(m)] == RowAfter(reg, a.rows, m)
    requires Holds(a.rows, f, KeyOf(m)) ==> Above(a.rows[KeyOf(m)], NewestTombstone(LogOf(a, f), KeyOf(m)))
    ensures Above(b[KeyOf(m)], NewestTombstone(LogOf(a, f), KeyOf(m)))
  {
    if f.TripFeed? { WrittenTrip(reg, a.rows, b, p, w, sent, m, source); }
    WrittenAbove(reg, a.rows, m, NewestTombstone(LogOf(a, f), KeyOf(m)));
  }

  lemma FounderIsAbove(m: Mutation, actor: string)
    requires m.hlc > 0
    ensures Above(FounderRow(m, actor), 0)
  {
  }

  /** The write's own row, a founder's, or one it left alone. */
  lemma WrittenStayAbove(
    reg: Registry, a: Db, b: Rows, p: Partition, w: Env, sent: Mutation, m: Mutation, source: Source, f: Feed, k: Key)
    requires Founded(reg) && SchemaOk(reg, a.rows) && SchemaOk(reg, b) && !m.op.Delete? && b == Written(reg, a.rows, p, w, m)
    requires Sourced(reg, a.rows, p, w, sent, m, source) && NewlyNamed(a, p.feed, m) && reg.side(m.table) == SideOf(p.feed)
    requires Founds(p, m, KeyOf(m) in a.rows, false) ==> NewestTombstone(LogOf(a, MasterFeed), Key(TripMembers, w.memberId)) == 0
    requires reg.side(k.table) == SideOf(f) && Holds(b, f, k)
    requires Holds(a.rows, f, k) ==> Above(a.rows[k], NewestTombstone(LogOf(a, f), k))
    ensures Above(b[k], NewestTombstone(LogOf(a, f), k))
  {
    hide SchemaOk, Founded, Sourced, Above, Written, RowAfter;
    WrittenRows(reg, a.rows, p, w, m, k);
    if IsFounder(p, w, a.rows, m, k) {
      FounderIsAbove(m, p.actor);
      FoundersFeed(reg, f, k);
    } else if k == KeyOf(m) {
      WriteKeepsAbove(reg, a, b, p, w, sent, m, source, f);
    }
  }

  lemma FoundersFeed(reg: Registry, f: Feed, k: Key)
    requires Founded(reg) && k.table.TripMembers? && reg.side(k.table) == SideOf(f)
    ensures f.MasterFeed?
  {
  }

  /** So does every step. */
  lemma StepKeepsAbove(reg: Registry, a: Db, b: Rows, s: Step, f: Feed, k: Key)
    requires Founded(reg) && SchemaOk(reg, a.rows) && SchemaOk(reg, b) && Acted(reg, a.rows, b, s)
    requires s.act.Wrote? ==> NewlyNamed(a, s.p.feed, s.act.m)
    requires Fresh(a, s) && reg.side(k.table) == SideOf(f) && Holds(b, f, k)
    requires Holds(a.rows, f, k) ==> Above(a.rows[k], NewestTombstone(LogOf(a, f), k))
    ensures Above(b[k], NewestTombstone(LogOf(a, f), k))
  {
    hide SchemaOk, Founded, Sourced, Above, Written;
    match s.act
    case Wrote(w, sent, m, source) => WrittenStayAbove(reg, a, b, s.p, w, sent, m, source, f, k);
    case Removed(_, _, m) => RowSurvives(reg, a.rows, KeyOf(m), f, k, NewestTombstone(LogOf(a, f), k));
    case _ =>
  }

  /** A row that outlives a delete was held where it is, and is no older. */
  lemma RowSurvives(reg: Registry, a: Rows, gone: Key, f: Feed, k: Key, t: Clock)
    requires Founded(reg) && SchemaOk(reg, a) && reg.side(k.table) == SideOf(f) && Holds(Deleted(reg, a, gone), f, k)
    requires Holds(a, f, k) ==> Above(a[k], t)
    ensures Above(Deleted(reg, a, gone)[k], t)
  {
    DeletedCell(reg, a, gone, k, TripId);
    if f.TripFeed? { TripIsThere(reg, a, k); }
  }

  lemma NoTombstoneAdded(log: seq<Entry>, notes: seq<Note>, head: nat, k: Key)
    requires forall n | n in notes :: n.deleted ==> n.key != k
    ensures NewestTombstone(log + Numbered(notes, head), k) == NewestTombstone(log, k)
  {
    forall e | e in Numbered(notes, head) ensures e.key == k ==> !e.deleted {
      var i :| 0 <= i < |notes| && Numbered(notes, head)[i] == e;
      assert notes[i] in notes;
    }
    TombstonesAppended(log, Numbered(notes, head), k);
  }

  /** The step's own feed gains no tombstone of a live row. */
  lemma LiveRowsGainNoTombstone(reg: Registry, a: Db, b: Rows, s: Step, k: Key)
    requires Ordered(reg, a.rows) && SchemaOk(reg, b) && Acted(reg, a.rows, b, s) && FairStep(s) && k in b
    ensures NewestTombstone(LogOf(a, s.p.feed) + Numbered(s.notes, a.head), k) == NewestTombstone(LogOf(a, s.p.feed), k)
  {
    forall n | n in s.notes ensures n.deleted ==> n.key != k {
      if n.deleted { LiveRowsAreNotBuried(reg, a.rows, b, s, n); }
    }
    NoTombstoneAdded(LogOf(a, s.p.feed), s.notes, a.head, k);
  }

  /** A feed that holds a row lives. */
  lemma HeldFeedLives(reg: Registry, rows: Rows, f: Feed, k: Key)
    requires Founded(reg) && SchemaOk(reg, rows) && reg.side(k.table) == SideOf(f) && Holds(rows, f, k)
    ensures FeedLives(rows, f)
  {
    if f.TripFeed? { TripIsThere(reg, rows, k); }
  }

  /** No feed gains a tombstone of a row it holds. */
  lemma HeldRowsGainNoTombstone(reg: Registry, a: Db, b: Db, s: Step, f: Feed, k: Key)
    requires Ordered(reg, a.rows) && Took(reg, a, b, s) && FairStep(s)
    requires reg.side(k.table) == SideOf(f) && Holds(b.rows, f, k)
    ensures NewestTombstone(LogOf(b, f), k) == NewestTombstone(LogOf(a, f), k)
  {
    HeldFeedLives(reg, b.rows, f, k);
    assert LogOf(b, f) == LogAfter(a, b.rows, s, f);
    if f == s.p.feed { LiveRowsGainNoTombstone(reg, a, b.rows, s, k); }
    else { assert LogOf(a, f) + [] == LogOf(a, f); }
  }

  lemma StepKeepsUnburiedAt(reg: Registry, a: Db, b: Db, s: Step, f: Feed, k: Key)
    requires Ordered(reg, a.rows) && Took(reg, a, b, s) && FairStep(s) && Fresh(a, s)
    requires reg.side(k.table) == SideOf(f) && Holds(b.rows, f, k)
    requires Holds(a.rows, f, k) ==> Above(a.rows[k], NewestTombstone(LogOf(a, f), k))
    ensures Above(b.rows[k], NewestTombstone(LogOf(b, f), k))
  {
    hide Above, SchemaOk, Acted, AllInTrip, Founded, Rostered, Declared, LogAfter;
    StepKeepsAbove(reg, a, b.rows, s, f, k);
    HeldRowsGainNoTombstone(reg, a, b, s, f, k);
  }

  /** No step leaves a live row older than a delete its feed remembers. */
  lemma StepKeepsUnburied(reg: Registry, a: Db, b: Db, s: Step)
    requires Ordered(reg, a.rows) && Took(reg, a, b, s) && FairStep(s) && Fresh(a, s) && Unburied(reg, a)
    ensures Unburied(reg, b)
  {
    forall f: Feed, k: Key | reg.side(k.table) == SideOf(f) && Holds(b.rows, f, k)
      ensures Above(b.rows[k], NewestTombstone(LogOf(b, f), k))
    {
      StepKeepsUnburiedAt(reg, a, b, s, f, k);
    }
  }
}
