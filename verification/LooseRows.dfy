// The rows no rule confines to a trip: participants and items of excursions,
// votes and comments on ideas. While each names only rows of its own trip, a
// delete takes of them exactly what it names (internal/store/tables_registry.go,
// the entries without a guard; internal/store/planner.go).
module LooseRows {
  import opened Values
  import opened Vocabulary
  import opened Merging
  import opened Registry
  import opened Database
  import opened Stamping
  import opened Guards
  import opened Pipeline
  import opened System
  import opened Steps
  import opened Effects
  import opened Cascading
  import opened Feeds
  import opened Deleting
  import opened Discussions

  const LOOSE: set<Table> := {ExcursionTravelers, ExcursionItems, IdeaVotes, IdeaComments}

  /** What they hang on; each hangs off its trip alone. */
  const ROOTS: set<Table> := {Excursions, Ideas, Travelers}

  /** A loose table hangs off its trip and off roots, whose deletes name it; a root hangs off its trip; the rest are
      confined or discussion. */
  ghost predicate Rooted(reg: Registry) {
    && (forall t | reg.side(t) == OnTrip :: Confined(t) || t in LOOSE + DISCUSSION)
    && (forall t | t in LOOSE + ROOTS :: reg.side(t) == OnTrip)
    && (forall t, c, p :: t in ROOTS && reg.Cascades(t, c, p) ==> p.Trips? && c.TripId?)
    && (forall t, c, p :: t in LOOSE && reg.Cascades(t, c, p) && p.Trips? ==> c.TripId?)
    && (forall t, c, p :: t in LOOSE && reg.Cascades(t, c, p) && !p.Trips? ==>
         p in ROOTS && Direct(reg, p, t, c) && c in reg.columns(t) && c !in Owned(reg.stamp(t)) && Get(reg.defaults(t), c) == Null)
  }

  /** Every loose row is of the trip of the rows it hangs on. */
  ghost predicate AllOwn(reg: Registry, rows: Rows) {
    forall j {:trigger InTrip(reg, rows, j)} | j in rows && j.table in LOOSE :: InTrip(reg, rows, j)
  }

  /** What a loose row's push names for it to hang on is no row of another trip. */
  predicate LooseTies(reg: Registry, rows: Rows, m: Mutation, trip: string) {
    m.table in LOOSE ==> forall c | c in m.fields ::
      var l := reg.link(m.table, c);
      l.Some? && l.value.onDelete == Cascade && !l.value.parent.Trips? ==> NamesOwn(rows, m, c, l.value.parent, trip)
  }

  /** What a step sent through the gate hangs no loose row on another trip's. */
  predicate SendsLooselyTied(reg: Registry, a: Rows, s: Step) {
    s.act.Wrote? && s.act.source.Gated? ==> LooseTies(reg, a, s.act.sent, s.p.Trip())
  }

  // ------------------------------------------------------------------ what keeps it

  /** A write to a loose row came through the gate. */
  lemma LooseIsGated(reg: Registry, a: Rows, b: Rows, s: Step)
    requires Rooted(reg) && Acted(reg, a, b, s) && s.act.Wrote? && s.act.m.table in LOOSE
    ensures s.act.source.Gated? && s.p.feed.TripFeed? && PassedGate(reg, a, s.p, s.act.w, s.act.sent, s.act.m)
  {
    hide PassedGate, Written, AfterChange;
    assert reg.side(s.act.m.table) == OnTrip;
  }

  /** What a loose row hangs by is a column the server does not own, without a default. */
  lemma HangsByColumn(reg: Registry, t: Table, c: Column, p: Table)
    requires Rooted(reg) && t in LOOSE && reg.Cascades(t, c, p) && !p.Trips?
    ensures c in reg.columns(t) && c !in Owned(reg.stamp(t)) && Get(reg.defaults(t), c) == Null && reg.side(p) == OnTrip && p !in LOOSE
  {
  }

  /** A link of the written row names a row of its trip: the one it named, or one that was sent. */
  lemma WrittenLink(reg: Registry, a: Rows, b: Rows, s: Step, c: Column, x: Key)
    requires Rooted(reg) && Founded(reg) && SchemaOk(reg, a) && SchemaOk(reg, b)
    requires Acted(reg, a, b, s) && s.act.Wrote? && s.act.m.table in LOOSE && LooseTies(reg, a, s.act.sent, s.p.Trip())
    requires KeyOf(s.act.m) in a ==> InTrip(reg, a, KeyOf(s.act.m))
    requires TargetOf(reg, b, KeyOf(s.act.m), c) == Some(x) && reg.Cascades(s.act.m.table, c, x.table) && !x.table.Trips?
    requires KeyOf(s.act.m) in b && b[KeyOf(s.act.m)] == RowAfter(reg, a, s.act.m) && x in b
    ensures TripOf(b, x) == TripOf(b, KeyOf(s.act.m))
  {
    hide SchemaOk, Founded, PassedGate, AfterChange, RowAfter, Written, Rooted, InTrip, LooseTies, NamesOwn, Wins;
    var k, m := KeyOf(s.act.m), s.act.m;
    HangsByColumn(reg, m.table, c, x.table);
    LooseIsGated(reg, a, b, s);
    WrittenTrip(reg, a, b, s.p, s.act.w, s.act.sent, m, s.act.source);
    NothingElseIsNew(reg, a, b, s, x);
    TripIsKept(reg, a, b, s, x);
    WrittenCell(reg, a, m, c);
    if k in a && Cell(b, k, c) == Cell(a, k, c) {
      LinkStood(reg, a, k, c, x);
    } else {
      SentAsWritten(reg, a, s.p, s.act.w, s.act.sent, m, c);
      SentIsOwn(reg, a, s.act.sent, s.p.Trip(), c, x);
    }
  }

  lemma LinkStood(reg: Registry, a: Rows, k: Key, c: Column, x: Key)
    requires InTrip(reg, a, k) && c in reg.columns(k.table) && !x.table.Trips?
    requires TargetOf(reg, a, k, c) == Some(x) && reg.Cascades(k.table, c, x.table)
    ensures TripOf(a, x) == TripOf(a, k)
  {
  }

  lemma SentIsOwn(reg: Registry, a: Rows, sent: Mutation, trip: string, c: Column, x: Key)
    requires LooseTies(reg, a, sent, trip) && sent.table in LOOSE && c in sent.fields && reg.Cascades(sent.table, c, x.table)
    requires !x.table.Trips? && Stored(sent.fields[c]) == Text(x.id) && x in a
    ensures TripOf(a, x) == Text(trip)
  {
    assert NamesOwn(a, sent, c, x.table, trip);
  }

  lemma WrittenIsOwn(reg: Registry, a: Rows, b: Rows, s: Step)
    requires Rooted(reg) && Founded(reg) && SchemaOk(reg, a) && SchemaOk(reg, b)
    requires Acted(reg, a, b, s) && s.act.Wrote? && s.act.m.table in LOOSE && LooseTies(reg, a, s.act.sent, s.p.Trip())
    requires KeyOf(s.act.m) in a ==> InTrip(reg, a, KeyOf(s.act.m))
    requires KeyOf(s.act.m) in b && b[KeyOf(s.act.m)] == RowAfter(reg, a, s.act.m)
    ensures InTrip(reg, b, KeyOf(s.act.m))
  {
    hide Founded, Acted, LooseTies, Rooted, RowAfter, LinkOk;
    var k := KeyOf(s.act.m);
    forall c | c in reg.columns(k.table)
      ensures var t := TargetOf(reg, b, k, c);
        t.Some? && !t.value.table.Trips? && reg.Cascades(k.table, c, t.value.table) ==>
          t.value in b && TripOf(b, t.value) == TripOf(b, k)
    {
      var t := TargetOf(reg, b, k, c);
      if t.Some? && !t.value.table.Trips? && reg.Cascades(k.table, c, t.value.table) {
        LinkNames(reg, b, k, c);
        WrittenLink(reg, a, b, s, c, t.value);
      }
    }
  }

  /** A row the write does not touch stays of the trip of what it hangs on. */
  lemma OthersStayOwn(reg: Registry, a: Rows, b: Rows, s: Step, j: Key)
    requires Rooted(reg) && Founded(reg) && SchemaOk(reg, a) && SchemaOk(reg, b)
    requires Acted(reg, a, b, s) && s.act.Wrote? && j in a && j in b && b[j] == a[j] && j.table in LOOSE && InTrip(reg, a, j)
    ensures InTrip(reg, b, j)
  {
    hide Founded, Acted, SchemaOk;
    forall c | c in reg.columns(j.table)
      ensures var t := TargetOf(reg, b, j, c);
        t.Some? && !t.value.table.Trips? && reg.Cascades(j.table, c, t.value.table) ==>
          t.value in b && TripOf(b, t.value) == TripOf(b, j)
    {
      var t := TargetOf(reg, a, j, c);
      if t.Some? && !t.value.table.Trips? && reg.Cascades(j.table, c, t.value.table) { TripIsKept(reg, a, b, s, t.value); }
    }
  }

  /** And so does one that outlives a delete. */
  lemma DeleteKeepsOwn(reg: Registry, a: Rows, b: Rows, gone: Key, j: Key)
    requires Rooted(reg) && Founded(reg) && SchemaOk(reg, b) && b == Deleted(reg, a, gone) && j in b && j.table in LOOSE
    requires j in a ==> InTrip(reg, a, j)
    ensures InTrip(reg, b, j)
  {
    hide Deleted, LinkOk;
    DeletedCell(reg, a, gone, j, TripId);
    forall c | c in reg.columns(j.table)
      ensures var t := TargetOf(reg, b, j, c);
        t.Some? && !t.value.table.Trips? && reg.Cascades(j.table, c, t.value.table) ==>
          t.value in b && TripOf(b, t.value) == TripOf(b, j)
    {
      DeletedCell(reg, a, gone, j, c);
      var t := TargetOf(reg, b, j, c);
      if t.Some? && !t.value.table.Trips? && reg.Cascades(j.table, c, t.value.table) {
        LinkNames(reg, b, j, c);
        DeletedCell(reg, a, gone, t.value, TripId);
      }
    }
  }

  /** While their pushes name rows of their own trip, loose rows are of the trip of what they hang on. */
  lemma StepKeepsOwn(reg: Registry, a: Rows, b: Rows, s: Step)
    requires Rooted(reg) && Founded(reg) && SchemaOk(reg, a) && SchemaOk(reg, b) && AllOwn(reg, a) && Acted(reg, a, b, s)
    requires SendsLooselyTied(reg, a, s)
    ensures AllOwn(reg, b)
  {
    hide SchemaOk, Founded, AfterChange, Written, RowAfter, Deleted, PassedGate, LooseTies, InTrip, Rooted, Blocked, Relogged;
    forall j | j in b && j.table in LOOSE ensures InTrip(reg, b, j) {
      match s.act
      case Wrote(w, _, m, _) =>
        WrittenRows(reg, a, s.p, w, m, j);
        if j == KeyOf(m) {
          LooseIsGated(reg, a, b, s);
          WrittenIsOwn(reg, a, b, s);
        } else {
          OthersStayOwn(reg, a, b, s, j);
        }
      case Removed(_, _, m) =>
        DeletedCell(reg, a, KeyOf(m), j, TripId);
        DeleteKeepsOwn(reg, a, b, KeyOf(m), j);
      case _ =>
    }
  }

  // ------------------------------------------------------------- what a delete takes

  /** What a delete may take of the roots and the loose rows: what it names, or everything with its trip. */
  predicate Close(reg: Registry, rows: Rows, gone: Key, j: Key) {
    if j.table.Trips? then j == gone
    else if j.table in ROOTS + LOOSE then
      j == gone || (j.table in LOOSE && j in Named(reg, rows, gone)) || (gone.table.Trips? && TripOf(rows, j) == Text(gone.id))
    else true
  }

  function Vicinity(reg: Registry, rows: Rows, gone: Key): set<Key> {
    {gone} + set j | j in rows && Close(reg, rows, gone, j)
  }

  /** A root hangs off its trip. */
  lemma RootIsClose(reg: Registry, rows: Rows, gone: Key, j: Key, c: Column, x: Key)
    requires Rooted(reg) && j in rows && j.table in ROOTS && Close(reg, rows, gone, x)
    requires TargetOf(reg, rows, j, c) == Some(x) && reg.Cascades(j.table, c, x.table)
    ensures Close(reg, rows, gone, j)
  {
    hide Named;
    assert x.table.Trips? && c.TripId?;
  }

  /** A loose row hangs off its trip, or off a root of its trip. */
  lemma LooseIsClose(reg: Registry, rows: Rows, gone: Key, j: Key, c: Column, x: Key)
    requires Rooted(reg) && j in rows && j.table in LOOSE && InTrip(reg, rows, j) && Close(reg, rows, gone, x)
    requires TargetOf(reg, rows, j, c) == Some(x) && reg.Cascades(j.table, c, x.table)
    ensures Close(reg, rows, gone, j)
  {
    hide Named;
    if !x.table.Trips? {
      assert c in reg.columns(j.table) && Direct(reg, x.table, j.table, c);
      if x == gone { NamedDirectly(reg, rows, gone, j, c); }
    }
  }

  lemma GoneIsClose(reg: Registry, rows: Rows, gone: Key)
    ensures Close(reg, rows, gone, gone)
  {
  }

  lemma VicinityIsClosed(reg: Registry, rows: Rows, gone: Key, j: Key)
    requires Rooted(reg) && Declared(reg) && AllOwn(reg, rows)
    requires j in rows && Hangs(reg, rows, j, Vicinity(reg, rows, gone))
    ensures j in Vicinity(reg, rows, gone)
  {
    var c, x := HangsBy(reg, rows, j, Vicinity(reg, rows, gone));
    hide Declared, Rooted, InTrip, Named, Hangs;
    GoneIsClose(reg, rows, gone);
    assert Close(reg, rows, gone, x);
    TripsHangOffNothing(reg, c, x.table);
    if j.table in ROOTS {
      RootIsClose(reg, rows, gone, j, c, x);
    } else if j.table in LOOSE {
      LooseIsClose(reg, rows, gone, j, c, x);
    }
  }

  /** A loose row is named by its own link to the deleted row, and is of its trip. */
  lemma LooseIsNamedByLink(reg: Registry, rows: Rows, gone: Key, k: Key)
    requires Rooted(reg) && Declared(reg) && Founded(reg) && AllOwn(reg, rows)
    requires k.table in LOOSE && k in Named(reg, rows, gone)
    ensures k in rows && TripOf(rows, k) == TripOf(rows, gone)
  {
    hide MasterComplete, TripComplete, Named;
    var c, middle, d := NamedBy(reg, rows, gone, k);
    NamedIsThere(reg, rows, gone, k);
    assert InTrip(reg, rows, k);
    if TargetOf(reg, rows, k, c) == Some(gone) && reg.Cascades(k.table, c, gone.table) {
      assert !gone.table.Trips? && c in reg.columns(k.table);
    } else {
      TripsHangOffNothing(reg, d, gone.table);
      assert false;
    }
  }

  lemma TripsHangOffNothing(reg: Registry, d: Column, p: Table)
    requires Declared(reg)
    ensures !reg.Cascades(Trips, d, p)
  {
    hide Honest, MasterComplete;
  }

  lemma NamedIsThere(reg: Registry, rows: Rows, gone: Key, k: Key)
    requires k in Named(reg, rows, gone)
    ensures k in rows
  {
  }

  /** Of the loose rows a delete takes exactly what it names, in its own trip. */
  lemma LooseGoesAsNamed(reg: Registry, rows: Rows, gone: Key, from: Feed, trip: string, k: Key)
    requires Rooted(reg) && Declared(reg) && Founded(reg) && AllOwn(reg, rows)
    requires SchemaOk(reg, rows) && reg.side(gone.table) == SideOf(from) && Holds(rows, from, gone)
    requires gone != Key(Trips, trip) && k.table in LOOSE
    ensures TakesWhatItNames(reg, rows, gone, from, TripFeed(trip), k)
  {
    hide SchemaOk, MasterComplete, TripComplete, Honest, AllOwn, Named, Hangs;
    forall j | j in rows && Hangs(reg, rows, j, Vicinity(reg, rows, gone)) ensures j in Vicinity(reg, rows, gone) {
      VicinityIsClosed(reg, rows, gone, j);
    }
    DoomedIsLeast(reg, rows, {gone}, Vicinity(reg, rows, gone));
    DoomedIsClosed(reg, rows, {gone});
    assert reg.side(k.table) == OnTrip;
    if k in Named(reg, rows, gone) {
      LooseIsNamedByLink(reg, rows, gone, k);
      NamedIsDoomed(reg, rows, gone, k);
      var _, _, _ := NamedBy(reg, rows, gone, k);
    }
  }

  /** So every delete owns what it takes of them. */
  lemma LooseDeletesOwn(reg: Registry, db: Db, e: Event, trip: string)
    requires Rooted(reg) && Declared(reg) && Founded(reg) && SchemaOk(reg, db.rows) && AllOwn(reg, db.rows)
    ensures OwnDelete(reg, db, e, TripFeed(trip), LOOSE)
  {
    hide SchemaOk, Declared, AllOwn, Rooted, Founded, TakesWhatItNames;
    if Deletes(reg, db, e) && KeyOf(e.m) != Key(Trips, trip) {
      forall k: Key | Asked(reg, TripFeed(trip), LOOSE, k.table)
        ensures TakesWhatItNames(reg, db.rows, KeyOf(e.m), e.p.feed, TripFeed(trip), k)
      {
        LooseGoesAsNamed(reg, db.rows, KeyOf(e.m), e.p.feed, trip, k);
      }
    }
  }
}
