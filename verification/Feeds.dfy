// The change log is faithful: the newest entry of an entity in a feed is a
// tombstone exactly when the feed holds no such row, and no row changes or
// goes without a newer entry (internal/store/partition.go, pipeline.go). Every
// step keeps that exactly when a delete takes from a feed what it names there,
// and names there what the feed holds.
module Feeds {
  import opened Values
  import opened Vocabulary
  import opened Merging
  import opened Registry
  import opened Database
  import opened Guards
  import opened Pipeline
  import opened System
  import opened Steps
  import opened Effects
  import opened Owners
  import opened Cascading

  /** The tables a feed speaks for in full whatever is pushed: all of the master's, and a trip's confined ones. */
  function Sure(f: Feed): set<Table> {
    set t: Table | f.TripFeed? ==> Confined(t)
  }

  /** One of the tables asked about, and its rows travel on the feed. */
  predicate Asked(reg: Registry, f: Feed, ts: set<Table>, t: Table) {
    t in ts && reg.side(t) == SideOf(f)
  }

  /** A row's columns but for the links a delete elsewhere may empty. */
  function Steady(reg: Registry, t: Table, fields: Fields): Fields {
    map c | c in fields && !reg.Severable(t, c) :: fields[c]
  }

  /** What travels of a row: its columns and its clock. */
  datatype Image = Image(fields: Fields, hlc: Clock)

  /** A feed's row as it travels. */
  function Content(rows: Rows, f: Feed, k: Key): Option<Image> {
    if Holds(rows, f, k) then Some(Image(rows[k].fields, rows[k].hlc)) else None
  }

  /** The same, severable links aside. */
  function View(reg: Registry, rows: Rows, f: Feed, k: Key): Option<Image> {
    if Holds(rows, f, k) then Some(Image(Steady(reg, k.table, rows[k].fields), rows[k].hlc)) else None
  }

  predicate Mentions(log: seq<Entry>, k: Key) {
    exists e | e in log :: e.key == k
  }

  predicate FaithfulAt(db: Db, f: Feed, k: Key) {
    var newest := Newest(LogOf(db, f), k);
    Holds(db.rows, f, k) <==> newest.Some? && !newest.value.deleted
  }

  ghost predicate Faithful(reg: Registry, db: Db, f: Feed, ts: set<Table>) {
    forall k: Key {:trigger FaithfulAt(db, f, k)} | Asked(reg, f, ts, k.table) :: FaithfulAt(db, f, k)
  }

  /** From `a` to `b` the feed only grew, and it grew by every entity that looks different. */
  ghost predicate Later(reg: Registry, a: Db, b: Db, f: Feed, ts: set<Table>) {
    && LogOf(a, f) <= LogOf(b, f)
    && forall k: Key | Asked(reg, f, ts, k.table) && View(reg, a.rows, f, k) != View(reg, b.rows, f, k) ::
         Mentions(LogOf(b, f)[|LogOf(a, f)|..], k)
  }

  // ------------------------------------------------------------- log arithmetic

  lemma {:induction false} NewestAppended(log: seq<Entry>, more: seq<Entry>, k: Key)
    ensures Newest(log + more, k) == if Mentions(more, k) then Newest(more, k) else Newest(log, k)
  {
    if more == [] {
      assert log + more == log;
    } else {
      var n := |more| - 1;
      assert (log + more)[..|log| + n] == log + more[..n];
      NewestAppended(log, more[..n], k);
      assert more == more[..n] + [more[n]];
    }
  }

  ghost predicate Lists(list: seq<Key>, s: set<Key>) {
    forall k :: k in list <==> k in s
  }

  /** An unordered listing has every element, and no other. */
  ghost predicate Fair(w: Env) {
    forall s: set<Key> :: Lists(w.listing(s), s)
  }

  lemma {:induction false} KidsAreChildren(qs: seq<ChildQuery>, rows: Rows, id: string, w: Env, k: Key)
    requires Fair(w)
    ensures k in Kids(qs, rows, id, w) <==> exists q :: q in qs && k in ChildrenOf(rows, q, id)
  {
    if qs != [] {
      var n := |qs| - 1;
      KidsAreChildren(qs[..n], rows, id, w, k);
      assert qs == qs[..n] + [qs[n]];
    }
  }

  /** The listed children are the named ones. */
  lemma KidsAreNamed(reg: Registry, rows: Rows, k: Key, w: Env, j: Key)
    requires Fair(w)
    ensures j in KidsOf(reg, rows, k, w) <==> j in Named(reg, rows, k)
  {
    KidsAreChildren(reg.children(k.table), rows, k.id, w, j);
  }

  // ---------------------------------------------------------- what a step owes a feed

  /** What a step owes a feed about one entity: what a delete takes it names, in its own feed, and a refused one
      names what the feed holds. */
  predicate OwnAt(reg: Registry, a: Rows, s: Step, f: Feed, k: Key) {
    match s.act
    case Removed(_, _, m) =>
      k in Doomed(reg, a, {KeyOf(m)}) && Holds(a, f, k) ==> f == s.p.feed && (k == KeyOf(m) || k in Named(reg, a, KeyOf(m)))
    case Refused(_, m) =>
      f == s.p.feed && m.op.Delete? && KeyOf(m) in a && k in Named(reg, a, KeyOf(m)) ==> Holds(a, f, k)
    case _ => true
  }

  ghost predicate OwnStep(reg: Registry, a: Rows, s: Step, f: Feed, ts: set<Table>) {
    forall k: Key {:trigger OwnAt(reg, a, s, f, k)} | Asked(reg, f, ts, k.table) :: OwnAt(reg, a, s, f, k)
  }

  ghost predicate FairStep(s: Step) {
    !s.act.Quiet? ==> Fair(s.act.w)
  }

  /** What holds of the tables before every step. */
  ghost predicate Ordered(reg: Registry, rows: Rows) {
    Declared(reg) && Founded(reg) && Rostered(reg) && AllInTrip(reg, rows) && SchemaOk(reg, rows)
  }

  // ------------------------------------------------------ what a step's notes say

  predicate NoteTrue(rows: Rows, f: Feed, n: Note) {
    n.deleted <==> !Holds(rows, f, n.key)
  }

  /** A refusal's re-log speaks the truth exactly about what its feed holds. */
  lemma RefusalNotesTrue(reg: Registry, a: Rows, b: Rows, s: Step, n: Note)
    requires Acted(reg, a, b, s) && s.act.Refused? && Fair(s.act.w) && n in s.notes
    ensures NoteTrue(b, s.p.feed, n) <==> OwnAt(reg, a, s, s.p.feed, n.key)
  {
    hide Named;
    var k := KeyOf(s.act.m);
    if k in a && n.key != k {
      KidsAreNamed(reg, a, k, s.act.w, n.key);
    }
  }

  /** A delete's tombstones always do. */
  lemma DeleteNotesTrue(reg: Registry, a: Rows, b: Rows, s: Step, n: Note)
    requires Honest(reg) && Acted(reg, a, b, s) && s.act.Removed? && Fair(s.act.w) && n in s.notes
    ensures NoteTrue(b, s.p.feed, n) && n.deleted && OwnAt(reg, a, s, s.p.feed, n.key)
  {
    hide Honest, Named, PassedGate, Blocked;
    var k := KeyOf(s.act.m);
    DoomedIsClosed(reg, a, {k});
    if n.key != k {
      KidsAreNamed(reg, a, k, s.act.w, n.key);
      NamedIsDoomed(reg, a, k, n.key);
    }
  }

  /** The trip a membership write names is there. */
  lemma MemberTripIsThere(reg: Registry, a: Rows, p: Partition, w: Env, sent: Mutation, m: Mutation, source: Source, trip: string)
    requires Rostered(reg) && Founded(reg) && SchemaOk(reg, a)
    requires m.table.TripMembers? && Sourced(reg, a, p, w, sent, m, source)
    requires MemberTrip(Load(a, KeyOf(m)), m) == Some(trip)
    ensures Key(Trips, trip) in a
  {
    MemberJudged(reg, a, p, w, sent, m, source);
    assert trip in Parents(a, m, TripId);
    assert Administers(a, trip, p.actor);
    var r :| r in Roles(a, trip, p.actor);
    var k :| k in a && Membership(a, k, trip, p.actor);
    LinkNames(reg, a, k, TripId);
  }

  /** And so do a write's entries. */
  lemma WriteNotesTrue(reg: Registry, a: Rows, b: Rows, s: Step, n: Note)
    requires Declared(reg) && Founded(reg) && Rostered(reg) && SchemaOk(reg, a) && SchemaOk(reg, b)
    requires Acted(reg, a, b, s) && s.act.Wrote? && Fair(s.act.w) && n in s.notes
    ensures NoteTrue(b, s.p.feed, n) && !n.deleted
  {
    var m, w := s.act.m, s.act.w;
    WrittenRows(reg, a, s.p, w, m, KeyOf(m));
    if n == Note(KeyOf(m), false, m.hlc) {
      if s.p.feed.TripFeed? { WrittenTrip(reg, a, b, s.p, w, s.act.sent, m, s.act.source); }
    } else if s.p.feed.MasterFeed? {
      ExtraNote(reg, a, b, s, n);
    }
  }

  lemma ExtraNote(reg: Registry, a: Rows, b: Rows, s: Step, n: Note)
    requires Founded(reg) && Rostered(reg) && SchemaOk(reg, a)
    requires Acted(reg, a, b, s) && s.act.Wrote? && Fair(s.act.w) && s.p.feed.MasterFeed?
    requires n in AfterChange(reg, b, s.act.w, s.p, s.act.m, Load(a, KeyOf(s.act.m)), false, s.act.source.Retiring?)
    ensures n.key in b && !n.deleted
  {
    hide SchemaOk, Sourced, Written, RowAfter;
    var m, w := s.act.m, s.act.w;
    WrittenRows(reg, a, s.p, w, m, n.key);
    if n.key in KidsOf(reg, b, KeyOf(m), w) { KidsAreNamed(reg, b, KeyOf(m), w, n.key); }
    else if m.table.TripMembers? && MemberTrip(Load(a, KeyOf(m)), m).Some? {
      MemberTripIsThere(reg, a, s.p, w, s.act.sent, m, s.act.source, MemberTrip(Load(a, KeyOf(m)), m).value);
    }
  }

  // ------------------------------------------ what a step leaves unsaid it leaves

  /** Some note of the step is about the entity, in this feed. */
  predicate Told(s: Step, f: Feed, k: Key) {
    f == s.p.feed && exists n | n in s.notes :: n.key == k
  }

  /** A feed holds after a delete what it held and the delete did not take. */
  lemma HeldAfterDelete(reg: Registry, a: Rows, gone: Key, f: Feed, k: Key)
    requires Founded(reg) && reg.side(k.table) == SideOf(f)
    ensures Holds(Deleted(reg, a, gone), f, k) <==> Holds(a, f, k) && k !in Doomed(reg, a, {gone})
  {
    hide Doomed;
    if k in Deleted(reg, a, gone) { DeletedCell(reg, a, gone, k, TripId); }
  }

  /** A row that outlives a delete looks as it did. */
  lemma SurvivorsKeepView(reg: Registry, a: Rows, gone: Key, f: Feed, k: Key)
    requires Founded(reg) && k in Deleted(reg, a, gone) && reg.side(k.table) == SideOf(f)
    ensures View(reg, Deleted(reg, a, gone), f, k) == View(reg, a, f, k)
  {
    DeletedCell(reg, a, gone, k, TripId);
    var b := Deleted(reg, a, gone);
    assert Steady(reg, k.table, b[k].fields) == Steady(reg, k.table, a[k].fields);
  }

  /** A delete tells its feed of the deleted row and the named ones, and nobody of anything else. */
  lemma DeleteTells(reg: Registry, a: Rows, b: Rows, s: Step, f: Feed, k: Key)
    requires Acted(reg, a, b, s) && s.act.Removed? && Fair(s.act.w)
    ensures Told(s, f, k) <==> f == s.p.feed && (k == KeyOf(s.act.m) || k in Named(reg, a, KeyOf(s.act.m)))
  {
    hide Named, PassedGate, Blocked, Deleted;
    var gone := KeyOf(s.act.m);
    KidsAreNamed(reg, a, gone, s.act.w, k);
    if k == gone { assert s.notes[0].key == k; }
    if k in KidsOf(reg, a, gone, s.act.w) {
      var i :| 0 <= i < |KidsOf(reg, a, gone, s.act.w)| && KidsOf(reg, a, gone, s.act.w)[i] == k;
      assert s.notes[i + 1].key == k;
    }
  }

  /** An untold entity is held after a delete as before exactly when the delete owed the feed nothing about it. */
  lemma UntoldByDelete(reg: Registry, a: Rows, b: Rows, s: Step, f: Feed, k: Key)
    requires Founded(reg) && Acted(reg, a, b, s) && s.act.Removed? && Fair(s.act.w)
    requires reg.side(k.table) == SideOf(f) && !Told(s, f, k)
    ensures (Holds(b, f, k) <==> Holds(a, f, k)) <==> OwnAt(reg, a, s, f, k)
    ensures OwnAt(reg, a, s, f, k) ==> View(reg, b, f, k) == View(reg, a, f, k)
  {
    hide Founded, Doomed, Named, PassedGate, Blocked, Told, Holds, Deleted;
    DeleteTells(reg, a, b, s, f, k);
    HeldAfterDelete(reg, a, KeyOf(s.act.m), f, k);
    if k in b { SurvivorsKeepView(reg, a, KeyOf(s.act.m), f, k); }
    else { NobodyHolds(b, f, k); }
  }

  lemma NobodyHolds(rows: Rows, f: Feed, k: Key)
    requires k !in rows
    ensures !Holds(rows, f, k)
  {
  }

  /** A refusal that tells nothing of an entity owed the feed nothing about it. */
  lemma UntoldByRefusal(reg: Registry, a: Rows, b: Rows, s: Step, f: Feed, k: Key)
    requires Acted(reg, a, b, s) && s.act.Refused? && Fair(s.act.w) && !Told(s, f, k)
    ensures OwnAt(reg, a, s, f, k)
  {
    hide Named;
    var x, w := KeyOf(s.act.m), s.act.w;
    KidsAreNamed(reg, a, x, w, k);
    if x in a && s.act.m.op.Delete? && k in KidsOf(reg, a, x, w) {
      var i :| 0 <= i < |KidsOf(reg, a, x, w)| && KidsOf(reg, a, x, w)[i] == k;
      assert s.notes[i + 1].key == k;
    }
  }

  /** Another feed of the partition's side holds a written row neither before nor after. */
  lemma WrittenRowIsNowhereElse(reg: Registry, a: Rows, b: Rows, p: Partition, w: Env, sent: Mutation, m: Mutation, source: Source, f: Feed)
    requires Founded(reg) && SchemaOk(reg, a) && SchemaOk(reg, b) && !m.op.Delete?
    requires Sourced(reg, a, p, w, sent, m, source) && reg.side(m.table) == SideOf(p.feed) == SideOf(f) && f != p.feed
    requires KeyOf(m) in b && b[KeyOf(m)] == RowAfter(reg, a, m)
    ensures !Holds(a, f, KeyOf(m)) && !Holds(b, f, KeyOf(m))
  {
    WrittenTrip(reg, a, b, p, w, sent, m, source);
  }

  /** A write leaves every row it does not tell of as it was, links and all. */
  lemma UntoldByWrite(reg: Registry, a: Rows, b: Rows, s: Step, f: Feed, k: Key)
    requires Founded(reg) && SchemaOk(reg, a) && SchemaOk(reg, b)
    requires Acted(reg, a, b, s) && s.act.Wrote?
    requires reg.side(k.table) == SideOf(f) && !Told(s, f, k)
    ensures Content(b, f, k) == Content(a, f, k)
  {
    hide SchemaOk, AfterChange, Written, RowAfter, Sourced;
    var m, w := s.act.m, s.act.w;
    WrittenRows(reg, a, s.p, w, m, k);
    if k == KeyOf(m) {
      assert s.notes[0].key == k;
      WrittenRowIsNowhereElse(reg, a, b, s.p, w, s.act.sent, m, s.act.source, f);
    } else if IsFounder(s.p, w, a, m, k) {
      FounderIsTold(reg, a, b, s);
      assert false;
    }
  }

  lemma FounderIsTold(reg: Registry, a: Rows, b: Rows, s: Step)
    requires Acted(reg, a, b, s) && s.act.Wrote? && Founds(s.p, s.act.m, KeyOf(s.act.m) in a, false)
    ensures Told(s, MasterFeed, Key(TripMembers, s.act.w.memberId))
  {
    var n := Note(Key(TripMembers, s.act.w.memberId), false, s.act.m.hlc);
    assert n in AfterChange(reg, b, s.act.w, s.p, s.act.m, Load(a, KeyOf(s.act.m)), false, s.act.source.Retiring?);
    assert n in s.notes;
  }

  /** A row that travels alike is held alike, and looks alike. */
  lemma ContentDecides(reg: Registry, a: Rows, b: Rows, f: Feed, k: Key)
    ensures Content(b, f, k) == Content(a, f, k) ==> (Holds(b, f, k) <==> Holds(a, f, k)) && View(reg, b, f, k) == View(reg, a, f, k)
    ensures View(reg, b, f, k) == View(reg, a, f, k) ==> (Holds(b, f, k) <==> Holds(a, f, k))
  {
  }

  // ------------------------------------------------------------- exactly faithful

  /** What a step tells a feed is true there exactly when it did what it owed. */
  lemma ToldIsTrue(reg: Registry, a: Rows, b: Rows, s: Step, n: Note)
    requires Ordered(reg, a) && SchemaOk(reg, b) && Acted(reg, a, b, s) && FairStep(s) && n in s.notes
    ensures NoteTrue(b, s.p.feed, n) <==> OwnAt(reg, a, s, s.p.feed, n.key)
  {
    match s.act
    case Refused(_, _) => RefusalNotesTrue(reg, a, b, s, n);
    case Wrote(_, _, _, _) => WriteNotesTrue(reg, a, b, s, n);
    case Removed(_, _, _) => DeleteNotesTrue(reg, a, b, s, n);
  }

  /** An entity a step does not tell a feed of is held there as before exactly when the step did what it owed. */
  lemma UntoldIsUnchanged(reg: Registry, a: Rows, b: Rows, s: Step, f: Feed, k: Key)
    requires Ordered(reg, a) && SchemaOk(reg, b) && Acted(reg, a, b, s) && FairStep(s)
    requires reg.side(k.table) == SideOf(f) && !Told(s, f, k)
    ensures (Holds(b, f, k) <==> Holds(a, f, k)) <==> OwnAt(reg, a, s, f, k)
    ensures OwnAt(reg, a, s, f, k) ==> View(reg, b, f, k) == View(reg, a, f, k)
  {
    hide View, Holds, Content, SchemaOk, AllInTrip, Told;
    match s.act
    case Wrote(_, _, _, _) => UntoldByWrite(reg, a, b, s, f, k); ContentDecides(reg, a, b, f, k);
    case Removed(_, _, _) => UntoldByDelete(reg, a, b, s, f, k);
    case Refused(_, _) => UntoldByRefusal(reg, a, b, s, f, k);
    case Quiet =>
  }

  /** What a step does to the newest entry of an entity. */
  lemma NewestAfter(a: Db, b: Db, s: Step, f: Feed, k: Key)
    requires LogOf(b, f) == LogOf(a, f) + (if f == s.p.feed then Numbered(s.notes, a.head) else [])
    ensures if !Told(s, f, k) then Newest(LogOf(b, f), k) == Newest(LogOf(a, f), k)
      else exists n :: n in s.notes && n.key == k && Newest(LogOf(b, f), k).Some? && Newest(LogOf(b, f), k).value.deleted == n.deleted
  {
    var more := if f == s.p.feed then Numbered(s.notes, a.head) else [];
    NewestAppended(LogOf(a, f), more, k);
    TellingIsMentioning(s, a.head, f, k);
    if Mentions(more, k) {
      var i :| 0 <= i < |more| && more[i] == Newest(more, k).value;
      assert s.notes[i] in s.notes;
    }
  }

  lemma StepKeepsFaithfulAt(reg: Registry, a: Db, b: Db, s: Step, f: Feed, k: Key)
    requires Ordered(reg, a.rows) && SchemaOk(reg, b.rows) && Acted(reg, a.rows, b.rows, s) && FairStep(s)
    requires reg.side(k.table) == SideOf(f) && FaithfulAt(a, f, k)
    requires LogOf(b, f) == LogOf(a, f) + (if f == s.p.feed then Numbered(s.notes, a.head) else [])
    ensures FaithfulAt(b, f, k) <==> OwnAt(reg, a.rows, s, f, k)
  {
    hide Ordered, Acted, FairStep, SchemaOk, Holds, OwnAt, Newest, View, Told;
    NewestAfter(a, b, s, f, k);
    if Told(s, f, k) {
      var n :| n in s.notes && n.key == k && Newest(LogOf(b, f), k).value.deleted == n.deleted;
      TellsItsFeed(s, f, k);
      ToldIsTrue(reg, a.rows, b.rows, s, n);
    } else {
      UntoldIsUnchanged(reg, a.rows, b.rows, s, f, k);
    }
  }

  lemma TellsItsFeed(s: Step, f: Feed, k: Key)
    requires Told(s, f, k)
    ensures f == s.p.feed
  {
  }

  /** A step keeps a live feed faithful, in the tables asked about, exactly when it did what it owed it there. */
  lemma StepKeepsFaithfulExactly(reg: Registry, a: Db, b: Db, s: Step, f: Feed, ts: set<Table>)
    requires Ordered(reg, a.rows) && Took(reg, a, b, s) && FairStep(s)
    requires FeedLives(b.rows, f) && Faithful(reg, a, f, ts)
    ensures Faithful(reg, b, f, ts) <==> OwnStep(reg, a.rows, s, f, ts)
  {
    hide Ordered, FairStep, FaithfulAt, OwnAt, Acted, SchemaOk;
    assert LogOf(b, f) == LogAfter(a, b.rows, s, f);
    forall k: Key | Asked(reg, f, ts, k.table) ensures FaithfulAt(b, f, k) <==> OwnAt(reg, a.rows, s, f, k) {
      StepKeepsFaithfulAt(reg, a, b, s, f, k);
    }
  }

  lemma TellingIsMentioning(s: Step, head: nat, f: Feed, k: Key)
    ensures Told(s, f, k) <==> f == s.p.feed && Mentions(Numbered(s.notes, head), k)
  {
    if Told(s, f, k) {
      var i :| 0 <= i < |s.notes| && s.notes[i].key == k;
      assert Numbered(s.notes, head)[i].key == k;
    }
    if f == s.p.feed && Mentions(Numbered(s.notes, head), k) {
      var i :| 0 <= i < |s.notes| && Numbered(s.notes, head)[i].key == k;
      assert s.notes[i].key == k;
    }
  }

  /** In a live feed no row changes, comes or goes without an entry of its own, while steps do what they owe. */
  lemma StepIsLater(reg: Registry, a: Db, b: Db, s: Step, f: Feed, ts: set<Table>)
    requires Ordered(reg, a.rows) && Took(reg, a, b, s) && FairStep(s) && FeedLives(b.rows, f)
    requires OwnStep(reg, a.rows, s, f, ts)
    ensures Later(reg, a, b, f, ts)
  {
    hide Ordered, Acted, FairStep, SchemaOk, View, OwnAt, Told;
    var more := if f == s.p.feed then Numbered(s.notes, a.head) else [];
    assert LogOf(b, f) == LogOf(a, f) + more && LogOf(b, f)[|LogOf(a, f)|..] == more;
    forall k: Key | Asked(reg, f, ts, k.table) && View(reg, a.rows, f, k) != View(reg, b.rows, f, k) ensures Mentions(more, k) {
      if !Told(s, f, k) { UntoldIsUnchanged(reg, a.rows, b.rows, s, f, k); }
      TellingIsMentioning(s, a.head, f, k);
    }
  }

  // ------------------------------------------------------ tables that are always whole

  /** A named child of a held row is held by the same feed, where its table is confined. */
  lemma KidIsHeld(reg: Registry, rows: Rows, f: Feed, k: Key, j: Key)
    requires Declared(reg) && Founded(reg) && AllInTrip(reg, rows) && SchemaOk(reg, rows)
    requires reg.side(k.table) == SideOf(f) && Holds(rows, f, k) && j in Named(reg, rows, k)
    requires f.TripFeed? ==> Confined(j.table)
    ensures Holds(rows, f, j)
  {
    var c, middle, d := NamedBy(reg, rows, k, j);
    if f.TripFeed? {
      assert InTrip(reg, rows, j);
      if TargetOf(reg, rows, j, c) == Some(k) && reg.Cascades(j.table, c, k.table) {
        assert c in rows[j].fields;
        LinkColumn(reg, rows, j, c);
      }
    }
  }

  /** A confined row's trip link is a column of its table. */
  lemma LinkColumn(reg: Registry, rows: Rows, j: Key, c: Column)
    requires Declared(reg) && Confined(j.table) && InTrip(reg, rows, j)
    requires TargetOf(reg, rows, j, c).Some? && TargetOf(reg, rows, j, c).value.table != Trips
    requires reg.Cascades(j.table, c, TargetOf(reg, rows, j, c).value.table)
    ensures TripOf(rows, TargetOf(reg, rows, j, c).value) == TripOf(rows, j)
  {
    assert c in reg.columns(j.table);
  }

  /** A row a delete takes is the deleted one or named with it, and of the same feed, where its table is confined. */
  lemma TakenRows(reg: Registry, a: Rows, gone: Key, from: Feed, f: Feed, k: Key)
    requires Declared(reg) && Founded(reg) && AllInTrip(reg, a) && SchemaOk(reg, a)
    requires reg.side(gone.table) == SideOf(from) && Holds(a, from, gone)
    requires FeedLives(Deleted(reg, a, gone), f) && Asked(reg, f, Sure(f), k.table) && Holds(a, f, k) && k in Doomed(reg, a, {gone})
    ensures f == from && (k == gone || k in Named(reg, a, gone))
  {
    hide SchemaOk, Honest, MasterComplete, TripComplete, AllInTrip, Founded, Named, Hangs;
    DoomIsReached(reg, a, gone);
    DoomedIsClosed(reg, a, {gone});
    assert k in Reach(reg, a, gone);
    if k != gone && k in Named(reg, a, gone) {
      var _, _, _ := NamedBy(reg, a, gone, k);
      KidIsHeld(reg, a, from, gone, k);
    }
  }

  lemma SureAt(reg: Registry, a: Rows, b: Rows, s: Step, f: Feed, k: Key)
    requires Ordered(reg, a) && Acted(reg, a, b, s) && FeedLives(b, f) && Asked(reg, f, Sure(f), k.table)
    ensures OwnAt(reg, a, s, f, k)
  {
    hide SchemaOk, Honest, MasterComplete, TripComplete, AllInTrip, Founded, Rostered, Named, Doomed, Blocked;
    match s.act
    case Removed(_, _, m) =>
      if k in Doomed(reg, a, {KeyOf(m)}) && Holds(a, f, k) {
        GateConfines(reg, a, s.p, s.act.w, s.act.sent, m);
        TakenRows(reg, a, KeyOf(m), s.p.feed, f, k);
      }
    case Refused(_, m) =>
      if f == s.p.feed && KeyOf(m) in a && k in Named(reg, a, KeyOf(m)) { KidIsHeld(reg, a, f, KeyOf(m), k); }
    case _ =>
  }

  /** In the sure tables every step does what it owes, whatever was pushed. */
  lemma SureStep(reg: Registry, a: Rows, b: Rows, s: Step, f: Feed)
    requires Ordered(reg, a) && Acted(reg, a, b, s) && FeedLives(b, f)
    ensures OwnStep(reg, a, s, f, Sure(f))
  {
    hide Ordered, Acted, OwnAt, Sure;
    forall k: Key | Asked(reg, f, Sure(f), k.table) ensures OwnAt(reg, a, s, f, k) { SureAt(reg, a, b, s, f, k); }
  }

  /** So every step keeps every live feed faithful in them. */
  lemma StepKeepsFaithful(reg: Registry, a: Db, b: Db, s: Step, f: Feed)
    requires Ordered(reg, a.rows) && Took(reg, a, b, s) && FairStep(s)
    requires FeedLives(b.rows, f) && Faithful(reg, a, f, Sure(f))
    ensures Faithful(reg, b, f, Sure(f))
  {
    hide Ordered, FairStep, Faithful, OwnStep, Sure;
    SureStep(reg, a.rows, b.rows, s, f);
    StepKeepsFaithfulExactly(reg, a, b, s, f, Sure(f));
  }
}
