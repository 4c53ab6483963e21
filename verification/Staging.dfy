// Small runs, event by event: what one push that meets every rule does to a
// state in which nothing was deleted yet. The witnesses are built from it.
module Staging {
  import opened Values
  import opened Vocabulary
  import opened Merging
  import opened Registry
  import opened Database
  import opened Stamping
  import opened Guards
  import opened Pipeline
  import opened System
  import opened Steps
  import opened Effects
  import opened Owners
  import opened Cascading
  import opened Feeds
  import opened Clocks
  import opened Laws
  import opened Reachable
  import opened Timelines
  import Retiring
  import Hlc

  const EVERY: set<Table> := set t: Table | true

  // -------------------------------------------------------------------- the world

  /** The rows of a query in some order. */
  ghost function Listed(s: set<Key>): seq<Key> {
    if s == {} then [] else
      var k :| k in s;
      [k] + Listed(s - {k})
  }

  lemma {:induction false} ListedAll(s: set<Key>, k: Key)
    ensures k in Listed(s) <==> k in s
  {
    if s != {} {
      var x :| x in s && Listed(s) == [x] + Listed(s - {x});
      ListedAll(s - {x}, k);
    }
  }

  /** A server that accepts whatever its constraints let through. */
  ghost function Server(memberId: string): Env {
    World("now", _ => false, true, memberId, Listed)
  }

  lemma ServerIsFair(memberId: string)
    ensures Fair(Server(memberId)) && Server(memberId).accepts && Server(memberId).memberId == memberId
  {
    forall s: set<Key> ensures Lists(Server(memberId).listing(s), s) {
      forall k ensures k in Listed(s) <==> k in s { ListedAll(s, k); }
    }
  }

  /** Clocks of New Year 2026, one after the other. */
  function Time(n: int): Clock {
    (1_767_225_600_000 + Hlc.SIGNED_LIMIT) * 0x1_0000_0000_0000 + if n < 0 then 0 else n
  }

  lemma TimeIsClock(n: int)
    requires n < 1000
    ensures Hlc.IsRank(Time(n)) && Time(n) > 0
  {
  }

  // -------------------------------------------------------------------- the stage

  /** Every entry of every log is of a row that is there. */
  ghost predicate AllLive(db: Db) {
    forall f, e | e in LogOf(db, f) :: !e.deleted && e.key in db.rows
  }

  /** The events so far are a run; nothing was deleted, and every log is faithful in every table. */
  ghost predicate Staged(reg: Registry, gen: Hlc.Gen, events: seq<Event>, s: Sys) {
    && Timeline(reg, gen, events) && s == Run(reg, Start(gen), events) && s.gen == gen
    && AllLive(s.db) && forall f: Feed | FeedLives(s.db.rows, f) :: Faithful(reg, s.db, f, EVERY)
  }

  lemma StageIsEmpty(reg: Registry, gen: Hlc.Gen)
    requires Lawful(reg) && gen.WellFormed() && gen.lastMillis < Hlc.MILLIS_LIMIT
    ensures Staged(reg, gen, [], Start(gen))
  {
    hide Lawful, Faithful;
    forall f: Feed ensures Faithful(reg, Start(gen).db, f, EVERY) { NothingIsFaithful(reg, gen, f, EVERY); }
  }

  lemma StageIsKept(reg: Registry, gen: Hlc.Gen, events: seq<Event>, s: Sys)
    requires Staged(reg, gen, events, s)
    ensures Lawful(reg) && Kept(reg, s) && Ordered(reg, s.db.rows) && Sane(reg, s.db) && Clocked(reg, s.db.rows)
  {
    hide Ordered, Clocked, AllLive, Faithful, Lawful, Runs, Run, SchemaOk;
    RunIsKept(reg, gen, events);
    KeptIsOrdered(reg, s);
  }

  /** One more event of a run. */
  lemma OneMore(reg: Registry, gen: Hlc.Gen, events: seq<Event>, e: Event)
    requires Timeline(reg, gen, events) && Admissible(reg, Run(reg, Start(gen), events), e)
    ensures Timeline(reg, gen, events + [e])
    ensures Run(reg, Start(gen), events + [e]) == Next(reg, Run(reg, Start(gen), events), e)
  {
    hide Lawful, Admissible, Next;
    assert (events + [e])[..|events + [e]| - 1] == events;
  }

  // ------------------------------------------------------------------- the pushes

  /** A new push of a valid mutation to a feed that lives, by a world that accepts it. */
  ghost predicate Well(reg: Registry, s: Sys, p: Partition, w: Env, sent: Mutation) {
    && Hlc.IsRank(sent.hlc) && Fair(w) && w.accepts && Valid(reg, sent, p) && sent.mutationId !in s.db.memo
    && Key(TripMembers, w.memberId) !in s.db.rows && FeedLives(s.db.rows, p.feed)
  }

  /** What a push must meet to be written: it is new, its gate passes `m`, and no constraint refuses the result. */
  ghost predicate Acceptable(reg: Registry, s: Sys, p: Partition, w: Env, sent: Mutation, m: Mutation) {
    && Well(reg, s, p, w, sent) && !sent.op.Delete? && Gate(reg, s.db.rows, p, w, sent) == Pass(m)
    && SchemaOk(reg, Persisted(reg, s.db.rows, m, Resolve(Load(s.db.rows, KeyOf(m)), m)))
    && Changes(s.db.rows, m, Resolve(Load(s.db.rows, KeyOf(m)), m))
  }

  lemma NoTombstone(db: Db, f: Feed, k: Key)
    requires AllLive(db)
    ensures NewestTombstone(LogOf(db, f), k) == 0
  {
  }

  /** The gate's mutation, by its parts. */
  lemma GatedAsSent(reg: Registry, rows: Rows, p: Partition, w: Env, sent: Mutation, m: Mutation)
    requires Gate(reg, rows, p, w, sent) == Pass(m)
    ensures KeyOf(m) == KeyOf(sent) && m.op == sent.op && m.hlc == sent.hlc && m.mutationId == sent.mutationId
    ensures m.fields.Keys <= sent.fields.Keys + Owned(reg.stamp(sent.table))
  {
    hide Judge, StampOwned, Scope;
    ScopeIsSound(reg, rows, StampOwned(reg.stamp(sent.table), sent, KeyOf(sent) in rows, p.actor, w), p);
    StampKeeps(reg.stamp(sent.table), sent, KeyOf(sent) in rows, p.actor, w);
  }

  /** The decision about an acceptable push is to write it. */
  lemma DecidesToWrite(reg: Registry, s: Sys, p: Partition, w: Env, sent: Mutation, m: Mutation)
    requires Acceptable(reg, s, p, w, sent, m) && AllLive(s.db)
    ensures Decide(reg, s.db, w, p, sent) == Write(m, Resolve(Load(s.db.rows, KeyOf(m)), m), false)
  {
    hide SchemaOk, Changes, Persisted, AllLive, Scope, StampOwned, Blocked, Well;
    GatedAsSent(reg, s.db.rows, p, w, sent, m);
    NoTombstone(s.db, p.feed, KeyOf(m));
    UpsertNeverDeletes(Load(s.db.rows, KeyOf(m)), m);
  }

  /** The entries an acceptable push adds. */
  function Entries(reg: Registry, rows: Rows, p: Partition, w: Env, m: Mutation): seq<Note> {
    [Note(KeyOf(m), false, m.hlc)] + AfterChange(reg, Written(reg, rows, p, w, m), w, p, m, Load(rows, KeyOf(m)), false, false)
  }

  /** The commit of an accepted upsert remembers its answer. */
  lemma UpsertIsRemembered(reg: Registry, db: Db, w: Env, p: Partition, m: Mutation)
    requires !m.op.Delete? && Key(TripMembers, w.memberId) !in db.rows && FeedLives(db.rows, p.feed)
    requires var merged := Resolve(Load(db.rows, KeyOf(m)), m);
      !merged.deleted && Changes(db.rows, m, merged) && Accepts(reg, w, Persisted(reg, db.rows, m, merged))
    ensures Carry(reg, db, w, p, m, Resolve(Load(db.rows, KeyOf(m)), m), false).0.memo.Keys == db.memo.Keys + {m.mutationId}
  {
    hide SchemaOk, Resolve, AfterChange, Updated, Inserted;
  }

  /** An acceptable push is written. */
  lemma PushLands(reg: Registry, s: Sys, p: Partition, w: Env, sent: Mutation, m: Mutation)
    requires Founded(reg) && Sane(reg, s.db) && AllLive(s.db) && Acceptable(reg, s, p, w, sent, m)
    ensures var b := Next(reg, s, Event.Push(p, sent, w));
      && b.gen == s.gen && b.db.rows == Written(reg, s.db.rows, p, w, m)
      && b.db.memo.Keys == s.db.memo.Keys + {sent.mutationId}
      && b.db.head == s.db.head + |Entries(reg, s.db.rows, p, w, m)|
      && LogOf(b.db, p.feed) == LogOf(s.db, p.feed) + Numbered(Entries(reg, s.db.rows, p, w, m), s.db.head)
  {
    hide SchemaOk, AllLive, Resolve, Written, Persisted, Carry, Noted, AfterChange, Changes, Gate, Decide, Founded;
    var rows, entries := Written(reg, s.db.rows, p, w, m), Entries(reg, s.db.rows, p, w, m);
    GatedAsSent(reg, s.db.rows, p, w, sent, m);
    DecidesToWrite(reg, s, p, w, sent, m);
    UpsertNeverDeletes(Load(s.db.rows, KeyOf(m)), m);
    UpsertCommits(reg, s.db, w, p, m, Resolve(Load(s.db.rows, KeyOf(m)), m), false, entries);
    WrittenRows(reg, s.db.rows, p, w, m, if p.feed.TripFeed? then Key(Trips, p.feed.trip) else KeyOf(m));
    NotedLogs(reg, s.db, rows, p.feed, entries, p.feed);
    UpsertIsRemembered(reg, s.db, w, p, m);
  }

  lemma UpsertNeverDeletes(row: Option<Row>, m: Mutation)
    requires !m.op.Delete?
    ensures !Resolve(row, m).deleted
  {
    hide Won, Lost, Stamped;
  }

  // ------------------------------------------------------------ keeping the stage

  /** A push that is no delete and changed the tables is a write. */
  lemma ChangedIsWritten(reg: Registry, a: Rows, b: Rows, sent: Mutation, t: Step)
    requires Acted(reg, a, b, t) && !sent.op.Delete? && About(t, sent) && b != a
    ensures t.act.Wrote?
  {
    hide PassedGate, Blocked, Written, Deleted, AfterChange;
  }

  /** What a write tells of is there. */
  lemma WrittenIsThere(reg: Registry, a: Rows, b: Rows, t: Step, n: Note)
    requires Ordered(reg, a) && SchemaOk(reg, b) && Acted(reg, a, b, t) && FairStep(t) && t.act.Wrote? && n in t.notes
    ensures !n.deleted && n.key in b
  {
    hide SchemaOk, Acted, Ordered, Declared, Founded, Rostered;
    OrderedParts(reg, a);
    WriteNotesTrue(reg, a, b, t, n);
  }

  /** And what was there stays. */
  lemma WriteKeepsRows(reg: Registry, a: Rows, b: Rows, t: Step, k: Key)
    requires Acted(reg, a, b, t) && t.act.Wrote? && k in a
    ensures k in b
  {
    hide Sourced, AfterChange, Written;
    WrittenRows(reg, a, t.p, t.act.w, t.act.m, k);
  }

  /** A write adds entries of rows that are there, and takes none away. */
  lemma WriteKeepsLive(reg: Registry, a: Db, b: Db, t: Step)
    requires Ordered(reg, a.rows) && Took(reg, a, b, t) && FairStep(t) && t.act.Wrote? && AllLive(a)
    ensures AllLive(b)
  {
    hide Ordered, SchemaOk, Acted, FairStep;
    forall f, e | e in LogOf(b, f) ensures !e.deleted && e.key in b.rows {
      assert LogOf(b, f) == LogAfter(a, b.rows, t, f);
      if e in LogOf(a, f) {
        WriteKeepsRows(reg, a.rows, b.rows, t, e.key);
      } else {
        var i :| 0 <= i < |t.notes| && Numbered(t.notes, a.head)[i] == e;
        WrittenIsThere(reg, a.rows, b.rows, t, t.notes[i]);
      }
    }
  }

  lemma OrderedParts(reg: Registry, rows: Rows)
    requires Ordered(reg, rows)
    ensures Declared(reg) && Founded(reg) && Rostered(reg) && SchemaOk(reg, rows)
  {
  }

  lemma SaneIsSound(reg: Registry, db: Db)
    requires Sane(reg, db)
    ensures SchemaOk(reg, db.rows)
  {
  }

  /** And every log stays faithful in every table. */
  lemma WriteKeepsFaithful(reg: Registry, a: Db, b: Db, t: Step)
    requires Ordered(reg, a.rows) && Founded(reg) && Took(reg, a, b, t) && FairStep(t) && t.act.Wrote?
    requires forall f: Feed | FeedLives(a.rows, f) :: Faithful(reg, a, f, EVERY)
    requires Sane(reg, a)
    ensures forall f: Feed | FeedLives(b.rows, f) :: Faithful(reg, b, f, EVERY)
  {
    hide Ordered, SchemaOk, Faithful, Founded, Acted, OwnStep;
    forall f: Feed | FeedLives(b.rows, f) ensures Faithful(reg, b, f, EVERY) {
      if !FeedLives(a.rows, f) { DeadIsFaithful(reg, a, f, EVERY); }
      WriteOwesNothing(reg, a.rows, t, f);
      StepKeepsFaithfulExactly(reg, a, b, t, f, EVERY);
    }
  }

  lemma WriteOwesNothing(reg: Registry, a: Rows, t: Step, f: Feed)
    requires t.act.Wrote?
    ensures OwnStep(reg, a, t, f, EVERY)
  {
  }

  /** An acceptable push continues the run, and keeps the stage. */
  lemma Lands(reg: Registry, gen: Hlc.Gen, events: seq<Event>, s: Sys, p: Partition, w: Env, sent: Mutation, m: Mutation)
    requires Staged(reg, gen, events, s) && Acceptable(reg, s, p, w, sent, m)
    requires Written(reg, s.db.rows, p, w, m) != s.db.rows
    ensures var e := Event.Push(p, sent, w);
      var b := Next(reg, s, e);
      && Staged(reg, gen, events + [e], b)
      && b.db.rows == Written(reg, s.db.rows, p, w, m)
      && b.db.memo.Keys == s.db.memo.Keys + {sent.mutationId}
      && LogOf(b.db, p.feed) == LogOf(s.db, p.feed) + Numbered(Entries(reg, s.db.rows, p, w, m), s.db.head)
  {
    hide Ordered, SchemaOk, Kept, AllLive, Faithful, Lawful, Runs, Written, Entries, Took, Clocked, Admissible, Next, Acceptable;
    var e := Event.Push(p, sent, w);
    StageIsKept(reg, gen, events, s);
    LawfulIsFounded(reg);
    PushLands(reg, s, p, w, sent, m);
    AcceptableIsWell(reg, s, p, w, sent, m);
    PushIsAdmissible(reg, s, p, w, sent);
    OneMore(reg, gen, events, e);
    var t := EventSteps(reg, s, e);
    var b := Next(reg, s, e);
    TookIsActed(reg, s.db, b.db, t);
    ChangedIsWritten(reg, s.db.rows, b.db.rows, sent, t);
    WriteKeepsLive(reg, s.db, b.db, t);
    WriteKeepsFaithful(reg, s.db, b.db, t);
  }

  lemma AcceptableIsWell(reg: Registry, s: Sys, p: Partition, w: Env, sent: Mutation, m: Mutation)
    requires Acceptable(reg, s, p, w, sent, m)
    ensures Well(reg, s, p, w, sent) && !sent.op.Delete?
  {
    hide Well, SchemaOk, Gate, Changes;
  }

  lemma TookIsActed(reg: Registry, a: Db, b: Db, t: Step)
    requires Took(reg, a, b, t)
    ensures Acted(reg, a.rows, b.rows, t)
  {
  }

  lemma PushIsAdmissible(reg: Registry, s: Sys, p: Partition, w: Env, sent: Mutation)
    requires AllLive(s.db) && Well(reg, s, p, w, sent) && Kept(reg, s)
    requires Next(reg, s, Event.Push(p, sent, w)).gen == s.gen
    ensures Admissible(reg, s, Event.Push(p, sent, w))
  {
    hide SchemaOk, AllLive, Next, AllInTrip, Fair, Valid;
    NotMentioned(s.db, MasterFeed, Key(TripMembers, w.memberId));
  }

  lemma NotMentioned(db: Db, f: Feed, k: Key)
    requires AllLive(db) && k !in db.rows
    ensures !Mentions(LogOf(db, f), k)
  {
  }

  // ------------------------------------------------------------------ what is met

  /** A link of the written row names a row that is there, or is left as it was, or may be NULL and is. */
  predicate LinkNamed(reg: Registry, rows: Rows, m: Mutation, c: Column)
    requires reg.link(m.table, c).Some?
  {
    if c in m.fields then m.fields[c].Text? && Key(reg.link(m.table, c).value.parent, m.fields[c].text) in rows
    else KeyOf(m) in rows || (!reg.link(m.table, c).value.mandatory && Get(reg.defaults(m.table), c) == Null)
  }

  ghost predicate LinksNamed(reg: Registry, rows: Rows, m: Mutation) {
    forall c | reg.link(m.table, c).Some? :: LinkNamed(reg, rows, m, c)
  }

  lemma PutIsRow(reg: Registry, rows: Rows, m: Mutation)
    requires !m.op.Delete?
    ensures Persisted(reg, rows, m, Resolve(Load(rows, KeyOf(m)), m)) == rows[KeyOf(m) := RowAfter(reg, rows, m)]
  {
  }

  /** Then the tables with it meet every constraint. */
  lemma PutIsSound(reg: Registry, rows: Rows, m: Mutation)
    requires SchemaOk(reg, rows) && !m.op.Delete? && LinksNamed(reg, rows, m)
    requires CheckOk(rows[KeyOf(m) := RowAfter(reg, rows, m)], KeyOf(m))
    ensures SchemaOk(reg, Persisted(reg, rows, m, Resolve(Load(rows, KeyOf(m)), m)))
  {
    hide RowAfter, Persisted, Resolve;
    PutIsRow(reg, rows, m);
    var k, b := KeyOf(m), rows[KeyOf(m) := RowAfter(reg, rows, m)];
    forall j | j in b ensures CheckOk(b, j) {
      if j != k { assert CheckOk(rows, j); }
    }
    forall j, c | j in b && c in reg.columns(j.table) ensures LinkOk(reg, b, j, c) {
      if j in rows { assert LinkOk(reg, rows, j, c); }
      if j == k { WrittenCell(reg, rows, m, c); }
    }
  }

  /** A push that is new, passes the gate as `m` and names what is there. */
  ghost predicate Proper(reg: Registry, s: Sys, p: Partition, w: Env, sent: Mutation, m: Mutation) {
    && Well(reg, s, p, w, sent) && !sent.op.Delete? && Gate(reg, s.db.rows, p, w, sent) == Pass(m)
    && LinksNamed(reg, s.db.rows, m) && CheckOk(s.db.rows[KeyOf(m) := RowAfter(reg, s.db.rows, m)], KeyOf(m))
  }

  /** A row is there, with this clock. */
  predicate Dated(rows: Rows, k: Key, at: Clock) {
    k in rows && rows[k].hlc == at
  }

  /** A column of the row a write left: what it named, or what stood or took its default. */
  predicate Holding(reg: Registry, a: Rows, b: Rows, m: Mutation, c: Column) {
    Cell(b, KeyOf(m), c) ==
      if c in m.fields then Stored(m.fields[c]) else if KeyOf(m) in a then Cell(a, KeyOf(m), c) else Get(reg.defaults(m.table), c)
  }

  /** The founder's row a new trip comes with. */
  function Founding(p: Partition, w: Env, m: Mutation): set<Key> {
    if m.table.Trips? && p.feed.MasterFeed? then {Key(TripMembers, w.memberId)} else {}
  }

  /** The tables with one row more, and with a new trip its founder's. */
  ghost predicate Grown(reg: Registry, a: Rows, b: Rows, p: Partition, w: Env, m: Mutation) {
    && b.Keys == a.Keys + {KeyOf(m)} + Founding(p, w, m)
    && (forall j | j in a :: Load(b, j) == Load(a, j))
    && (forall c :: Holding(reg, a, b, m, c))
    && Load(b, KeyOf(m)) == Some(RowAfter(reg, a, m)) && Dated(b, KeyOf(m), m.hlc)
    && (forall j | j in Founding(p, w, m) :: Load(b, j) == Some(FounderRow(m, p.actor)))
  }

  lemma InsertGrows(reg: Registry, a: Rows, p: Partition, w: Env, m: Mutation)
    requires !m.op.Delete? && KeyOf(m) !in a && Key(TripMembers, w.memberId) !in a
    ensures Grown(reg, a, Written(reg, a, p, w, m), p, w, m) && Written(reg, a, p, w, m) != a
  {
    hide Written, RowAfter;
    var b, member := Written(reg, a, p, w, m), Key(TripMembers, w.memberId);
    forall j ensures j in b <==> j in a || j == KeyOf(m) || IsFounder(p, w, a, m, j) { WrittenRows(reg, a, p, w, m, j); }
    forall j | j in a ensures b[j] == a[j] { WrittenRows(reg, a, p, w, m, j); }
    WrittenRows(reg, a, p, w, m, KeyOf(m));
    WrittenRows(reg, a, p, w, m, member);
    forall c ensures Holding(reg, a, b, m, c) { WrittenCell(reg, a, m, c); }
    NewRowIsDated(reg, a, m);
  }

  lemma NewRowIsDated(reg: Registry, a: Rows, m: Mutation)
    requires !m.op.Delete? && KeyOf(m) !in a
    ensures RowAfter(reg, a, m).hlc == m.hlc
  {
  }

  /** A proper insert arrives: its row is there as named, and nothing else changed but for a new trip's founder. */
  lemma Arrives(reg: Registry, gen: Hlc.Gen, events: seq<Event>, s: Sys, p: Partition, w: Env, sent: Mutation, m: Mutation)
    requires Staged(reg, gen, events, s) && Proper(reg, s, p, w, sent, m) && KeyOf(m) !in s.db.rows
    ensures var e := Event.Push(p, sent, w);
      var b := Next(reg, s, e);
      Staged(reg, gen, events + [e], b) && Grown(reg, s.db.rows, b.db.rows, p, w, m) &&
      b.db.memo.Keys == s.db.memo.Keys + {sent.mutationId}
  {
    hide Staged, SchemaOk, Next, Persisted, Resolve, Gate, RowAfter, LinksNamed, Ordered, Kept, Clocked, Lawful, Grown, Written,
      Fair, Valid;
    StageIsKept(reg, gen, events, s);
    SaneIsSound(reg, s.db);
    GatedAsSent(reg, s.db.rows, p, w, sent, m);
    PutIsSound(reg, s.db.rows, m);
    InsertGrows(reg, s.db.rows, p, w, m);
    UpsertNeverDeletes(Load(s.db.rows, KeyOf(m)), m);
    Lands(reg, gen, events, s, p, w, sent, m);
  }

  /** A mutation no rule decides by more than its clock. */
  predicate Plainly(m: Mutation) {
    m.fields != map[] && forall c | c in m.fields :: Ordinary(c)
  }

  /** The tables with one row edited. */
  ghost predicate Edited(reg: Registry, a: Rows, b: Rows, m: Mutation) {
    && b.Keys == a.Keys && (forall j | j in a && j != KeyOf(m) :: Load(b, j) == Load(a, j))
    && (forall c :: Holding(reg, a, b, m, c))
    && Load(b, KeyOf(m)) == Some(RowAfter(reg, a, m)) && Dated(b, KeyOf(m), m.hlc)
  }

  /** A proper edit newer than its row is applied in full, and touches no other row. */
  lemma Edits(reg: Registry, gen: Hlc.Gen, events: seq<Event>, s: Sys, p: Partition, w: Env, sent: Mutation, m: Mutation)
    requires Staged(reg, gen, events, s) && Proper(reg, s, p, w, sent, m) && Older(s.db.rows, KeyOf(m), m.hlc) && Plainly(m)
    ensures var e := Event.Push(p, sent, w);
      var b := Next(reg, s, e);
      Staged(reg, gen, events + [e], b) && Edited(reg, s.db.rows, b.db.rows, m) && b.db.memo.Keys == s.db.memo.Keys + {sent.mutationId}
  {
    hide Staged, SchemaOk, Next, Persisted, Resolve, Gate, RowAfter, LinksNamed, Ordered, Kept, Lawful, Written, Wins, Edited, Fair, Valid;
    StageIsKept(reg, gen, events, s);
    SaneIsSound(reg, s.db);
    GatedAsSent(reg, s.db.rows, p, w, sent, m);
    PutIsSound(reg, s.db.rows, m);
    EditChanges(reg, s.db.rows, p, w, m);
    Lands(reg, gen, events, s, p, w, sent, m);
  }

  lemma EditChanges(reg: Registry, a: Rows, p: Partition, w: Env, m: Mutation)
    requires !m.op.Delete? && Clocked(reg, a) && Older(a, KeyOf(m), m.hlc) && Plainly(m)
    ensures Changes(a, m, Resolve(Load(a, KeyOf(m)), m))
    ensures Written(reg, a, p, w, m) != a && Edited(reg, a, Written(reg, a, p, w, m), m)
  {
    hide Written, RowAfter, Wins, Bounded;
    var b, row := Written(reg, a, p, w, m), a[KeyOf(m)];
    assert Bounded(row);
    forall c | c in m.fields ensures Wins(row, m, c) { NewerWins(row, m, c); }
    var some :| some in m.fields;
    assert some in Won(row, m, m.fields.Keys);
    forall j ensures j in b <==> j in a { WrittenRows(reg, a, p, w, m, j); }
    forall j | j in a && j != KeyOf(m) ensures b[j] == a[j] { WrittenRows(reg, a, p, w, m, j); }
    WrittenRows(reg, a, p, w, m, KeyOf(m));
    forall c ensures Holding(reg, a, b, m, c) { WrittenCell(reg, a, m, c); }
    NewerRowIsDated(reg, a, m);
  }

  lemma NewerRowIsDated(reg: Registry, a: Rows, m: Mutation)
    requires !m.op.Delete? && KeyOf(m) in a && m.hlc > a[KeyOf(m)].hlc
    ensures RowAfter(reg, a, m).hlc == m.hlc
  {
  }

  /** A named column's clock after a write: the mutation's where it won, and what it was where it lost. */
  lemma WrittenClock(reg: Registry, a: Rows, m: Mutation, c: Column)
    requires !m.op.Delete?
    requires if KeyOf(m) in a then c in a[KeyOf(m)].clocks else c in m.fields
    ensures var row := RowAfter(reg, a, m);
      c in row.clocks &&
      row.clocks[c] == if KeyOf(m) !in a || (c in m.fields && Wins(a[KeyOf(m)], m, c)) then m.hlc else a[KeyOf(m)].clocks[c]
  {
    hide Lost;
  }

  // ------------------------------------------------------------------- the deletes

  /** A delete of a row its endpoint's feed holds, newer than it, that its gate lets through. */
  ghost predicate Striking(reg: Registry, s: Sys, p: Partition, w: Env, sent: Mutation, m: Mutation) {
    && Well(reg, s, p, w, sent) && sent.op.Delete? && Gate(reg, s.db.rows, p, w, sent) == Pass(m)
    && Holds(s.db.rows, p.feed, KeyOf(sent)) && Older(s.db.rows, KeyOf(sent), sent.hlc) && !sent.table.Trips?
  }

  /** A trip outlives every delete but its own. */
  lemma TripOutlives(reg: Registry, rows: Rows, gone: Key, trip: string)
    requires Retiring.Lasting(reg) && Key(Trips, trip) in rows && gone != Key(Trips, trip)
    ensures Key(Trips, trip) in Deleted(reg, rows, gone)
  {
    hide Doomed, Hangs;
    if Key(Trips, trip) in Doomed(reg, rows, {gone}) {
      DoomedHang(reg, rows, {gone}, Key(Trips, trip));
      var _, _ := HangsBy(reg, rows, Key(Trips, trip), Doomed(reg, rows, {gone}));
    }
  }

  lemma DecidesToDelete(reg: Registry, s: Sys, p: Partition, w: Env, sent: Mutation, m: Mutation)
    requires Striking(reg, s, p, w, sent, m) && !Blocked(reg, s.db.rows, KeyOf(sent))
    ensures Resolve(Load(s.db.rows, KeyOf(m)), m).deleted
    ensures Decide(reg, s.db, w, p, sent) == Write(m, Resolve(Load(s.db.rows, KeyOf(m)), m), false)
  {
    hide SchemaOk, Blocked, Well, Scope, StampOwned;
    GatedAsSent(reg, s.db.rows, p, w, sent, m);
  }

  /** Nothing blocks it, so it is carried out, with a tombstone for the row and then one for each child. */
  lemma Strikes(reg: Registry, s: Sys, p: Partition, w: Env, sent: Mutation, m: Mutation)
    requires Retiring.Lasting(reg) && Sane(reg, s.db) && Striking(reg, s, p, w, sent, m) && !Blocked(reg, s.db.rows, KeyOf(sent))
    ensures var b := Next(reg, s, Event.Push(p, sent, w));
      && b.db.rows == Deleted(reg, s.db.rows, KeyOf(sent)) && b.gen == s.gen
      && LogOf(b.db, p.feed) == LogOf(s.db, p.feed) + Numbered(Tombstones(reg, s.db.rows, w, KeyOf(sent), sent.hlc), s.db.head)
  {
    hide SchemaOk, Blocked, Fair, Resolve, Doomed, Gate, Decide, Carry, Deleted, Noted, Retiring.Lasting;
    GatedAsSent(reg, s.db.rows, p, w, sent, m);
    DecidesToDelete(reg, s, p, w, sent, m);
    Retiring.UnblockedDeleteMeetsConstraints(reg, s.db.rows, KeyOf(sent));
    if p.feed.TripFeed? { TripOutlives(reg, s.db.rows, KeyOf(sent), p.feed.trip); }
    DeletedIsPut(reg, s.db.rows, m);
    DeleteCommits(reg, s.db, w, p, m, Resolve(Load(s.db.rows, KeyOf(m)), m), Tombstones(reg, s.db.rows, w, KeyOf(m), m.hlc));
    NotedLogs(reg, s.db, Deleted(reg, s.db.rows, KeyOf(m)), p.feed, Tombstones(reg, s.db.rows, w, KeyOf(m), m.hlc), p.feed);
  }

  lemma DeletedIsPut(reg: Registry, rows: Rows, m: Mutation)
    requires Resolve(Load(rows, KeyOf(m)), m).deleted
    ensures Persisted(reg, rows, m, Resolve(Load(rows, KeyOf(m)), m)) == Deleted(reg, rows, KeyOf(m))
  {
    hide Deleted, Resolve;
  }

  /** What it takes without naming it, or from another feed, that feed goes on reporting as there. */
  lemma StrikeGoesUntold(
    reg: Registry, gen: Hlc.Gen, events: seq<Event>, s: Sys, p: Partition, w: Env, sent: Mutation, m: Mutation, trip: string, k: Key)
    requires Staged(reg, gen, events, s) && Striking(reg, s, p, w, sent, m) && !Blocked(reg, s.db.rows, KeyOf(sent))
    requires reg.side(k.table) == OnTrip && Holds(s.db.rows, TripFeed(trip), k) && Key(Trips, trip) in s.db.rows
    requires k in Doomed(reg, s.db.rows, {KeyOf(sent)})
    requires TripFeed(trip) == p.feed ==> k != KeyOf(sent) && k !in Named(reg, s.db.rows, KeyOf(sent))
    ensures var e := Event.Push(p, sent, w);
      var b := Run(reg, Start(gen), events + [e]).db;
      && Timeline(reg, gen, events + [e])
      && Key(Trips, trip) in b.rows && k !in b.rows && !FaithfulAt(b, TripFeed(trip), k)
  {
    hide SchemaOk, Blocked, Fair, Gate, Doomed, Named, Kept, Clocked, Lawful, Runs, Next, Ordered, AllLive, Admissible, FaithfulAt, Took,
      Tombstones, Deleted, Valid;
    var e := Event.Push(p, sent, w);
    StageIsKept(reg, gen, events, s);
    LawfulIsLasting(reg);
    Strikes(reg, s, p, w, sent, m);
    PushIsAdmissible(reg, s, p, w, sent);
    OneMore(reg, gen, events, e);
    var b := Next(reg, s, e).db;
    var t := EventSteps(reg, s, e);
    TripOutlives(reg, s.db.rows, KeyOf(sent), trip);
    DoomedAreGone(reg, s.db.rows, KeyOf(sent));
    StruckIsRemoved(reg, s.db, b, sent, t);
    SteppedLog(reg, s.db, b, t, TripFeed(trip));
    StageIsFaithful(reg, gen, events, s, TripFeed(trip), k);
    StepKeepsFaithfulAt(reg, s.db, b, t, TripFeed(trip), k);
  }

  lemma DoomedAreGone(reg: Registry, rows: Rows, k: Key)
    ensures k in Doomed(reg, rows, {k}) && forall j | j in Doomed(reg, rows, {k}) :: j !in Deleted(reg, rows, k)
  {
    hide Doomed;
    DoomedIsClosed(reg, rows, {k});
  }

  lemma StageIsFaithful(reg: Registry, gen: Hlc.Gen, events: seq<Event>, s: Sys, f: Feed, k: Key)
    requires Staged(reg, gen, events, s) && FeedLives(s.db.rows, f) && reg.side(k.table) == SideOf(f)
    ensures FaithfulAt(s.db, f, k)
  {
    hide Timeline, Run, FaithfulAt, AllLive;
    assert Asked(reg, f, EVERY, k.table);
  }

  lemma SteppedLog(reg: Registry, a: Db, b: Db, t: Step, f: Feed)
    requires Took(reg, a, b, t) && FeedLives(b.rows, f)
    ensures LogOf(b, f) == LogOf(a, f) + (if f == t.p.feed then Numbered(t.notes, a.head) else [])
    ensures Acted(reg, a.rows, b.rows, t) && SchemaOk(reg, b.rows)
  {
  }

  /** A push after which its row is gone is a removal of it. */
  lemma StruckIsRemoved(reg: Registry, a: Db, b: Db, sent: Mutation, t: Step)
    requires Took(reg, a, b, t) && About(t, sent) && KeyOf(sent) in a.rows && KeyOf(sent) !in b.rows
    ensures t.act.Removed? && KeyOf(t.act.m) == KeyOf(sent)
  {
    hide SchemaOk, PassedGate, Blocked, AfterChange, Written;
    if t.act.Wrote? { WrittenRows(reg, a.rows, t.p, t.act.w, t.act.m, KeyOf(sent)); }
  }

  // ------------------------------------------------------------- refused deletes

  lemma DecidesToRefuse(reg: Registry, s: Sys, p: Partition, w: Env, sent: Mutation, m: Mutation)
    requires Striking(reg, s, p, w, sent, m) && Blocked(reg, s.db.rows, KeyOf(sent)) && p.feed.TripFeed?
    ensures Decide(reg, s.db, w, p, sent) == Refusal(m, StillReferenced, true)
  {
    hide Blocked, Well, Scope, StampOwned;
    GatedAsSent(reg, s.db.rows, p, w, sent, m);
  }

  /** A blocked one changes no row, and re-delivers the row and everything it names. */
  lemma RefusalRelogs(reg: Registry, s: Sys, p: Partition, w: Env, sent: Mutation, m: Mutation)
    requires Sane(reg, s.db) && Striking(reg, s, p, w, sent, m) && Blocked(reg, s.db.rows, KeyOf(sent)) && p.feed.TripFeed?
    ensures var b := Next(reg, s, Event.Push(p, sent, w));
      && b.db.rows == s.db.rows && b.gen == s.gen
      && LogOf(b.db, p.feed) == LogOf(s.db, p.feed) + Numbered(Relogged(reg, s.db.rows, w, m), s.db.head)
  {
    hide Blocked, Fair, SchemaOk, Gate, Decide, Reject, Relogged;
    DecidesToRefuse(reg, s, p, w, sent, m);
    RejectRelogs(reg, s.db, w, p, m, StillReferenced);
  }

  lemma RejectRelogs(reg: Registry, db: Db, w: Env, p: Partition, m: Mutation, reason: Reason)
    requires Sane(reg, db) && FeedLives(db.rows, p.feed)
    ensures var b := Reject(reg, db, w, p, m, reason, true).0;
      b.rows == db.rows && LogOf(b, p.feed) == LogOf(db, p.feed) + Numbered(Relogged(reg, db.rows, w, m), db.head)
  {
    hide SchemaOk, Relogged, Noted;
    NotedLogs(reg, db, db.rows, p.feed, Relogged(reg, db.rows, w, m), p.feed);
    EndShape(db, p, m, Rejecting(reg, db, w, m, reason, true));
  }

  /** So a named row its feed does not hold is reported there as alive. */
  lemma RefusalRevives(
    reg: Registry, gen: Hlc.Gen, events: seq<Event>, s: Sys, p: Partition, w: Env, sent: Mutation, m: Mutation, k: Key)
    requires Staged(reg, gen, events, s) && Striking(reg, s, p, w, sent, m) && Blocked(reg, s.db.rows, KeyOf(sent))
    requires p.feed.TripFeed? && k in Named(reg, s.db.rows, KeyOf(sent)) && !Holds(s.db.rows, p.feed, k)
    ensures var e := Event.Push(p, sent, w);
      var b := Run(reg, Start(gen), events + [e]).db;
      && Timeline(reg, gen, events + [e])
      && b.rows == s.db.rows && FeedLives(b.rows, p.feed) && !FaithfulAt(b, p.feed, k)
  {
    hide SchemaOk, Blocked, Fair, Gate, Named, Kept, Clocked, Lawful, Runs, Next, Ordered, AllLive, Admissible, Newest, Holds,
      Relogged, Valid;
    StageIsKept(reg, gen, events, s);
    RefusalRelogs(reg, s, p, w, sent, m);
    PushIsAdmissible(reg, s, p, w, sent);
    OneMore(reg, gen, events, Event.Push(p, sent, w));
    GatedAsSent(reg, s.db.rows, p, w, sent, m);
    RelogNames(reg, s.db.rows, w, m, k, s.db.head);
    NewestAppended(LogOf(s.db, p.feed), Numbered(Relogged(reg, s.db.rows, w, m), s.db.head), k);
  }

  lemma RelogNames(reg: Registry, rows: Rows, w: Env, m: Mutation, k: Key, head: nat)
    requires Fair(w) && m.op.Delete? && KeyOf(m) in rows && k in Named(reg, rows, KeyOf(m))
    ensures var more := Numbered(Relogged(reg, rows, w, m), head);
      Mentions(more, k) && Newest(more, k).Some? && !Newest(more, k).value.deleted
  {
    hide Named, Newest;
    KidsAreNamed(reg, rows, KeyOf(m), w, k);
    var kids := KidsOf(reg, rows, KeyOf(m), w);
    var i :| 0 <= i < |kids| && kids[i] == k;
    var more := Numbered(Relogged(reg, rows, w, m), head);
    assert more[i + 1].key == k;
    assert forall e | e in more :: !e.deleted;
  }
}
