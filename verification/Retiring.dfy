// A delete of shared master data either keeps the row and marks it, or really
// removes it with everything hanging off it (internal/store/master.go,
// partition.go); a prune removes an item only when nothing uses it
// (internal/store/master_prune_item.go).
module Retiring {
  import opened Values
  import opened Vocabulary
  import opened Merging
  import opened Registry
  import opened Database
  import opened Stamping
  import opened Guards
  import opened Pipeline
  import opened System
  import opened Steps
  import opened Effects
  import opened Cascading
  import opened Feeds
  import opened Clocks

  /** What the registry must say about rows that are kept instead of deleted. */
  ghost predicate Lasting(reg: Registry) {
    && (forall t | reg.retirable(t) :: reg.side(t) == OnMaster && (reg.guard(t) == Unguarded || reg.guard(t) == ValidKindSwitch))
    && (forall t :: reg.link(t, RetiredAt) == None)
    && (forall t, c, p | Restricts(reg, t, c, p) :: Reference(t, c) in reg.blockers(p))
    && (forall t, c, p, u, d | Restricts(reg, t, c, p) && reg.Cascades(p, d, u) :: u.Trips?)
    && (forall t :: reg.link(t, Kind) == None && reg.link(t, State) == None && reg.link(t, Role) == None)
    && (forall t, c | reg.Severable(t, c) :: !reg.link(t, c).value.mandatory)
    && (forall c, p :: !reg.Cascades(Trips, c, p))
  }

  /** A foreign key that refuses its parent's delete. */
  predicate Restricts(reg: Registry, t: Table, c: Column, p: Table) {
    var l := reg.link(t, c);
    l.Some? && l.value.parent == p && l.value.onDelete == Restrict
  }

  /** The write a blocked delete becomes cannot lose its own merge. */
  lemma RetireNeverLoses(row: Row, m: Mutation, now: string)
    requires Bounded(row) && m.hlc > row.hlc
    ensures var merged := Resolve(Some(row), RetireInstead(m, now));
      merged.applied == map[RetiredAt := Text(now)] && merged.conflicts == map[] && !merged.deleted && merged.rowHlc == m.hlc
  {
    var n := RetireInstead(m, now);
    NewerWins(row, n, RetiredAt);
  }

  /** And it meets every constraint the row met. */
  lemma RetireMeetsConstraints(reg: Registry, rows: Rows, m: Mutation, now: string)
    requires Lasting(reg) && SchemaOk(reg, rows) && KeyOf(m) in rows && Bounded(rows[KeyOf(m)]) && m.hlc > rows[KeyOf(m)].hlc
    requires !m.table.TripItems?
    ensures var n := RetireInstead(m, now);
      SchemaOk(reg, Persisted(reg, rows, n, Resolve(Some(rows[KeyOf(m)]), n)))
  {
    var k, n := KeyOf(m), RetireInstead(m, now);
    RetireNeverLoses(rows[k], m, now);
    var b := Persisted(reg, rows, n, Resolve(Some(rows[k]), n));
    assert b == rows[k := RowAfter(reg, rows, n)];
    forall j | j in b ensures CheckOk(b, j) {
      assert CheckOk(rows, j);
      WrittenCell(reg, rows, n, Kind);
      WrittenCell(reg, rows, n, Role);
    }
    forall j, c | j in b && c in reg.columns(j.table) ensures LinkOk(reg, b, j, c) {
      assert LinkOk(reg, rows, j, c);
      WrittenCell(reg, rows, n, c);
    }
  }

  /** A row a restricting key may name is doomed only as the row deleted, or with its trip. */
  lemma RestrictingParentStays(reg: Registry, rows: Rows, k: Key, t: Table, c: Column, x: Key)
    requires Lasting(reg) && k in rows && !k.table.Trips? && Restricts(reg, t, c, x.table) && x != k
    ensures x !in Doomed(reg, rows, {k})
  {
    if x in Doomed(reg, rows, {k}) {
      DoomedHang(reg, rows, {k}, x);
      var d, y := HangsBy(reg, rows, x, Doomed(reg, rows, {k}));
      if y != k {
        DoomedHang(reg, rows, {k}, y);
        var _, _ := HangsBy(reg, rows, y, Doomed(reg, rows, {k}));
      }
    }
  }

  /** A surviving link to a doomed row was one that lets go. */
  lemma DoomedTargetLetsGo(reg: Registry, rows: Rows, k: Key, j: Key, c: Column)
    requires Lasting(reg) && k in rows && !k.table.Trips? && !Blocked(reg, rows, k)
    requires j in Deleted(reg, rows, k) && TargetOf(reg, rows, j, c).Some? && TargetOf(reg, rows, j, c).value in Doomed(reg, rows, {k})
    ensures Cell(Deleted(reg, rows, k), j, c) == Null && !reg.link(j.table, c).value.mandatory
  {
    var x := TargetOf(reg, rows, j, c).value;
    DoomedIsClosed(reg, rows, {k});
    match reg.link(j.table, c).value.onDelete
    case Cascade => LinkDooms(reg, rows, j, c, Doomed(reg, rows, {k}));
    case SetNull => assert reg.Severable(j.table, c);
    case Restrict =>
      if x == k {
        assert Referenced(rows, Reference(j.table, c), k.id, if j.table == k.table then Some(k) else None);
      } else {
        RestrictingParentStays(reg, rows, k, j.table, c, x);
      }
  }

  lemma DeletedLinkOk(reg: Registry, rows: Rows, k: Key, j: Key, c: Column)
    requires Lasting(reg) && SchemaOk(reg, rows) && k in rows && !k.table.Trips? && !Blocked(reg, rows, k)
    requires j in Deleted(reg, rows, k) && c in reg.columns(j.table)
    ensures LinkOk(reg, Deleted(reg, rows, k), j, c)
  {
    DeletedCell(reg, rows, k, j, c);
    assert LinkOk(reg, rows, j, c);
    var x := TargetOf(reg, rows, j, c);
    if x.Some? && x.value in Doomed(reg, rows, {k}) { DoomedTargetLetsGo(reg, rows, k, j, c); }
  }

  /** A delete nothing blocks meets every constraint: what names a removed row goes, lets go, or was asked about. */
  lemma UnblockedDeleteMeetsConstraints(reg: Registry, rows: Rows, k: Key)
    requires Lasting(reg) && SchemaOk(reg, rows) && k in rows && !k.table.Trips? && !Blocked(reg, rows, k)
    ensures SchemaOk(reg, Deleted(reg, rows, k))
  {
    var b := Deleted(reg, rows, k);
    forall j | j in b ensures CheckOk(b, j) {
      assert CheckOk(rows, j);
      DeletedCell(reg, rows, k, j, Kind);
      DeletedCell(reg, rows, k, j, State);
      DeletedCell(reg, rows, k, j, Role);
    }
    forall j, c | j in b && c in reg.columns(j.table) ensures LinkOk(reg, b, j, c) {
      DeletedLinkOk(reg, rows, k, j, c);
    }
  }

  // ---------------------------------------------------------- retire, or remove

  /** The delete of a retirable row as anybody may push it, newer than the row. */
  ghost predicate Deletes(reg: Registry, db: Db, w: Env, p: Partition, m: Mutation) {
    && p.feed.MasterFeed? && !p.prune && m.op.Delete? && reg.retirable(m.table)
    && Valid(reg, m, p) && m.mutationId !in db.memo && w.accepts
    && KeyOf(m) in db.rows && m.hlc > db.rows[KeyOf(m)].hlc
  }

  function Restamped(reg: Registry, db: Db, w: Env, p: Partition, m: Mutation): Mutation {
    StampOwned(reg.stamp(m.table), m, KeyOf(m) in db.rows, p.actor, w)
  }

  /** The gate lets such a delete through, and the references decide which one it is. */
  lemma DeleteDecides(reg: Registry, db: Db, w: Env, p: Partition, m0: Mutation)
    requires Lasting(reg) && Deletes(reg, db, w, p, m0)
    ensures var m, row := Restamped(reg, db, w, p, m0), Some(db.rows[KeyOf(m0)]);
      Decide(reg, db, w, p, m0) ==
        if Blocked(reg, db.rows, KeyOf(m0)) then Write(RetireInstead(m, w.now), Resolve(row, RetireInstead(m, w.now)), true)
        else Write(m, Resolve(row, m), false)
  {
    var m := Restamped(reg, db, w, p, m0);
    assert Judge(reg, db.rows, m, p) == Pass(m);
  }

  /** An entry since `a` says the entity is there, or that it is gone. */
  predicate Says(a: Db, b: Db, f: Feed, k: Key, deleted: bool)
    requires |LogOf(a, f)| <= |LogOf(b, f)|
  {
    exists e | e in LogOf(b, f)[|LogOf(a, f)|..] :: e.key == k && e.deleted == deleted
  }

  lemma NotesSay(a: Db, b: Db, f: Feed, notes: seq<Note>, n: Note)
    requires LogOf(b, f) == LogOf(a, f) + Numbered(notes, a.head) && n in notes
    ensures Says(a, b, f, n.key, n.deleted)
  {
    var i :| 0 <= i < |notes| && notes[i] == n;
    assert LogOf(b, f)[|LogOf(a, f)|..] == Numbered(notes, a.head);
    assert Numbered(notes, a.head)[i] in Numbered(notes, a.head);
  }

  /** The entries of a retiring write. */
  function RetiringNotes(reg: Registry, db: Db, w: Env, p: Partition, n: Mutation): seq<Note> {
    [Note(KeyOf(n), false, n.hlc)] +
    AfterChange(reg, Written(reg, db.rows, p, w, n), w, p, n, Load(db.rows, KeyOf(n)), false, true)
  }

  /** The retiring write, as it commits. */
  lemma RetireCarries(reg: Registry, db: Db, w: Env, p: Partition, m: Mutation, n: Mutation)
    requires Lasting(reg) && Sane(reg, db) && w.accepts && p.feed.MasterFeed? && !m.table.TripItems? && !m.table.Trips?
    requires KeyOf(m) in db.rows && Bounded(db.rows[KeyOf(m)]) && m.hlc > db.rows[KeyOf(m)].hlc && n == RetireInstead(m, w.now)
    ensures var b := Carry(reg, db, w, p, n, Resolve(Some(db.rows[KeyOf(m)]), n), true).0;
      && b.rows == Written(reg, db.rows, p, w, n)
      && b.rows == db.rows[KeyOf(m) := Updated(db.rows[KeyOf(m)], Resolve(Some(db.rows[KeyOf(m)]), n))]
      && LogOf(b, MasterFeed) == LogOf(db, MasterFeed) + Numbered(RetiringNotes(reg, db, w, p, n), db.head)
  {
    hide LinkOk, Lasting, AfterChange, Numbered, Written, Carry, Updated, LiveLogs, LiveConflicts, Resolve;
    var notes := RetiringNotes(reg, db, w, p, n);
    RetireNeverLoses(db.rows[KeyOf(m)], m, w.now);
    RetireMeetsConstraints(reg, db.rows, m, w.now);
    assert RetiredAt in Resolve(Some(db.rows[KeyOf(m)]), n).applied;
    UpsertCommits(reg, db, w, p, n, Resolve(Some(db.rows[KeyOf(m)]), n), true, notes);
    UpdateIsWritten(reg, db.rows, p, w, n);
    NotedLogs(reg, db, Written(reg, db.rows, p, w, n), MasterFeed, notes, MasterFeed);
  }

  /** What a blocked delete is carried out as. */
  lemma BlockedDeleteCarries(reg: Registry, db: Db, w: Env, p: Partition, m0: Mutation)
    requires Lasting(reg) && Deletes(reg, db, w, p, m0) && Blocked(reg, db.rows, KeyOf(m0))
    ensures var n := RetireInstead(Restamped(reg, db, w, p, m0), w.now);
      Apply(reg, db, w, p, m0) == Carry(reg, db, w, p, n, Resolve(Some(db.rows[KeyOf(m0)]), n), true)
  {
    hide Lasting, Blocked, Decide, Carry;
    DeleteDecides(reg, db, w, p, m0);
  }

  /** A blocked delete, as it commits. */
  lemma RetireCommits(reg: Registry, db: Db, w: Env, p: Partition, m0: Mutation)
    requires Lasting(reg) && Sane(reg, db) && Clocked(reg, db.rows) && Deletes(reg, db, w, p, m0)
    requires reg.side(TripItems) == OnTrip && !reg.retirable(Trips) && Blocked(reg, db.rows, KeyOf(m0))
    ensures var b, n := Apply(reg, db, w, p, m0).0, RetireInstead(Restamped(reg, db, w, p, m0), w.now);
      && b.rows == Written(reg, db.rows, p, w, n)
      && b.rows == db.rows[KeyOf(m0) := Updated(db.rows[KeyOf(m0)], Resolve(Some(db.rows[KeyOf(m0)]), n))]
      && LogOf(b, MasterFeed) == LogOf(db, MasterFeed) + Numbered(RetiringNotes(reg, db, w, p, n), db.head)
  {
    hide Sane, Blocked, RetiringNotes, Numbered, Complete, Written, Apply, Carry, Updated, Resolve;
    var m := Restamped(reg, db, w, p, m0);
    BlockedDeleteCarries(reg, db, w, p, m0);
    RetireCarries(reg, db, w, p, m, RetireInstead(m, w.now));
  }

  /** The rows it leaves. */
  lemma RetireRows(reg: Registry, db: Db, w: Env, p: Partition, m0: Mutation)
    requires Lasting(reg) && Sane(reg, db) && Clocked(reg, db.rows) && Deletes(reg, db, w, p, m0)
    requires reg.side(TripItems) == OnTrip && !reg.retirable(Trips) && Blocked(reg, db.rows, KeyOf(m0))
    ensures var row, n := db.rows[KeyOf(m0)], RetireInstead(Restamped(reg, db, w, p, m0), w.now);
      Apply(reg, db, w, p, m0).0.rows == db.rows[KeyOf(m0) := Updated(row, Resolve(Some(row), n))]
  {
    hide SchemaOk, Clocked, Lasting, Bounded, Blocked, Apply, Updated;
    RetireCommits(reg, db, w, p, m0);
  }

  lemma MarkedRow(row: Row, m: Mutation, now: string)
    requires Bounded(row) && m.hlc > row.hlc
    ensures var after := Updated(row, Resolve(Some(row), RetireInstead(m, now)));
      Get(after.fields, RetiredAt) == Text(now) && after.hlc == m.hlc
  {
    RetireNeverLoses(row, m, now);
  }

  /** A blocked delete keeps the row and marks it, and touches no other. */
  lemma BlockedDeleteMarks(reg: Registry, db: Db, w: Env, p: Partition, m0: Mutation)
    requires Lasting(reg) && Sane(reg, db) && Clocked(reg, db.rows) && Deletes(reg, db, w, p, m0)
    requires reg.side(TripItems) == OnTrip && !reg.retirable(Trips) && Blocked(reg, db.rows, KeyOf(m0))
    ensures var b, k := Apply(reg, db, w, p, m0).0, KeyOf(m0);
      && b.rows.Keys == db.rows.Keys && (forall j | j in db.rows && j != k :: b.rows[j] == db.rows[j])
      && Cell(b.rows, k, RetiredAt) == Text(w.now) && b.rows[k].hlc == m0.hlc
  {
    hide SchemaOk, Lasting, Blocked, Apply, Updated, Complete;
    RetireRows(reg, db, w, p, m0);
    MarkedRow(db.rows[KeyOf(m0)], Restamped(reg, db, w, p, m0), w.now);
  }

  /** What a transaction leaves of the rows, and how it is answered. */
  lemma EndRows(db: Db, p: Partition, m: Mutation, e: Ending)
    ensures var (b, answer) := End(db, p, m, e);
      if Commits(p, e) then b.rows == e.rows && answer.Replied? && answer.outcome == e.outcome else b == db && answer == Failed
  {
    hide Commits, ConflictRows, LiveLogs, LiveConflicts, Numbered;
  }

  /** The retiring write ends well. */
  lemma RetireLands(reg: Registry, db: Db, w: Env, p: Partition, m: Mutation)
    requires Lasting(reg) && SchemaOk(reg, db.rows) && w.accepts && p.feed.MasterFeed? && !m.table.TripItems? && !m.table.Trips?
    requires KeyOf(m) in db.rows && Bounded(db.rows[KeyOf(m)]) && m.hlc > db.rows[KeyOf(m)].hlc
    ensures var n, row := RetireInstead(m, w.now), Some(db.rows[KeyOf(m)]);
      var e := Carrying(reg, db, w, p, n, Resolve(row, n), true);
      Commits(p, e) && !e.outcome.Rejected?
  {
    hide LinkOk, AfterChange, Cascaded, Relogged;
    RetireNeverLoses(db.rows[KeyOf(m)], m, w.now);
    RetireMeetsConstraints(reg, db.rows, m, w.now);
    var merged := Resolve(Some(db.rows[KeyOf(m)]), RetireInstead(m, w.now));
    assert RetiredAt in merged.applied;
  }

  /** So does the removing one. */
  lemma RemovalLands(reg: Registry, db: Db, w: Env, p: Partition, n: Mutation)
    requires Lasting(reg) && SchemaOk(reg, db.rows) && w.accepts && p.feed.MasterFeed? && !n.table.Trips?
    requires n.op.Delete? && KeyOf(n) in db.rows && !Blocked(reg, db.rows, KeyOf(n))
    ensures var e := Carrying(reg, db, w, p, n, Resolve(Some(db.rows[KeyOf(n)]), n), false);
      Commits(p, e) && !e.outcome.Rejected? && (KeyOf(n) !in e.rows <==> n.hlc > db.rows[KeyOf(n)].hlc)
  {
    hide LinkOk, Blocked, Relogged, Cascaded;
    UnblockedDeleteMeetsConstraints(reg, db.rows, KeyOf(n));
    DoomedIsClosed(reg, db.rows, {KeyOf(n)});
  }

  /** Either way the delete is answered, and not refused. */
  lemma DeleteIsAnswered(reg: Registry, db: Db, w: Env, p: Partition, m0: Mutation)
    requires Lasting(reg) && Sane(reg, db) && Clocked(reg, db.rows) && Deletes(reg, db, w, p, m0)
    requires reg.side(TripItems).OnTrip? && !reg.retirable(Trips)
    ensures Apply(reg, db, w, p, m0).1.Replied? && !Apply(reg, db, w, p, m0).1.outcome.Rejected?
    ensures !Blocked(reg, db.rows, KeyOf(m0)) ==> KeyOf(m0) !in Apply(reg, db, w, p, m0).0.rows
  {
    hide Blocked, Decide, Carrying, Commits, End, StampOwned, Complete, LinkOk;
    var m, k := Restamped(reg, db, w, p, m0), KeyOf(m0);
    StampKeeps(reg.stamp(m0.table), m0, k in db.rows, p.actor, w);
    DeleteDecides(reg, db, w, p, m0);
    if Blocked(reg, db.rows, k) {
      var n := RetireInstead(m, w.now);
      RetireLands(reg, db, w, p, m);
      EndRows(db, p, n, Carrying(reg, db, w, p, n, Resolve(Some(db.rows[k]), n), true));
    } else {
      RemovalLands(reg, db, w, p, m);
      EndRows(db, p, m, Carrying(reg, db, w, p, m, Resolve(Some(db.rows[k]), m), false));
    }
  }

  /** And it tells every device that the row and its children are there. */
  lemma BlockedDeleteTells(reg: Registry, db: Db, w: Env, p: Partition, m0: Mutation, j: Key)
    requires Lasting(reg) && Sane(reg, db) && Clocked(reg, db.rows) && Fair(w) && Deletes(reg, db, w, p, m0)
    requires reg.side(TripItems) == OnTrip && !reg.retirable(Trips) && Blocked(reg, db.rows, KeyOf(m0))
    requires j == KeyOf(m0) || j in Named(reg, Apply(reg, db, w, p, m0).0.rows, KeyOf(m0))
    ensures var b := Apply(reg, db, w, p, m0).0;
      |LogOf(db, MasterFeed)| <= |LogOf(b, MasterFeed)| && Says(db, b, MasterFeed, j, false)
  {
    var k, m := KeyOf(m0), Restamped(reg, db, w, p, m0);
    var n := RetireInstead(m, w.now);
    var all := Written(reg, db.rows, p, w, n);
    var notes := RetiringNotes(reg, db, w, p, n);
    assert notes == [Note(k, false, m0.hlc)] + AfterChange(reg, all, w, p, n, Some(db.rows[k]), false, true);
    RetireCommits(reg, db, w, p, m0);
    if j != k {
      KidsAreNamed(reg, all, k, w, j);
      KidIsNoted(KidsOf(reg, all, k, w), j, n.hlc);
    }
    NotesSay(db, Apply(reg, db, w, p, m0).0, MasterFeed, notes, Note(j, false, m0.hlc));
  }

  lemma KidIsNoted(kids: seq<Key>, j: Key, hlc: Clock)
    requires j in kids
    ensures Note(j, false, hlc) in Notes(kids, false, hlc)
  {
    var i :| 0 <= i < |kids| && kids[i] == j;
    assert Notes(kids, false, hlc)[i] == Note(j, false, hlc);
  }

  /** The commit of an unblocked delete. */
  lemma RemovalCommits(reg: Registry, db: Db, w: Env, p: Partition, m0: Mutation, notes: seq<Note>)
    requires Lasting(reg) && Sane(reg, db) && Deletes(reg, db, w, p, m0)
    requires !reg.retirable(Trips) && !Blocked(reg, db.rows, KeyOf(m0))
    requires notes == [Note(KeyOf(m0), true, m0.hlc)] + Notes(KidsOf(reg, db.rows, KeyOf(m0), w), true, m0.hlc)
    ensures var b := Apply(reg, db, w, p, m0).0;
      b.rows == Deleted(reg, db.rows, KeyOf(m0)) && LogOf(b, MasterFeed) == LogOf(db, MasterFeed) + Numbered(notes, db.head)
  {
    var m := Restamped(reg, db, w, p, m0);
    DeleteDecides(reg, db, w, p, m0);
    UnblockedDeleteMeetsConstraints(reg, db.rows, KeyOf(m0));
    DeleteCommits(reg, db, w, p, m, Resolve(Some(db.rows[KeyOf(m0)]), m), notes);
    NotedLogs(reg, db, Deleted(reg, db.rows, KeyOf(m0)), MasterFeed, notes, MasterFeed);
  }

  /** An unblocked one removes the row with its children, and leaves nothing pointing at it. */
  lemma UnblockedDeleteRemoves(reg: Registry, db: Db, w: Env, p: Partition, m0: Mutation)
    requires Lasting(reg) && Honest(reg) && Sane(reg, db) && Fair(w) && Deletes(reg, db, w, p, m0)
    requires !reg.retirable(Trips) && !Blocked(reg, db.rows, KeyOf(m0))
    ensures var b, k := Apply(reg, db, w, p, m0).0, KeyOf(m0);
      && b.rows == Deleted(reg, db.rows, k) && k !in b.rows
      && (forall r | r in reg.blockers(k.table) :: !Referenced(b.rows, r, k.id, None))
      && |LogOf(db, MasterFeed)| <= |LogOf(b, MasterFeed)|
      && Says(db, b, MasterFeed, k, true)
      && forall j | j in Named(reg, db.rows, k) :: j !in b.rows && Says(db, b, MasterFeed, j, true)
  {
    var k := KeyOf(m0);
    var notes := [Note(k, true, m0.hlc)] + Notes(KidsOf(reg, db.rows, k, w), true, m0.hlc);
    RemovalCommits(reg, db, w, p, m0, notes);
    var b := Apply(reg, db, w, p, m0).0;
    NotesSay(db, b, MasterFeed, notes, notes[0]);
    DoomedIsClosed(reg, db.rows, {k});
    NothingPointsBack(reg, db.rows, k);
    forall j | j in Named(reg, db.rows, k) ensures j !in b.rows && Says(db, b, MasterFeed, j, true) {
      KidsAreNamed(reg, db.rows, k, w, j);
      NamedIsDoomed(reg, db.rows, k, j);
      var kid := Note(j, true, m0.hlc);
      assert kid in Notes(KidsOf(reg, db.rows, k, w), true, m0.hlc);
      NotesSay(db, b, MasterFeed, notes, kid);
    }
  }

  lemma Unreferenced(rows: Rows, r: Reference, id: string, self: Option<Key>, j: Key)
    requires !Referenced(rows, r, id, self) && j in rows && self != Some(j)
    ensures !(j.table == r.table && Cell(rows, j, r.column) == Text(id))
  {
  }

  lemma NothingPointsBack(reg: Registry, rows: Rows, k: Key)
    requires k in rows && !Blocked(reg, rows, k)
    ensures forall r | r in reg.blockers(k.table) :: !Referenced(Deleted(reg, rows, k), r, k.id, None)
  {
    var b := Deleted(reg, rows, k);
    DoomedIsClosed(reg, rows, {k});
    forall r, j | r in reg.blockers(k.table) && j in b ensures !(j.table == r.table && Cell(b, j, r.column) == Text(k.id)) {
      DeletedCell(reg, rows, k, j, r.column);
      Unreferenced(rows, r, k.id, if r.table == k.table then Some(k) else None, j);
    }
  }

  // ----------------------------------------------------------------------- prune

  /** A prune refuses an item in use, and says so to no other device. */
  lemma PruneRefuses(reg: Registry, db: Db, w: Env, actor: string, m: Mutation)
    requires m.op.Delete? && m.table.Items? && reg.guard(Items) == Unguarded && ItemInUse(reg, db.rows, m.id)
    ensures var p := Partition(MasterFeed, actor, true);
      Decide(reg, db, w, p, m) == Refusal(Restamped(reg, db, w, p, m), StillReferenced, false)
  {
    var p := Partition(MasterFeed, actor, true);
    var n := Restamped(reg, db, w, p, m);
    assert Judge(reg, db.rows, n, p) == Pass(n);
  }

  /** So it changes no row and no log when something uses the item. */
  lemma PruneSparesTheUsed(reg: Registry, db: Db, w: Env, actor: string, m: Mutation, f: Feed)
    requires m.op.Delete? && m.table.Items? && reg.guard(Items) == Unguarded && ItemInUse(reg, db.rows, m.id)
    requires Sane(reg, db)
    ensures var b := Apply(reg, db, w, Partition(MasterFeed, actor, true), m).0;
      b.rows == db.rows && b.head == db.head && LogOf(b, f) == LogOf(db, f)
  {
    hide ItemInUse, SchemaOk, LiveLogs, LiveConflicts;
    var p := Partition(MasterFeed, actor, true);
    PruneRefuses(reg, db, w, actor, m);
    NotedLogs(reg, db, db.rows, MasterFeed, [], f);
  }

  /** What a caller is told: `Pruned` unless the push was refused. */
  predicate Pruned(a: Answer) {
    a.Replied? && a.outcome != Rejected
  }

  lemma ReferencedByAny(rows: Rows, r: Reference, id: string, self: Option<Key>)
    requires !Referenced(rows, r, id, None)
    ensures !Referenced(rows, r, id, self)
  {
  }

  lemma UnusedIsUnblocked(reg: Registry, rows: Rows, id: string)
    requires !ItemInUse(reg, rows, id)
    ensures !Blocked(reg, rows, Key(Items, id))
  {
    forall r | r in reg.blockers(Items) ensures !Referenced(rows, r, id, if r.table.Items? then Some(Key(Items, id)) else None) {
      ReferencedByAny(rows, r, id, if r.table.Items? then Some(Key(Items, id)) else None);
    }
  }

  /** A prune of an unused item is the plain delete. */
  lemma PruneDecides(reg: Registry, db: Db, w: Env, p: Partition, m: Mutation)
    requires p.feed.MasterFeed? && p.prune && m.op.Delete? && m.table.Items? && reg.guard(Items) == Unguarded
    requires !ItemInUse(reg, db.rows, m.id)
    ensures Decide(reg, db, w, p, m) ==
      Write(Restamped(reg, db, w, p, m), Resolve(Load(db.rows, KeyOf(m)), Restamped(reg, db, w, p, m)), false)
  {
    var n := Restamped(reg, db, w, p, m);
    assert Judge(reg, db.rows, n, p) == Pass(n);
    UnusedIsUnblocked(reg, db.rows, m.id);
  }

  /** The item is gone exactly when the clock read before the transaction still beat the row's in it; `Pruned` is answered either way. */
  lemma PruneIsTrueExactly(reg: Registry, db: Db, w: Env, actor: string, m: Mutation)
    requires Lasting(reg) && SchemaOk(reg, db.rows) && w.accepts
    requires reg.guard(Items) == Unguarded && reg.side(Items) == OnMaster
    requires m.op.Delete? && m.table.Items? && m.fields == map[] && m.mutationId !in db.memo
    requires KeyOf(m) in db.rows && !ItemInUse(reg, db.rows, m.id)
    ensures var (b, answer) := Apply(reg, db, w, Partition(MasterFeed, actor, true), m);
      Pruned(answer) && (KeyOf(m) !in b.rows <==> m.hlc > db.rows[KeyOf(m)].hlc)
  {
    hide SchemaOk, Lasting, Blocked, ItemInUse, Decide, Carrying, Commits, StampOwned, End;
    var p := Partition(MasterFeed, actor, true);
    var n := Restamped(reg, db, w, p, m);
    StampKeeps(reg.stamp(m.table), m, true, p.actor, w);
    UnusedIsUnblocked(reg, db.rows, m.id);
    PruneDecides(reg, db, w, p, m);
    RemovalLands(reg, db, w, p, n);
    EndRows(db, p, n, Carrying(reg, db, w, p, n, Resolve(Some(db.rows[KeyOf(n)]), n), false));
  }
}
