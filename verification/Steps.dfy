// Every event is one step, and every step keeps the database sane.
module Steps {
  import opened Values
  import opened Vocabulary
  import opened Merging
  import opened Registry
  import opened Database
  import opened Stamping
  import opened Guards
  import opened Pipeline
  import opened Restoring
  import opened System
  import Hlc

  /** What the registry must say about the tables the server itself writes. */
  ghost predicate Founded(reg: Registry) {
    && reg.side(Trips) == OnMaster && reg.side(TripMembers) == OnMaster
    && (forall c :: reg.link(TripMembers, c) == if c.TripId? then Some(Link(Trips, Cascade, true)) else None)
    && (forall t | reg.side(t) == OnTrip ::
         TripId in reg.columns(t) && reg.link(t, TripId) == Some(Link(Trips, Cascade, true)) && Get(reg.defaults(t), TripId) == Null)
    && reg.side(TripItems) == OnTrip
  }

  /** The step read the world it was given. */
  ghost predicate By(s: Step, w: Env) {
    s.act.Quiet? || s.act.w == w
  }

  /** The step is on the row a mutation is on, and deletes it only if the mutation does. */
  predicate About(s: Step, m: Mutation) {
    !s.act.Quiet? ==> KeyOf(s.act.m) == KeyOf(m) && (s.act.m.op.Delete? ==> m.op.Delete?)
  }

  /** A step that wrote, or did nothing. */
  predicate Writes(s: Step) {
    s.act.Quiet? || s.act.Wrote?
  }

  /** A write of the mutation sent, with a clock. */
  predicate Carries(t: Step, sent: Mutation, hlc: Clock) {
    t.act.Wrote? ==> t.act.sent == sent && t.act.m.hlc == hlc && !t.act.source.Claiming?
  }

  /** A write to a row that was there, with a clock. */
  predicate Rewrites(t: Step, db: Db, hlc: Clock) {
    t.act.Wrote? ==> KeyOf(t.act.m) in db.rows && t.act.m.hlc == hlc
  }

  /** A takeover's write, of this item and by this taker. */
  predicate FromClaim(s: Step, taker: string, item: string) {
    s.act.Wrote? ==> s.act.source.Claiming? && s.p.actor == taker && KeyOf(s.act.m) == Key(TripItems, item)
  }

  /** A write of `m`, made of `sent`. */
  predicate Puts(s: Step, sent: Mutation, m: Mutation) {
    s.act.Wrote? ==> s.act.m == m && s.act.sent == sent && !s.act.source.Claiming?
  }

  /** A write creates no row a tombstone outdates. */
  predicate PutsNewly(db: Db, s: Step) {
    s.act.Wrote? ==> NewlyNamed(db, s.p.feed, s.act.m)
  }

  /** Rows written with no link removed keep every link of the others. */
  lemma AddingKeepsLinks(reg: Registry, a: Rows, b: Rows, k: Key, c: Column)
    requires k in a && k in b && a[k].fields == b[k].fields && a.Keys <= b.Keys && LinkOk(reg, a, k, c)
    ensures LinkOk(reg, b, k, c)
  {
  }

  /** A founder's membership row meets every constraint once the trip is there. */
  lemma FounderIsSound(reg: Registry, rows: Rows, k: Key, m: Mutation, actor: string)
    requires Founded(reg) && SchemaOk(reg, rows) && Key(Trips, m.id) in rows
    requires k.table.TripMembers? && k !in rows
    ensures SchemaOk(reg, rows[k := FounderRow(m, actor)])
  {
    var b := rows[k := FounderRow(m, actor)];
    forall j | j in b ensures CheckOk(b, j) {
      if j != k { assert CheckOk(rows, j); }
    }
    forall j, c | j in b && c in reg.columns(j.table) ensures LinkOk(reg, b, j, c) {
      if j != k { AddingKeepsLinks(reg, rows, b, j, c); }
    }
  }

  /** A row of a trip table is some trip's, and the trip is there. */
  lemma TripIsThere(reg: Registry, rows: Rows, k: Key)
    requires Founded(reg) && SchemaOk(reg, rows) && k in rows && reg.side(k.table) == OnTrip
    ensures Cell(rows, k, TripId).Text? && Key(Trips, Cell(rows, k, TripId).text) in rows
  {
    assert LinkOk(reg, rows, k, TripId);
  }

  /** The logs after a commit, feed by feed. */
  lemma NotedLogs(reg: Registry, db: Db, rows: Rows, f: Feed, notes: seq<Note>, g: Feed)
    requires Sane(reg, db) && (notes != [] ==> FeedLives(rows, f))
    ensures LogOf(Noted(db, rows, f, notes), g) ==
      if !FeedLives(rows, g) then [] else LogOf(db, g) + (if g == f then Numbered(notes, db.head) else [])
  {
  }

  /** A transaction that commits what a step says takes that step. */
  lemma CommitTakes(reg: Registry, db: Db, b: Db, s: Step)
    requires Sane(reg, db) && SchemaOk(reg, b.rows)
    requires Acted(reg, db.rows, b.rows, s)
    requires s.notes != [] ==> FeedLives(b.rows, s.p.feed)
    requires PutsNewly(db, s)
    requires b.logs == Noted(db, b.rows, s.p.feed, s.notes).logs && b.head == db.head + |s.notes|
    ensures Took(reg, db, b, s)
  {
    hide Acted, LinkOk;
    forall g ensures LogOf(b, g) == LogAfter(db, b.rows, s, g) {
      NotedLogs(reg, db, b.rows, s.p.feed, s.notes, g);
    }
  }

  /** A transaction that rolls back takes the quiet step. */
  lemma NothingTakes(reg: Registry, db: Db, p: Partition)
    requires Sane(reg, db)
    ensures Took(reg, db, db, Step(p, Quiet, []))
  {
    hide LinkOk, CheckOk, Relogged, Written, PassedGate, Tombstones, AfterChange;
    forall g ensures LogOf(db, g) == LogAfter(db, db.rows, Step(p, Quiet, []), g) {
      assert Numbered([], db.head) == [];
    }
  }

  /** A transaction commits when the feed it tells lives on, or it tells nothing. */
  lemma EndsOrNot(db: Db, p: Partition, m: Mutation, e: Ending)
    requires e.Ended? && e.lost == map[]
    ensures Commits(p, e) <==> FeedLives(e.rows, p.feed) || e.notes == []
    ensures !Commits(p, e) ==> End(db, p, m, e).0 == db
  {
    hide Noted;
  }

  lemma RejectTakes(reg: Registry, db: Db, w: Env, p: Partition, m: Mutation, reason: Reason, relog: bool) returns (s: Step)
    requires Sane(reg, db)
    requires relog ==> reg.side(m.table) == SideOf(p.feed) && (KeyOf(m) in db.rows ==> Holds(db.rows, p.feed, KeyOf(m)))
    ensures Took(reg, db, Reject(reg, db, w, p, m, reason, relog).0, s) && s.p == p && By(s, w) && !s.act.Wrote?
    ensures About(s, m)
  {
    hide SchemaOk, Relogged, Noted, End, Commits;
    var notes := if relog then Relogged(reg, db.rows, w, m) else [];
    var b := Reject(reg, db, w, p, m, reason, relog).0;
    if !FeedLives(db.rows, p.feed) && notes != [] {
      s := Step(p, Quiet, []);
      NothingTakes(reg, db, p);
      EndsOrNot(db, p, m, Rejecting(reg, db, w, m, reason, relog));
    } else {
      s := Step(p, if relog then Refused(w, m) else Quiet, notes);
      EndsOrNot(db, p, m, Rejecting(reg, db, w, m, reason, relog));
      EndShape(db, p, m, Rejecting(reg, db, w, m, reason, relog));
      CommitTakes(reg, db, b, s);
    }
  }

  /** What the steps before the write hand to it. */
  ghost predicate Ready(reg: Registry, db: Db, w: Env, p: Partition, sent: Mutation, m: Mutation, merged: MergeResult, retired: bool) {
    && reg.side(m.table) == SideOf(p.feed) && m.hlc > 0
    && merged == Resolve(Load(db.rows, KeyOf(m)), m)
    && (KeyOf(m) in db.rows ==> Holds(db.rows, p.feed, KeyOf(m)))
    && Sourced(reg, db.rows, p, w, sent, m, if retired then Retiring else Gated)
    && (m.op.Delete? && merged.deleted && KeyOf(m) in db.rows ==> !Blocked(reg, db.rows, KeyOf(m)))
    && (!m.op.Delete? ==> NewlyNamed(db, p.feed, m))
  }

  lemma NotedShape(db: Db, conflicts: map<ConflictId, Conflict>, rows: Rows, f: Feed, notes: seq<Note>)
    ensures var b := Noted(db.(conflicts := conflicts), rows, f, notes);
      b.rows == rows && b.logs == Noted(db, rows, f, notes).logs && b.head == db.head + |notes|
  {
  }

  /** What a commit leaves of rows and logs. */
  lemma EndShape(db: Db, p: Partition, m: Mutation, e: Ending)
    requires e.Ended? && Commits(p, e)
    ensures var b := End(db, p, m, e).0;
      b.rows == e.rows && b.logs == Noted(db, e.rows, p.feed, e.notes).logs && b.head == db.head + |e.notes|
  {
    NotedShape(db, db.conflicts, e.rows, p.feed, e.notes);
  }

  /** The commit of an accepted delete, spelled out. */
  lemma DeleteCommits(reg: Registry, db: Db, w: Env, p: Partition, m: Mutation, merged: MergeResult, notes: seq<Note>)
    requires merged.deleted && KeyOf(m) in db.rows && Accepts(reg, w, Persisted(reg, db.rows, m, merged))
    requires notes == Tombstones(reg, db.rows, w, KeyOf(m), m.hlc)
    ensures var b, rows := Carry(reg, db, w, p, m, merged, false).0, Deleted(reg, db.rows, KeyOf(m));
      if !FeedLives(rows, p.feed) then b == db
      else b.rows == rows && b.logs == Noted(db, rows, p.feed, notes).logs && b.head == db.head + |notes|
  {
    assert AfterChange(reg, Deleted(reg, db.rows, KeyOf(m)), w, p, m, Load(db.rows, KeyOf(m)), true, false) == [];
    assert notes + [] == notes;
    if FeedLives(Deleted(reg, db.rows, KeyOf(m)), p.feed) {
      EndShape(db, p, m, Carrying(reg, db, w, p, m, merged, false));
    }
  }

  lemma DeleteTakes(reg: Registry, db: Db, w: Env, p: Partition, sent: Mutation, m: Mutation, merged: MergeResult)
    returns (s: Step)
    requires Sane(reg, db) && Older(db.rows, KeyOf(m), m.hlc) && m.op.Delete? && merged.deleted
    requires reg.side(m.table) == SideOf(p.feed) && PassedGate(reg, db.rows, p, w, sent, m) && !Blocked(reg, db.rows, KeyOf(m))
    requires Accepts(reg, w, Persisted(reg, db.rows, m, merged))
    ensures Took(reg, db, Carry(reg, db, w, p, m, merged, false).0, s) && s.p == p && By(s, w) && !s.act.Wrote?
    ensures About(s, m)
  {
    hide Carry, Noted, LinkOk, Blocked, PassedGate, Doomed;
    var rows, notes := Deleted(reg, db.rows, KeyOf(m)), Tombstones(reg, db.rows, w, KeyOf(m), m.hlc);
    DeleteCommits(reg, db, w, p, m, merged, notes);
    if !FeedLives(rows, p.feed) {
      s := Step(p, Quiet, []);
      NothingTakes(reg, db, p);
    } else {
      s := Step(p, Removed(w, sent, m), notes);
      CommitTakes(reg, db, Carry(reg, db, w, p, m, merged, false).0, s);
    }
  }

  lemma PutKeys(reg: Registry, rows: Rows, m: Mutation)
    requires !m.op.Delete?
    ensures Persisted(reg, rows, m, Resolve(Load(rows, KeyOf(m)), m)).Keys == rows.Keys + {KeyOf(m)}
  {
  }

  lemma WrittenIsPut(reg: Registry, rows: Rows, p: Partition, w: Env, m: Mutation)
    ensures var put := Persisted(reg, rows, m, Resolve(Load(rows, KeyOf(m)), m));
      Written(reg, rows, p, w, m) ==
        if Founds(p, m, KeyOf(m) in rows, false) then put[Key(TripMembers, w.memberId) := FounderRow(m, p.actor)] else put
  {
  }

  /** An accepted upsert, founder included, meets every constraint. */
  lemma WrittenIsSound(reg: Registry, rows: Rows, p: Partition, w: Env, m: Mutation)
    requires Founded(reg) && !m.op.Delete?
    requires SchemaOk(reg, Persisted(reg, rows, m, Resolve(Load(rows, KeyOf(m)), m)))
    requires Founds(p, m, KeyOf(m) in rows, false) ==> Key(TripMembers, w.memberId) !in rows
    ensures SchemaOk(reg, Written(reg, rows, p, w, m))
  {
    var put, member := Persisted(reg, rows, m, Resolve(Load(rows, KeyOf(m)), m)), Key(TripMembers, w.memberId);
    PutKeys(reg, rows, m);
    if Founds(p, m, KeyOf(m) in rows, false) {
      FounderIsSound(reg, put, member, m, p.actor);
    }
    WrittenIsPut(reg, rows, p, w, m);
  }

  /** A founder's id that is in use rolls the transaction back. */
  lemma FounderIsTaken(reg: Registry, db: Db, w: Env, p: Partition, m: Mutation, merged: MergeResult, retired: bool)
    requires merged == Resolve(Load(db.rows, KeyOf(m)), m) && !m.op.Delete? && Changes(db.rows, m, merged)
    requires Accepts(reg, w, Persisted(reg, db.rows, m, merged))
    requires Founds(p, m, KeyOf(m) in db.rows, false) && Key(TripMembers, w.memberId) in db.rows
    ensures Carry(reg, db, w, p, m, merged, retired).0 == db
  {
    hide LinkOk, Inserted, Updated, AfterChange;
  }

  lemma UpsertTakes(reg: Registry, db: Db, w: Env, p: Partition, sent: Mutation, m: Mutation, merged: MergeResult, retired: bool)
    returns (s: Step)
    requires Founded(reg) && Sane(reg, db) && Ready(reg, db, w, p, sent, m, merged, retired)
    requires !m.op.Delete? && Changes(db.rows, m, merged)
    requires Accepts(reg, w, Persisted(reg, db.rows, m, merged))
    ensures Took(reg, db, Carry(reg, db, w, p, m, merged, retired).0, s) && s.p == p && By(s, w)
    ensures Puts(s, sent, m) && About(s, m)
  {
    hide LinkOk, Blocked, Carry, Noted, Resolve, Persisted, AfterChange;
    if Founds(p, m, KeyOf(m) in db.rows, false) && Key(TripMembers, w.memberId) in db.rows {
      FounderIsTaken(reg, db, w, p, m, merged, retired);
    }
    var k, all, founds := KeyOf(m), Written(reg, db.rows, p, w, m), Founds(p, m, KeyOf(m) in db.rows, false);
    var b := Carry(reg, db, w, p, m, merged, retired).0;
    assert k.table.Trips? ==> k != Key(TripMembers, w.memberId);
    if founds && Key(TripMembers, w.memberId) in db.rows {
      s := Step(p, Quiet, []);
      NothingTakes(reg, db, p);
    } else {
      WrittenIsSound(reg, db.rows, p, w, m);
      var notes := [Note(k, false, m.hlc)] + AfterChange(reg, all, w, p, m, Load(db.rows, k), false, retired);
      UpsertCommits(reg, db, w, p, m, merged, retired, notes);
      if !FeedLives(all, p.feed) {
        s := Step(p, Quiet, []);
        NothingTakes(reg, db, p);
      } else {
        s := Step(p, Wrote(w, sent, m, if retired then Retiring else Gated), notes);
        CommitTakes(reg, db, b, s);
      }
    }
  }

  /** The commit of an accepted upsert, spelled out. */
  lemma UpsertCommits(reg: Registry, db: Db, w: Env, p: Partition, m: Mutation, merged: MergeResult, retired: bool, notes: seq<Note>)
    requires merged == Resolve(Load(db.rows, KeyOf(m)), m)
    requires !m.op.Delete? && Changes(db.rows, m, merged) && Accepts(reg, w, Persisted(reg, db.rows, m, merged))
    requires Founds(p, m, KeyOf(m) in db.rows, false) ==> Key(TripMembers, w.memberId) !in db.rows
    requires notes == [Note(KeyOf(m), false, m.hlc)] +
      AfterChange(reg, Written(reg, db.rows, p, w, m), w, p, m, Load(db.rows, KeyOf(m)), false, retired)
    ensures var b, all := Carry(reg, db, w, p, m, merged, retired).0, Written(reg, db.rows, p, w, m);
      if !FeedLives(all, p.feed) then b == db
      else b.rows == all && b.logs == Noted(db, all, p.feed, notes).logs && b.head == db.head + |notes|
  {
    var put, member := Persisted(reg, db.rows, m, merged), Key(TripMembers, w.memberId);
    var all := Written(reg, db.rows, p, w, m);
    WrittenIsPut(reg, db.rows, p, w, m);
    assert [Note(KeyOf(m), false, m.hlc)] + Cascaded(reg, db.rows, w, m, merged.deleted) == [Note(KeyOf(m), false, m.hlc)];
  }

  /** A merge that left nothing to write is the quiet step, whatever it logs. */
  lemma UnchangedTakes(reg: Registry, db: Db, w: Env, p: Partition, m: Mutation, merged: MergeResult, retired: bool)
    requires Sane(reg, db) && !Changes(db.rows, m, merged)
    ensures Took(reg, db, Carry(reg, db, w, p, m, merged, retired).0, Step(p, Quiet, []))
  {
    var e := Carrying(reg, db, w, p, m, merged, retired);
    if Commits(p, e) {
      NotedShape(db, db.conflicts, db.rows, p.feed, []);
      CommitTakes(reg, db, End(db, p, m, e).0, Step(p, Quiet, []));
    } else {
      NothingTakes(reg, db, p);
    }
  }

  lemma CarryTakes(reg: Registry, db: Db, w: Env, p: Partition, sent: Mutation, m: Mutation, merged: MergeResult, retired: bool)
    returns (s: Step)
    requires Founded(reg) && Sane(reg, db) && Ready(reg, db, w, p, sent, m, merged, retired)
    ensures Took(reg, db, Carry(reg, db, w, p, m, merged, retired).0, s) && s.p == p && By(s, w)
    ensures Puts(s, sent, m) && About(s, m)
  {
    hide End, Took, Founded, SchemaOk;
    if !Changes(db.rows, m, merged) {
      s := Step(p, Quiet, []);
      UnchangedTakes(reg, db, w, p, m, merged, retired);
    } else if !Accepts(reg, w, Persisted(reg, db.rows, m, merged)) {
      s := RejectTakes(reg, db, w, p, m, ConstraintViolated, true);
    } else if m.op.Delete? {
      s := DeleteTakes(reg, db, w, p, sent, m, merged);
    } else {
      s := UpsertTakes(reg, db, w, p, sent, m, merged, retired);
    }
  }

  lemma GateConfines(reg: Registry, rows: Rows, p: Partition, w: Env, sent: Mutation, m: Mutation)
    requires Founded(reg) && SchemaOk(reg, rows) && PassedGate(reg, rows, p, w, sent, m)
    requires reg.side(m.table) == SideOf(p.feed)
    ensures KeyOf(m) in rows ==> Holds(rows, p.feed, KeyOf(m))
  {
    GateLets(reg, rows, p, w, sent, m);
    if KeyOf(m) in rows && p.feed.TripFeed? { TripIsThere(reg, rows, KeyOf(m)); }
  }

  /** What the decision about a pushed mutation hands on. */
  ghost predicate Hands(reg: Registry, db: Db, w: Env, p: Partition, m0: Mutation, plan: Plan) {
    && plan.m.mutationId == m0.mutationId
    && KeyOf(plan.m) == KeyOf(m0) && plan.m.hlc == m0.hlc && (plan.m.op.Delete? ==> m0.op.Delete?)
    && (plan.Write? ==> Ready(reg, db, w, p, m0, plan.m, plan.merged, plan.retired))
    && (plan.Refusal? && plan.relog && KeyOf(m0) in db.rows ==> Holds(db.rows, p.feed, KeyOf(m0)))
  }

  /** The steps before the write hand over what the write relies on. */
  lemma DecideIsReady(reg: Registry, db: Db, w: Env, p: Partition, m0: Mutation)
    requires Founded(reg) && Sane(reg, db) && m0.hlc > 0 && Valid(reg, m0, p)
    ensures Hands(reg, db, w, p, m0, Decide(reg, db, w, p, m0))
  {
    hide Scope, StampOwned, Judged, Hands, Founded, LinkOk;
    var m1 := StampOwned(reg.stamp(m0.table), m0, KeyOf(m0) in db.rows, p.actor, w);
    ScopeIsSound(reg, db.rows, m1, p);
    StampKeeps(reg.stamp(m0.table), m0, KeyOf(m0) in db.rows, p.actor, w);
    var v := Scope(reg, db.rows, m1, p);
    if v.Pass? { GateConfines(reg, db.rows, p, w, m0, v.m); }
    JudgedIsReady(reg, db, w, p, m0, m1, v);
  }

  /** The verdict lets through a row of the partition's own feed. */
  ghost predicate Confining(reg: Registry, db: Db, w: Env, p: Partition, m0: Mutation, v: Verdict) {
    v.Pass? ==> PassedGate(reg, db.rows, p, w, m0, v.m) && (KeyOf(v.m) in db.rows ==> Holds(db.rows, p.feed, KeyOf(v.m)))
  }

  /** Whatever the gate said, if it let through rows of the partition's own feed. */
  lemma JudgedIsReady(reg: Registry, db: Db, w: Env, p: Partition, m0: Mutation, m1: Mutation, v: Verdict)
    requires Founded(reg) && Sane(reg, db) && m0.hlc > 0 && reg.side(m0.table) == SideOf(p.feed)
    requires m1 == m0.(fields := m1.fields) && Sound(v, m1) && Confining(reg, db, w, p, m0, v)
    ensures Hands(reg, db, w, p, m0, Judged(reg, db, w, p, m1, v))
  {
    hide SchemaOk, Founded, Blocked, PassedGate, Won, Lost, Stamped, Doomed;
  }

  /** A pushed mutation, whatever becomes of it, is one step. */
  lemma PushTakes(reg: Registry, db: Db, w: Env, p: Partition, m0: Mutation) returns (s: Step)
    requires Founded(reg) && Sane(reg, db) && m0.hlc > 0
    ensures Took(reg, db, Apply(reg, db, w, p, m0).0, s) && s.p == p && By(s, w)
    ensures Carries(s, m0, m0.hlc) && About(s, m0) && (!s.act.Quiet? ==> m0.mutationId !in db.memo)
  {
    if !Valid(reg, m0, p) || m0.mutationId in db.memo {
      s := Step(p, Quiet, []);
      NothingTakes(reg, db, p);
    } else {
      DecideIsReady(reg, db, w, p, m0);
      match Decide(reg, db, w, p, m0)
      case Refusal(m, reason, relog) =>
        s := RejectTakes(reg, db, w, p, m, reason, relog);
      case Write(m, merged, retired) =>
        s := CarryTakes(reg, db, w, p, m0, m, merged, retired);
    }
  }

  /** The rows of an update, spelled out. */
  lemma UpdateIsWritten(reg: Registry, rows: Rows, p: Partition, w: Env, m: Mutation)
    requires KeyOf(m) in rows && !m.op.Delete?
    ensures Written(reg, rows, p, w, m) == rows[KeyOf(m) := Updated(rows[KeyOf(m)], Resolve(Some(rows[KeyOf(m)]), m))]
  {
    WrittenIsPut(reg, rows, p, w, m);
  }

  lemma WriteBackCommits(reg: Registry, db: Db, g: Hlc.Gen, w: Env, p: Partition, r: Reading, m: Mutation, notes: seq<Note>)
    requires r.key in db.rows && KeyOf(m) == r.key && WriteBack(reg, db, g, w, p, r, m).2.Restored?
    requires var rows := db.rows[r.key := Updated(db.rows[r.key], Resolve(Some(db.rows[r.key]), m))];
      notes == [Note(r.key, false, m.hlc)] + AfterChange(reg, rows, w, p, m, Some(db.rows[r.key]), false, false)
    ensures var b := WriteBack(reg, db, g, w, p, r, m).0;
      && b.rows == db.rows[r.key := Updated(db.rows[r.key], Resolve(Some(db.rows[r.key]), m))]
      && SchemaOk(reg, b.rows) && FeedLives(b.rows, p.feed)
      && b.logs == Noted(db, b.rows, p.feed, notes).logs && b.head == db.head + |notes|
  {
    var rows := db.rows[r.key := Updated(db.rows[r.key], Resolve(Some(db.rows[r.key]), m))];
    NotedShape(db, Claimed(db.conflicts, r.ids), rows, p.feed, notes);
  }

  lemma TakeOverCommits(reg: Registry, db: Db, g: Hlc.Gen, w: Env, trip: string, item: string, taker: string, wall: int)
    requires TakeOver(reg, db, g, w, trip, item, taker, wall).2.TakenOver?
    ensures var (b, g1, _) := TakeOver(reg, db, g, w, trip, item, taker, wall);
      var m := TakeOverMutation(item, taker, w.now, Hlc.Rank(g1.Reading()));
      && KeyOf(m) in db.rows && Cell(db.rows, KeyOf(m), State) == Text(PACKING_NOW) && Cell(db.rows, KeyOf(m), TripId) == Text(trip)
      && b.rows == db.rows[KeyOf(m) := Updated(db.rows[KeyOf(m)], Resolve(Some(db.rows[KeyOf(m)]), m))]
      && SchemaOk(reg, b.rows) && FeedLives(b.rows, TripFeed(trip))
      && b.logs == Noted(db, b.rows, TripFeed(trip), [Note(KeyOf(m), false, m.hlc)]).logs && b.head == db.head + 1
  {
  }

  lemma WriteBackTakes(reg: Registry, db: Db, g: Hlc.Gen, w: Env, p: Partition, r: Reading, m: Mutation) returns (s: Step)
    requires Founded(reg) && Sane(reg, db) && r.key in db.rows && KeyOf(m) == r.key && m.op.Upsert?
    requires reg.side(m.table) == SideOf(p.feed)
    requires PassedGate(reg, db.rows, p, w, RestoringMutation(r), m)
    ensures Took(reg, db, WriteBack(reg, db, g, w, p, r, m).0, s) && s.p == p && By(s, w)
    ensures Writes(s) && Puts(s, RestoringMutation(r), m)
  {
    hide LinkOk, Resolve, Noted, Written, PassedGate, AfterChange;
    if !WriteBack(reg, db, g, w, p, r, m).2.Restored? {
      s := Step(p, Quiet, []);
      NothingTakes(reg, db, p);
    } else {
      UpdateIsWritten(reg, db.rows, p, w, m);
      var rows := Written(reg, db.rows, p, w, m);
      var notes := [Note(r.key, false, m.hlc)] + AfterChange(reg, rows, w, p, m, Some(db.rows[r.key]), false, false);
      WriteBackCommits(reg, db, g, w, p, r, m, notes);
      s := Step(p, Wrote(w, RestoringMutation(r), m, Gated), notes);
      CommitTakes(reg, db, WriteBack(reg, db, g, w, p, r, m).0, s);
    }
  }

  /** A revert is a step too: a gated write of the row it restores, or nothing. */
  lemma RevertTakes(reg: Registry, db: Db, g: Hlc.Gen, w: Env, p: Partition, r: Reading, wall: int) returns (s: Step)
    requires Founded(reg) && Sane(reg, db)
    ensures Took(reg, db, Restore(reg, db, g, w, p, r, wall).0, s) && s.p == p && By(s, w)
    ensures var minted := Hlc.Rank(Restore(reg, db, g, w, p, r, wall).1.Reading());
      Writes(s) && Rewrites(s, db, minted) && Carries(s, RestoringMutation(r), minted)
  {
    hide SchemaOk, Founded, Accepts, AfterChange;
    var m0 := RestoringMutation(r);
    ScopeIsSound(reg, db.rows, StampOwned(reg.stamp(m0.table), m0, r.key in db.rows, p.actor, w), p);
    if Restore(reg, db, g, w, p, r, wall).0 == db {
      s := Step(p, Quiet, []);
      NothingTakes(reg, db, p);
    } else {
      var m := Reissued(g, db.rows[r.key], GatedRestore(reg, db.rows, w, p, r).m, wall);
      s := WriteBackTakes(reg, db, MintedAfter(g, db.rows[r.key].hlc, wall), w, p, r, m);
    }
  }

  /** A takeover's write, as a step on the tables. */
  lemma ClaimActs(reg: Registry, a: Rows, p: Partition, w: Env, m: Mutation)
    requires Founded(reg) && p.feed.TripFeed? && KeyOf(m) in a && m == TakeOverMutation(m.id, p.actor, w.now, m.hlc)
    requires Cell(a, KeyOf(m), State) == Text(PACKING_NOW) && Cell(a, KeyOf(m), TripId) == Text(p.feed.trip)
    ensures Acted(reg, a, Written(reg, a, p, w, m), Step(p, Wrote(w, m, m, Claiming), [Note(KeyOf(m), false, m.hlc)]))
  {
    assert [Note(KeyOf(m), false, m.hlc)] + [] == [Note(KeyOf(m), false, m.hlc)];
  }

  /** And so is a takeover. */
  lemma ClaimTakes(reg: Registry, db: Db, g: Hlc.Gen, w: Env, trip: string, item: string, taker: string, wall: int) returns (s: Step)
    requires Founded(reg) && Sane(reg, db)
    ensures Took(reg, db, TakeOver(reg, db, g, w, trip, item, taker, wall).0, s) &&
      s.p == Partition(TripFeed(trip), taker, false) && By(s, w)
    ensures Writes(s) && Rewrites(s, db, Hlc.Rank(TakeOver(reg, db, g, w, trip, item, taker, wall).1.Reading()))
    ensures FromClaim(s, taker, item)
  {
    hide LinkOk, Resolve, Noted, Acted, Founded, Written;
    var (b, g1, answer) := TakeOver(reg, db, g, w, trip, item, taker, wall);
    var p := Partition(TripFeed(trip), taker, false);
    if !answer.TakenOver? {
      s := Step(p, Quiet, []);
      NothingTakes(reg, db, p);
    } else {
      var m := TakeOverMutation(item, taker, w.now, Hlc.Rank(g1.Reading()));
      TakeOverCommits(reg, db, g, w, trip, item, taker, wall);
      UpdateIsWritten(reg, db.rows, p, w, m);
      ClaimActs(reg, db.rows, p, w, m);
      s := Step(p, Wrote(w, m, m, Claiming), [Note(KeyOf(m), false, m.hlc)]);
      CommitTakes(reg, db, b, s);
    }
  }

  /** A push's clock is a valid one (the handler checks it). */
  predicate Clocking(e: Event) {
    e.Push? ==> Hlc.IsRank(e.m.hlc)
  }

  /** The last clock the server minted. */
  function Minted(s: Sys): Clock {
    Hlc.Rank(s.gen.Reading())
  }

  /** How an event's step is the event's: what of it reached the tables, and with which clock. */
  ghost predicate Answers(db: Db, e: Event, minted: Clock, t: Step) {
    match e
    case Push(p, m, w) =>
      t.p == p && By(t, w) && About(t, m) && Carries(t, m, m.hlc) && (!t.act.Quiet? ==> m.mutationId !in db.memo)
    case Revert(p, r, w, _) =>
      By(t, w) && Writes(t) && Rewrites(t, db, minted) && Carries(t, RestoringMutation(r), minted) && (t.act.Wrote? ==> t.p == p)
    case Claim(_, item, taker, w, _) => By(t, w) && Writes(t) && Rewrites(t, db, minted) && FromClaim(t, taker, item)
    case _ => t.act.Quiet?
  }

  lemma NextTakes(reg: Registry, s: Sys, e: Event) returns (t: Step)
    requires Founded(reg) && Sane(reg, s.db) && Clocking(e)
    ensures Took(reg, s.db, Next(reg, s, e).db, t) && Answers(s.db, e, Minted(Next(reg, s, e)), t)
  {
    match e
    case Push(p, m, w) => t := PushTakes(reg, s.db, w, p, m);
    case Revert(p, r, w, wall) => t := RevertTakes(reg, s.db, s.gen, w, p, r, wall);
    case Claim(trip, item, taker, w, wall) => t := ClaimTakes(reg, s.db, s.gen, w, trip, item, taker, wall);
    case _ =>
      t := Step(Partition(MasterFeed, "", false), Quiet, []);
      NothingTakes(reg, s.db, t.p);
  }
}
