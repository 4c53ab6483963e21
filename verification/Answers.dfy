// What a push is answered, against what it left behind: the outcome, the losses
// and the position it hands the device (internal/store/partition.go,
// internal/store/pipeline.go).
module Answers {
  import opened Values
  import opened Vocabulary
  import opened Merging
  import opened Registry
  import opened Database
  import opened Stamping
  import opened Guards
  import opened Pipeline
  import opened Restoring
  import opened System
  import opened Reverts
  import Cascading
  import Feeds

  /** An ending tells no lie: it is a refusal exactly when it gives a reason, a refusal changes and loses nothing, and
      losing something is no plain success. */
  predicate Honestly(db: Db, e: Ending) {
    e.Ended? ==>
      && (e.outcome == Rejected <==> e.reason != Granted) && e.outcome != Duplicate
      && (e.outcome == Rejected ==> e.rows == db.rows && e.lost == map[])
      && (e.lost != map[] ==> e.outcome == Merged)
      && (e.at == 0 <==> e.notes == []) && (e.at == 0 || db.head < e.at <= db.head + |e.notes|)
  }

  /** A refusal's position is that of its last entry. */
  lemma RejectingIsHonest(reg: Registry, db: Db, w: Env, m: Mutation, reason: Reason, relog: bool)
    requires reason != Granted
    ensures Honestly(db, Rejecting(reg, db, w, m, reason, relog))
    ensures var e := Rejecting(reg, db, w, m, reason, relog);
      e.at == if relog then db.head + |e.notes| else 0
  {
  }

  /** What a refusal may say of a row: gone if it is, and otherwise there, the row itself at its own clock. */
  predicate SaysAsItIs(rows: Rows, m: Mutation, n: Note) {
    && (n.deleted <==> n.key !in rows)
    && n.hlc == if n.key == KeyOf(m) && n.key in rows then rows[n.key].hlc else m.hlc
  }

  /** A refusal that re-delivers says of the row whether it is there and how old it is; of a refused delete it then names
      the children the delete would have named, and nothing else. */
  lemma RelogIsTrue(reg: Registry, rows: Rows, w: Env, m: Mutation)
    requires Feeds.Fair(w)
    ensures var notes := Relogged(reg, rows, w, m);
      && notes != [] && notes[0].key == KeyOf(m) && SaysAsItIs(rows, m, notes[0])
      && forall j :: (exists n | n in notes[1..] :: n.key == j) <==>
           KeyOf(m) in rows && m.op.Delete? && j in Cascading.Named(reg, rows, KeyOf(m))
    ensures forall n | n in Relogged(reg, rows, w, m)[1..] :: !n.deleted && n.hlc == m.hlc
  {
    hide Kids, Cascading.Named, Feeds.Fair;
    var notes, kids := Relogged(reg, rows, w, m), KidsOf(reg, rows, KeyOf(m), w);
    forall j ensures j in kids <==> j in Cascading.Named(reg, rows, KeyOf(m)) { Feeds.KidsAreNamed(reg, rows, KeyOf(m), w, j); }
    if KeyOf(m) in rows && m.op.Delete? {
      assert notes[1..] == Notes(kids, false, m.hlc);
      forall j ensures (exists n | n in notes[1..] :: n.key == j) <==> j in kids { NotesName(kids, m.hlc, j); }
    }
  }

  lemma NotesName(keys: seq<Key>, at: Clock, j: Key)
    ensures (exists n | n in Notes(keys, false, at) :: n.key == j) <==> j in keys
  {
    var notes := Notes(keys, false, at);
    if j in keys { var i :| 0 <= i < |keys| && keys[i] == j; assert notes[i].key == j; }
  }

  /** The write's: what it loses is what its merge lost; its position is the row's own entry, and a retirement's the last. */
  lemma CarryingIsHonest(reg: Registry, db: Db, w: Env, p: Partition, m: Mutation, merged: MergeResult, retired: bool)
    requires merged == Resolve(Load(db.rows, KeyOf(m)), m)
    requires retired ==> !m.op.Delete? && KeyOf(m) in db.rows && p.feed.MasterFeed? && !m.table.TripMembers?
    ensures Honestly(db, Carrying(reg, db, w, p, m, merged, retired))
    ensures var e := Carrying(reg, db, w, p, m, merged, retired);
      e.Ended? && e.outcome != Rejected ==>
        && e.lost == merged.conflicts && (e.outcome == Merged <==> e.lost != map[] || (m.op.Delete? && !merged.deleted))
        && (e.at != 0 ==>
             (e.notes[0] == Note(KeyOf(m), merged.deleted, m.hlc) && e.at == if retired then db.head + |e.notes| else db.head + 1))
    ensures var e := Carrying(reg, db, w, p, m, merged, retired);
      e.Ended? && e.outcome == Rejected ==> (e.reason == ConstraintViolated && e.notes == Relogged(reg, db.rows, w, m))
  {
    hide Won, Lost, Stamped, Kids, SchemaOk, Doomed;
  }

  /** The answer of a transaction is its ending; one that rolls back changes nothing. */
  lemma EndingIsAnswered(db: Db, p: Partition, m: Mutation, e: Ending)
    ensures var (b, answer) := End(db, p, m, e);
      if answer.Replied? then
        && e.Ended? && answer == Replied(e.outcome, e.reason, e.lost, e.at) && b.rows == e.rows && b.head == db.head + |e.notes|
      else answer == Failed && b == db
  {
    hide LiveConflicts, LiveLogs, Numbered, ConflictRows;
  }

  /** Its entries are at the end of the partition's feed, numbered on. */
  lemma EndingIsLogged(db: Db, p: Partition, m: Mutation, e: Ending)
    requires End(db, p, m, e).1.Replied? && FeedLives(e.rows, p.feed)
    ensures LogOf(End(db, p, m, e).0, p.feed) == LogOf(db, p.feed) + Numbered(e.notes, db.head)
  {
    hide LiveConflicts, ConflictRows;
    assert Numbered([], db.head) == [];
  }

  /** And each loss is in the conflict log, under the push that lost it. */
  lemma LossesAreEntered(db: Db, p: Partition, m: Mutation, e: Ending, c: Column)
    requires End(db, p, m, e).1.Replied? && c in e.lost
    ensures Enters(End(db, p, m, e).0, ConflictId(m.mutationId, KeyOf(m), c), Conflict(p.feed, p.actor, e.lost[c], false))
  {
    hide LiveConflicts, LiveLogs, Numbered;
  }

  predicate Enters(db: Db, id: ConflictId, conflict: Conflict) {
    id in db.conflicts && db.conflicts[id] == conflict
  }

  // --------------------------------------------------------------------- decisions

  /** A tombstone of the feed outdates a write that finds no row. */
  predicate Buried(db: Db, f: Feed, m: Mutation) {
    !m.op.Delete? && KeyOf(m) !in db.rows && exists e | e in LogOf(db, f) :: e.key == KeyOf(m) && e.deleted && m.hlc <= e.hlc
  }

  /** A delete that wins, of a row some other row still names. */
  predicate Needed(reg: Registry, rows: Rows, m: Mutation) {
    && m.op.Delete? && Older(rows, KeyOf(m), m.hlc)
    && exists r, j | r in reg.blockers(m.table) && j in rows ::
         j.table == r.table && Cell(rows, j, r.column) == Text(m.id) && j != KeyOf(m)
  }

  lemma BuriedExactly(db: Db, f: Feed, m: Mutation)
    requires m.hlc > 0
    ensures Buried(db, f, m) <==>
      !m.op.Delete? && Load(db.rows, KeyOf(m)).None? && m.hlc <= NewestTombstone(LogOf(db, f), KeyOf(m))
  {
  }

  lemma NeededExactly(reg: Registry, rows: Rows, m: Mutation)
    requires m.op.Delete? && m.hlc > 0
    ensures Needed(reg, rows, m) <==>
      Resolve(Load(rows, KeyOf(m)), m).deleted && Load(rows, KeyOf(m)).Some? && Blocked(reg, rows, KeyOf(m))
  {
    if Blocked(reg, rows, KeyOf(m)) {
      var r :| r in reg.blockers(m.table) && Referenced(rows, r, m.id, if r.table == m.table then Some(KeyOf(m)) else None);
      var j :| j in rows && j.table == r.table && Cell(rows, j, r.column) == Text(m.id) &&
        (if r.table == m.table then Some(KeyOf(m)) else None) != Some(j);
      assert j != KeyOf(m);
    }
  }

  /** What becomes of a mutation: refused at the gate, outdated by a tombstone, refused or retired because it is needed, or
      merged as the gate left it. */
  lemma DecidedExactly(reg: Registry, db: Db, w: Env, p: Partition, m: Mutation)
    requires m.hlc > 0
    ensures match Gate(reg, db.rows, p, w, m)
      case Refuse(reason) =>
        Decide(reg, db, w, p, m) ==
          Refusal(StampOwned(reg.stamp(m.table), m, KeyOf(m) in db.rows, p.actor, w), reason, p.feed.MasterFeed? && !p.prune)
      case Pass(n) =>
        Decide(reg, db, w, p, m) ==
          if Buried(db, p.feed, n) then Refusal(n, RowDeleted, true)
          else if !Needed(reg, db.rows, n) then Write(n, Resolve(Load(db.rows, KeyOf(n)), n), false)
          else if p.feed.TripFeed? || p.prune || !reg.retirable(n.table) then Refusal(n, StillReferenced, true)
          else
            var kept := n.(op := Upsert, fields := map[RetiredAt := Text(w.now)]);
            Write(kept, Resolve(Load(db.rows, KeyOf(n)), kept), true)
  {
    hide Scope, StampOwned, Blocked, Won, Lost, Stamped, Needed, Buried;
    match Gate(reg, db.rows, p, w, m)
    case Refuse(_) =>
    case Pass(n) =>
      GatePasses(reg, db.rows, p, w, m, n);
      GateLets(reg, db.rows, p, w, m, n);
      BuriedExactly(db, p.feed, n);
      if n.op.Delete? { NeededExactly(reg, db.rows, n); } else { NotNeeded(reg, db.rows, n); }
  }

  lemma GatePasses(reg: Registry, rows: Rows, p: Partition, w: Env, m: Mutation, n: Mutation)
    requires Gate(reg, rows, p, w, m) == Pass(n)
    ensures PassedGate(reg, rows, p, w, m, n) && n.hlc == m.hlc
  {
    hide Judge, StampOwned;
    ScopeIsSound(reg, rows, StampOwned(reg.stamp(m.table), m, KeyOf(m) in rows, p.actor, w), p);
    StampKeeps(reg.stamp(m.table), m, KeyOf(m) in rows, p.actor, w);
  }

  lemma NotNeeded(reg: Registry, rows: Rows, m: Mutation)
    requires !m.op.Delete?
    ensures !Needed(reg, rows, m) && !Resolve(Load(rows, KeyOf(m)), m).deleted
  {
    hide Won, Lost, Stamped;
  }

  /** So the first answer to any push is that of one honest transaction of it. */
  lemma PushIsHonest(reg: Registry, db: Db, w: Env, p: Partition, m: Mutation) returns (n: Mutation, e: Ending)
    requires Valid(reg, m, p) && m.mutationId !in db.memo && m.hlc > 0 && !reg.retirable(TripMembers)
    ensures KeyOf(n) == KeyOf(m) && n.mutationId == m.mutationId
    ensures Apply(reg, db, w, p, m) == End(db, p, n, e) && Honestly(db, e)
  {
    hide Gate, Resolve, Needed, Buried, StampOwned, Honestly, Carrying, Rejecting, End;
    DecidedExactly(reg, db, w, p, m);
    GateSpeaks(reg, db, w, p, m);
    n := Decide(reg, db, w, p, m).m;
    match Decide(reg, db, w, p, m)
    case Refusal(_, reason, relog) =>
      e := Rejecting(reg, db, w, n, reason, relog);
      RejectingIsHonest(reg, db, w, n, reason, relog);
    case Write(_, merged, retired) =>
      e := Carrying(reg, db, w, p, n, merged, retired);
      if retired { NeededIsThere(reg, db.rows, Gate(reg, db.rows, p, w, m).m); }
      CarryingIsHonest(reg, db, w, p, n, merged, retired);
  }

  lemma NeededIsThere(reg: Registry, rows: Rows, m: Mutation)
    ensures Needed(reg, rows, m) ==> KeyOf(m) in rows && m.op.Delete?
  {
  }

  /** A push is turned away unread exactly when it is nothing its endpoint writes; nothing changes then. */
  lemma InvalidExactly(reg: Registry, db: Db, w: Env, p: Partition, m: Mutation)
    ensures Apply(reg, db, w, p, m).1.Invalid? <==> Alien(reg, p, m.table, m.fields)
    ensures Apply(reg, db, w, p, m).1.Invalid? ==> Apply(reg, db, w, p, m).0 == db
  {
    hide Decide, Rejecting, Carrying, Valid, Alien;
    AlienExactly(reg, m, p);
  }

  /** Where the database's other constraints refuse a write, no row changes, whoever asks. */
  lemma UnacceptedChangesNothing(reg: Registry, s: Sys, e: Event)
    requires (e.Push? || e.Revert? || e.Claim?) && !e.w.accepts
    ensures Next(reg, s, e).db.rows == s.db.rows
  {
    hide Valid, SchemaOk, Resolve, GatedRestore, Numbered, LiveLogs, LiveConflicts, ConflictRows, Relogged, Persisted, Changes, Founds;
    match e
    case Push(p, m, w) => RefusedKeepsRows(reg, s.db, w, p, m);
    case Revert(_, _, _, _) =>
    case Claim(_, _, _, _, _) =>
  }

  lemma RefusedKeepsRows(reg: Registry, db: Db, w: Env, p: Partition, m: Mutation)
    requires !w.accepts
    ensures Apply(reg, db, w, p, m).0.rows == db.rows
  {
    hide Valid, SchemaOk, Decide, Numbered, LiveLogs, LiveConflicts, ConflictRows, Relogged, Persisted, Changes, Founds, AfterChange;
  }

  /** Stamp and gate keep a mutation's row and id, and a refusal has a reason. */
  lemma GateSpeaks(reg: Registry, db: Db, w: Env, p: Partition, m: Mutation)
    ensures var stamped := StampOwned(reg.stamp(m.table), m, KeyOf(m) in db.rows, p.actor, w);
      KeyOf(stamped) == KeyOf(m) && stamped.mutationId == m.mutationId
    ensures match Gate(reg, db.rows, p, w, m)
      case Refuse(reason) => reason != Granted
      case Pass(n) => KeyOf(n) == KeyOf(m) && n.mutationId == m.mutationId && n.op == m.op
  {
    hide Judge, StampOwned;
    ScopeIsSound(reg, db.rows, StampOwned(reg.stamp(m.table), m, KeyOf(m) in db.rows, p.actor, w), p);
    StampKeeps(reg.stamp(m.table), m, KeyOf(m) in db.rows, p.actor, w);
  }
}
