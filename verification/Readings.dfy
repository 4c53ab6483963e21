// What a revert reads and what it brings back: the values one push lost, from
// the push to the cell they end in (internal/store/conflicts.go).
module Readings {
  import opened Values
  import opened Vocabulary
  import opened Merging
  import opened MergeLaws
  import opened Registry
  import opened Database
  import opened Stamping
  import opened Guards
  import opened Pipeline
  import opened Restoring
  import opened System
  import opened Laws
  import opened Reachable
  import opened Reverts
  import opened Timelines
  import Hlc

  /** The fields that merge as one: state and packed count, and every other alone. */
  predicate OneUnit(c: Column, d: Column) {
    c == d || (c in {State, PackedCount} && d in {State, PackedCount})
  }

  /** The entry of what a push lost in one column of one row. */
  function Entered(id: ConflictId, c: Column): ConflictId {
    ConflictId(id.mutationId, id.key, c)
  }

  /** A column of the tapped entry's unit that the same push lost, and that no revert brought back. */
  predicate StillLost(db: Db, id: ConflictId, c: Column) {
    OneUnit(id.field, c) && Entered(id, c) in db.conflicts && !db.conflicts[Entered(id, c)].reverted
  }

  /** A reading has the losing value of every such column, and nothing else. */
  lemma ReadingExactly(reg: Registry, db: Db, p: Partition, id: ConflictId, r: Reading)
    requires ReadGroup(reg, db, p, id).1 == Some(r)
    ensures r.key == id.key && id in db.conflicts && db.conflicts[id].feed == p.feed
    ensures forall c :: c in r.fields <==> StillLost(db, id, c)
    ensures forall c | c in r.fields :: r.fields[c] == db.conflicts[Entered(id, c)].loss.losing
    ensures forall i :: i in r.ids <==> i == Entered(id, i.field) && StillLost(db, id, i.field)
  {
  }

  /** There is one exactly when the entry is the partition's, the user may see its row, and something is still lost. */
  lemma ReadExactly(reg: Registry, db: Db, p: Partition, id: ConflictId)
    ensures ReadGroup(reg, db, p, id).1.Some? <==>
      && id in db.conflicts && db.conflicts[id].feed == p.feed
      && (p.feed.MasterFeed? ==> Visible(reg, db.rows, p.actor, id.key))
      && exists c :: StillLost(db, id, c)
    ensures ReadGroup(reg, db, p, id).0 == AlreadyReverted ==> id in db.conflicts && forall c :: !StillLost(db, id, c)
  {
    hide Visible;
    var group := GroupOf(db.conflicts, id);
    if i :| i in group { assert StillLost(db, id, i.field); }
    if c :| StillLost(db, id, c) { assert Entered(id, c) in group; }
  }

  // --------------------------------------------------------------- what a push loses

  /** The gate's mutation has the client's own columns as sent, and it is merged as it is. */
  lemma DecidedAsSent(reg: Registry, db: Db, w: Env, p: Partition, m: Mutation, f: Column)
    requires f !in Owned(reg.stamp(m.table)) && !m.op.Delete?
    ensures var plan := Decide(reg, db, w, p, m);
      && KeyOf(plan.m) == KeyOf(m) && plan.m.mutationId == m.mutationId
      && (f in plan.m.fields ==> f in m.fields && plan.m.fields[f] == m.fields[f])
      && (plan.Write? ==> plan.merged == Resolve(Load(db.rows, KeyOf(m)), plan.m))
  {
    hide Scope, StampOwned, Blocked, Won, Lost, Stamped;
    StampKeeps(reg.stamp(m.table), m, KeyOf(m) in db.rows, p.actor, w);
    ScopeIsSound(reg, db.rows, StampOwned(reg.stamp(m.table), m, KeyOf(m) in db.rows, p.actor, w), p);
  }

  /** What a merge logs: the value that lost, and the one that stood. */
  lemma LossSides(row: Option<Row>, m: Mutation, f: Column)
    requires f in Resolve(row, m).conflicts
    ensures row.Some? && f in m.fields && Resolve(row, m).conflicts[f] == Loss(m.fields[f], Get(row.value.fields, f))
  {
    hide Wins, Won, Stamped;
  }

  /** An entry of a transaction is a loss of its merge, on its feed and its actor's, not yet reverted. */
  lemma EndLogs(db: Db, p: Partition, m: Mutation, e: Ending, id: ConflictId)
    requires id in End(db, p, m, e).0.conflicts && id !in db.conflicts
    ensures e.Ended? && id == ConflictId(m.mutationId, KeyOf(m), id.field) && id.field in e.lost
    ensures End(db, p, m, e).0.conflicts[id] == Conflict(p.feed, p.actor, e.lost[id.field], false)
  {
    hide LiveLogs, Numbered, FeedLives, Noted, ConflictRows;
    if End(db, p, m, e).0 != db {
      EnteredExactly(p, m, e.lost, id);
      NotedAdds(db, e.rows, p.feed, e.notes, id);
    }
  }

  lemma EnteredExactly(p: Partition, m: Mutation, lost: map<Column, Loss>, id: ConflictId)
    ensures id in ConflictRows(p, m, lost) <==> id == ConflictId(m.mutationId, KeyOf(m), id.field) && id.field in lost
    ensures id in ConflictRows(p, m, lost) ==> ConflictRows(p, m, lost)[id] == Conflict(p.feed, p.actor, lost[id.field], false)
  {
  }

  lemma NotedAdds(db: Db, rows: Rows, f: Feed, notes: seq<Note>, id: ConflictId)
    ensures id in Noted(db, rows, f, notes).conflicts ==> id in db.conflicts
  {
    hide LiveLogs, Numbered, FeedLives;
  }

  /** So a push that lost a column of the client's own logs the value it sent. */
  lemma PushLogs(reg: Registry, db: Db, w: Env, p: Partition, m: Mutation, f: Column)
    requires !m.op.Delete? && f !in Owned(reg.stamp(m.table))
    requires var id := ConflictId(m.mutationId, KeyOf(m), f);
      id !in db.conflicts && id in Apply(reg, db, w, p, m).0.conflicts
    ensures f in m.fields && Apply(reg, db, w, p, m).0.conflicts[ConflictId(m.mutationId, KeyOf(m), f)] ==
      Conflict(p.feed, p.actor, Loss(m.fields[f], Cell(db.rows, KeyOf(m), f)), false)
  {
    hide Resolve, End, Decide, Persisted, Accepts, Founds, AfterChange, Relogged;
    var id, plan := ConflictId(m.mutationId, KeyOf(m), f), Decide(reg, db, w, p, m);
    DecidedAsSent(reg, db, w, p, m, f);
    match plan
    case Refusal(m1, why, relog) => EndLogs(db, p, m1, Rejecting(reg, db, w, m1, why, relog), id);
    case Write(m1, merged, retired) =>
      EndLogs(db, p, m1, Carrying(reg, db, w, p, m1, merged, retired), id);
      LossSides(Load(db.rows, KeyOf(m)), m1, f);
  }

  // ------------------------------------------------------------------ over a run

  /** No event adds an entry that is in nobody's memo. */
  lemma NextKeepsBooked(reg: Registry, s: Sys, e: Event)
    requires Booked(s.db)
    ensures Booked(Next(reg, s, e).db)
  {
    match e
    case Push(p, m, w) => PushAdds(reg, s.db, w, p, m);
    case Revert(p, r, w, wall) => RestoreConflicts(reg, s.db, s.gen, w, p, r, wall);
    case Claim(trip, item, taker, w, wall) => TakeOverConflicts(reg, s.db, s.gen, w, trip, item, taker, wall);
    case _ =>
  }

  lemma {:induction false} RunIsBooked(reg: Registry, s: Sys, events: seq<Event>)
    requires Booked(s.db)
    ensures Booked(Run(reg, s, events).db)
  {
    hide Next, Booked;
    if events != [] {
      RunIsBooked(reg, s, events[..|events| - 1]);
      NextKeepsBooked(reg, Run(reg, s, events[..|events| - 1]), events[|events| - 1]);
    }
  }

  /** What a push lost stays as it was logged, but for its flag. */
  lemma EntryStands(reg: Registry, s: Sys, e: Event, id: ConflictId)
    requires id.mutationId in s.db.memo && id in Next(reg, s, e).db.conflicts
    ensures id in s.db.conflicts && Next(reg, s, e).db.conflicts[id].loss == s.db.conflicts[id].loss
  {
    match e
    case Push(p, m, w) => PushAdds(reg, s.db, w, p, m);
    case Revert(p, r, w, wall) => RestoreConflicts(reg, s.db, s.gen, w, p, r, wall);
    case Claim(trip, item, taker, w, wall) => TakeOverConflicts(reg, s.db, s.gen, w, trip, item, taker, wall);
    case _ =>
  }

  lemma MemoStands(reg: Registry, s: Sys, e: Event)
    ensures s.db.memo.Keys <= Next(reg, s, e).db.memo.Keys
  {
    match e
    case Push(p, m, w) => PushAdds(reg, s.db, w, p, m);
    case Revert(p, r, w, wall) => RestoreConflicts(reg, s.db, s.gen, w, p, r, wall);
    case Claim(trip, item, taker, w, wall) => TakeOverConflicts(reg, s.db, s.gen, w, trip, item, taker, wall);
    case _ =>
  }

  lemma {:induction false} EntriesStand(reg: Registry, s: Sys, events: seq<Event>, i: nat, j: nat, id: ConflictId)
    requires i <= j <= |events| && id.mutationId in RunTo(reg, s, events, i).db.memo && id in RunTo(reg, s, events, j).db.conflicts
    ensures id.mutationId in RunTo(reg, s, events, j).db.memo && id in RunTo(reg, s, events, i).db.conflicts
    ensures RunTo(reg, s, events, j).db.conflicts[id].loss == RunTo(reg, s, events, i).db.conflicts[id].loss
    decreases j
  {
    hide Next, RunTo;
    if i < j {
      OneFurther(reg, s, events, j - 1);
      MemosStand(reg, s, events, i, j - 1, id.mutationId);
      EntryStands(reg, RunTo(reg, s, events, j - 1), Nth(events, j - 1), id);
      MemoStands(reg, RunTo(reg, s, events, j - 1), Nth(events, j - 1));
      EntriesStand(reg, s, events, i, j - 1, id);
    }
  }

  lemma {:induction false} MemosStand(reg: Registry, s: Sys, events: seq<Event>, i: nat, j: nat, mutationId: string)
    requires i <= j <= |events| && mutationId in RunTo(reg, s, events, i).db.memo
    ensures mutationId in RunTo(reg, s, events, j).db.memo
    decreases j
  {
    hide Next, RunTo;
    if i < j {
      OneFurther(reg, s, events, j - 1);
      MemosStand(reg, s, events, i, j - 1, mutationId);
      MemoStands(reg, RunTo(reg, s, events, j - 1), Nth(events, j - 1));
    }
  }

  /** Event `i` is a look that a reading comes out of. */
  predicate LookedAt(reg: Registry, s: Sys, events: seq<Event>, i: int, r: Reading) {
    0 <= i < |events| && events[i].Look? && ReadGroup(reg, Run(reg, s, events[..i]).db, events[i].p, events[i].id).1 == Some(r)
  }

  /** What may be reverted is what somebody read, all of it and nothing else. */
  lemma {:induction false} LookedExactly(reg: Registry, s: Sys, events: seq<Event>, r: Reading)
    ensures r in Run(reg, s, events).readings <==> r in s.readings || exists i :: LookedAt(reg, s, events, i, r)
  {
    hide ReadGroup, Apply, Restore, TakeOver;
    if events != [] {
      var front, n := events[..|events| - 1], |events| - 1;
      LookedExactly(reg, s, front, r);
      forall i | 0 <= i < n ensures LookedAt(reg, s, events, i, r) <==> LookedAt(reg, s, front, i, r) {
        assert events[..i] == front[..i];
      }
      assert LookedAt(reg, s, events, n, r) <==>
        events[n].Look? && ReadGroup(reg, Run(reg, s, front).db, events[n].p, events[n].id).1 == Some(r);
    }
  }

  /** Event `i` is the push `m`, and the first that is answered under its id. */
  ghost predicate PushedAt(reg: Registry, gen: Hlc.Gen, events: seq<Event>, i: nat, p: Partition, m: Mutation, w: Env) {
    && Nth(events, i) == Push(p, m, w) && !m.op.Delete?
    && m.mutationId !in At(reg, gen, events, i).db.memo && m.mutationId in At(reg, gen, events, i + 1).db.memo
  }

  /** At moment `j` somebody reads what push `m` lost on its row. */
  ghost predicate ReadAt(reg: Registry, gen: Hlc.Gen, events: seq<Event>, j: nat, q: Partition, id: ConflictId, m: Mutation, r: Reading) {
    && id.mutationId == m.mutationId && id.key == KeyOf(m)
    && ReadGroup(reg, At(reg, gen, events, j).db, q, id).1 == Some(r)
  }

  /** A reading has the values the push sent, whatever happened between the push and the reading. */
  lemma ReadingIsAsSent(
    reg: Registry, gen: Hlc.Gen, events: seq<Event>, i: nat, p: Partition, m: Mutation, w: Env, j: nat, q: Partition, id: ConflictId,
    r: Reading, f: Column)
    requires i < j <= |events| && PushedAt(reg, gen, events, i, p, m, w) && ReadAt(reg, gen, events, j, q, id, m, r)
    requires f in r.fields && f !in Owned(reg.stamp(m.table))
    ensures r.key == KeyOf(m) && f in m.fields && r.fields[f] == m.fields[f]
  {
    hide Next, ReadGroup, Run, Apply, Booked;
    ReadingExactly(reg, At(reg, gen, events, j).db, q, id, r);
    var lost := ConflictId(m.mutationId, KeyOf(m), f);
    assert Entered(id, f) == lost && StillLost(At(reg, gen, events, j).db, id, f);
    EntriesStand(reg, Start(gen), events, i + 1, j, lost);
    RunIsBooked(reg, Start(gen), Until(events, i)) by { StartIsBooked(gen); }
    NotYetLost(At(reg, gen, events, i).db, lost);
    OneFurther(reg, Start(gen), events, i);
    PushIsApplied(reg, At(reg, gen, events, i), p, m, w);
    PushLogs(reg, At(reg, gen, events, i).db, w, p, m, f);
  }

  lemma StartIsBooked(gen: Hlc.Gen)
    ensures Booked(Start(gen).db)
  {
  }

  lemma NotYetLost(db: Db, id: ConflictId)
    requires Booked(db) && id.mutationId !in db.memo
    ensures id !in db.conflicts
  {
  }

  lemma PushIsApplied(reg: Registry, s: Sys, p: Partition, m: Mutation, w: Env)
    ensures Next(reg, s, Push(p, m, w)).db == Apply(reg, s.db, w, p, m).0
  {
    hide Apply;
  }

  /** Event `k` is a revert of a reading, and restores it. */
  ghost predicate RevertedAt(reg: Registry, gen: Hlc.Gen, events: seq<Event>, k: nat, u: Partition, r: Reading, v: Env, wall: int) {
    var s := At(reg, gen, events, k);
    Nth(events, k) == Revert(u, r, v, wall) && Restore(reg, s.db, s.gen, v, u, r, wall).2.Restored?
  }

  /** Stamp and gate leave a restored column, and "packed" does not outrank it. */
  predicate Lands(reg: Registry, rows: Rows, u: Partition, r: Reading, v: Env, f: Column) {
    match GatedRestore(reg, rows, v, u, r)
    case Pass(m) => f in m.fields && r.key in rows && !Outranked(rows[r.key], m, f)
    case Refuse(_) => false
  }

  lemma RestoredAsRead(reg: Registry, rows: Rows, u: Partition, r: Reading, v: Env, f: Column)
    requires Lands(reg, rows, u, r, v, f) && f !in Owned(reg.stamp(r.key.table))
    ensures f in r.fields && f in GatedRestore(reg, rows, v, u, r).m.fields
    ensures GatedRestore(reg, rows, v, u, r).m.fields[f] == r.fields[f]
  {
    hide Scope, StampOwned;
    var m0 := RestoringMutation(r);
    StampKeeps(reg.stamp(m0.table), m0, r.key in rows, u.actor, v);
    ScopeIsSound(reg, rows, StampOwned(reg.stamp(m0.table), m0, r.key in rows, u.actor, v), u);
  }

  /** A committed revert leaves in the row what its reading says. */
  lemma RevertWrites(reg: Registry, s: Sys, u: Partition, r: Reading, v: Env, wall: int, f: Column)
    requires Kept(reg, s) && Admissible(reg, s, Revert(u, r, v, wall)) && Restore(reg, s.db, s.gen, v, u, r, wall).2.Restored?
    requires Lands(reg, s.db.rows, u, r, v, f) && f !in Owned(reg.stamp(r.key.table))
    ensures f in r.fields && Cell(Next(reg, s, Revert(u, r, v, wall)).db.rows, r.key, f) == Stored(r.fields[f])
  {
    hide Kept, Restore, GatedRestore, Outranked;
    RestoredAsRead(reg, s.db.rows, u, r, v, f);
    RevertWins(reg, s, v, u, r, wall, f);
  }

  /** From end to end: a push lost a value, somebody read the loss, somebody reverted it. The cell holds what the push sent. */
  lemma RevertRestoresWhatWasSent(
    reg: Registry, gen: Hlc.Gen, events: seq<Event>, i: nat, p: Partition, m: Mutation, w: Env, j: nat, q: Partition, id: ConflictId,
    r: Reading, k: nat, u: Partition, v: Env, wall: int, f: Column)
    requires Timeline(reg, gen, events) && i < j <= k < |events|
    requires PushedAt(reg, gen, events, i, p, m, w) && ReadAt(reg, gen, events, j, q, id, m, r)
    requires RevertedAt(reg, gen, events, k, u, r, v, wall)
    requires Lands(reg, At(reg, gen, events, k).db.rows, u, r, v, f) && f !in Owned(reg.stamp(m.table))
    ensures f in m.fields && Cell(At(reg, gen, events, k + 1).db.rows, KeyOf(m), f) == Stored(m.fields[f])
  {
    hide Next, ReadGroup, Run, Restore, Lands, PushedAt, Timeline, Kept, Admissible;
    AtIsKept(reg, gen, events, k);
    EventIsAdmissible(reg, gen, events, k);
    assert r.key == KeyOf(m) by { ReadingExactly(reg, At(reg, gen, events, j).db, q, id, r); }
    RevertWrites(reg, At(reg, gen, events, k), u, r, v, wall, f);
    ReadingIsAsSent(reg, gen, events, i, p, m, w, j, q, id, r, f);
    OneFurther(reg, Start(gen), events, k);
  }

  lemma EventIsAdmissible(reg: Registry, gen: Hlc.Gen, events: seq<Event>, k: nat)
    requires Timeline(reg, gen, events) && k < |events|
    ensures Admissible(reg, At(reg, gen, events, k), Nth(events, k))
  {
    hide Lawful, Runs, Admissible;
    RunsBefore(reg, Start(gen), events, k);
  }
}
