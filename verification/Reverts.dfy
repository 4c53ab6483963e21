// Reverts are atomic and win (internal/store/conflicts.go), and so do
// takeovers (internal/store/locks.go): a server-built write is newer than all
// it meets, and the flags of one loss move together with the write.
module Reverts {
  import opened Values
  import opened Vocabulary
  import opened Merging
  import opened MergeLaws
  import opened Registry
  import opened Database
  import opened Stamping
  import opened Guards
  import opened Pipeline
  import opened Restoring
  import opened System
  import opened Steps
  import opened Clocks
  import opened Reachable
  import Hlc

  // ------------------------------------------------------------ server writes win

  /** A clock minted past a row's applies every field it carries, unless "packed" outranks it. */
  lemma MintedWins(reg: Registry, s: Sys, k: Key, m: Mutation, wall: int, f: Column)
    requires Kept(reg, s) && k in s.db.rows && f in m.fields && !m.op.Delete?
    requires MintedAfter(s.gen, s.db.rows[k].hlc, wall).lastMillis < Hlc.MILLIS_LIMIT
    requires m.hlc == Hlc.Rank(MintedAfter(s.gen, s.db.rows[k].hlc, wall).Reading())
    ensures m.hlc > s.db.rows[k].hlc
    ensures f in Resolve(Some(s.db.rows[k]), m).applied <==> !Outranked(s.db.rows[k], m, f)
  {
    MintingKeeps(s.gen, s.db.rows[k].hlc, wall);
    NewerWins(s.db.rows[k], m, f);
  }

  /** What a committed restore leaves in its row. */
  lemma RestoreWrites(reg: Registry, db: Db, g: Hlc.Gen, w: Env, p: Partition, r: Reading, wall: int)
    requires Restore(reg, db, g, w, p, r, wall).2.Restored?
    ensures r.key in db.rows && GatedRestore(reg, db.rows, w, p, r).Pass?
    ensures var row := db.rows[r.key];
      Load(Restore(reg, db, g, w, p, r, wall).0.rows, r.key) ==
        Some(Updated(row, Resolve(Some(row), Reissued(g, row, GatedRestore(reg, db.rows, w, p, r).m, wall))))
    ensures Restore(reg, db, g, w, p, r, wall).1 == MintedAfter(g, db.rows[r.key].hlc, wall)
  {
    hide Resolve, Accepts, LiveLogs, LiveConflicts, Numbered, AfterChange, Scope, StampOwned;
  }

  lemma GatedIsUpsert(reg: Registry, rows: Rows, w: Env, p: Partition, r: Reading)
    requires GatedRestore(reg, rows, w, p, r).Pass?
    ensures GatedRestore(reg, rows, w, p, r).m.op.Upsert?
  {
    var m0 := RestoringMutation(r);
    ScopeIsSound(reg, rows, StampOwned(reg.stamp(m0.table), m0, r.key in rows, p.actor, w), p);
  }

  lemma AppliedCell(row: Row, merged: MergeResult, f: Column)
    requires f in merged.applied
    ensures Get(Updated(row, merged).fields, f) == Stored(merged.applied[f])
  {
  }

  /** A revert that reaches the write restores every field the stamp and the gate left it, but for a claim against "packed". */
  lemma RevertWins(reg: Registry, s: Sys, w: Env, p: Partition, r: Reading, wall: int, f: Column)
    requires Kept(reg, s) && Restore(reg, s.db, s.gen, w, p, r, wall).2.Restored?
    requires Restore(reg, s.db, s.gen, w, p, r, wall).1.lastMillis < Hlc.MILLIS_LIMIT
    ensures r.key in s.db.rows && GatedRestore(reg, s.db.rows, w, p, r).Pass?
    ensures var m := GatedRestore(reg, s.db.rows, w, p, r).m;
      f in m.fields && !Outranked(s.db.rows[r.key], m, f) ==>
        Cell(Restore(reg, s.db, s.gen, w, p, r, wall).0.rows, r.key, f) == Stored(m.fields[f])
  {
    RestoreWrites(reg, s.db, s.gen, w, p, r, wall);
    GatedIsUpsert(reg, s.db.rows, w, p, r);
    var gated, row := GatedRestore(reg, s.db.rows, w, p, r).m, s.db.rows[r.key];
    if f in gated.fields && !Outranked(row, gated, f) { RestoredField(reg, s, r.key, gated, wall, f); }
  }

  /** What a reissued write carries lands. */
  lemma RestoredField(reg: Registry, s: Sys, k: Key, gated: Mutation, wall: int, f: Column)
    requires Kept(reg, s) && k in s.db.rows && f in gated.fields && gated.op.Upsert? && !Outranked(s.db.rows[k], gated, f)
    requires MintedAfter(s.gen, s.db.rows[k].hlc, wall).lastMillis < Hlc.MILLIS_LIMIT
    ensures var row := s.db.rows[k];
      Get(Updated(row, Resolve(Some(row), Reissued(s.gen, row, gated, wall))).fields, f) == Stored(gated.fields[f])
  {
    var row, m := s.db.rows[k], Reissued(s.gen, s.db.rows[k], gated, wall);
    MintedWins(reg, s, k, m, wall, f);
    AppliedCell(row, Resolve(Some(row), m), f);
  }

  /** The row a takeover writes, once its clock is the newest. */
  lemma ClaimedRow(row: Row, m: Mutation, taker: string, now: string)
    requires Bounded(row) && Get(row.fields, State) == Text(PACKING_NOW)
    requires m == TakeOverMutation(m.id, taker, now, m.hlc) && m.hlc > row.hlc
    ensures var after := Updated(row, Resolve(Some(row), m));
      Get(after.fields, State) == Text(PACKING_NOW) && Get(after.fields, PackingNowBy) == Text(taker) &&
      Get(after.fields, PackingNowAt) == Text(now) && after.hlc == m.hlc
  {
    NewerWins(row, m, State);
    NewerWins(row, m, PackingNowBy);
    NewerWins(row, m, PackingNowAt);
  }

  lemma TakeOverMintsPast(reg: Registry, s: Sys, w: Env, trip: string, item: string, taker: string, wall: int)
    requires Kept(reg, s) && TakeOver(reg, s.db, s.gen, w, trip, item, taker, wall).2.TakenOver?
    requires TakeOver(reg, s.db, s.gen, w, trip, item, taker, wall).1.lastMillis < Hlc.MILLIS_LIMIT
    ensures Key(TripItems, item) in s.db.rows && Bounded(s.db.rows[Key(TripItems, item)])
    ensures Hlc.Rank(TakeOver(reg, s.db, s.gen, w, trip, item, taker, wall).1.Reading()) > s.db.rows[Key(TripItems, item)].hlc
  {
    MintingKeeps(s.gen, s.db.rows[Key(TripItems, item)].hlc, wall);
  }

  /** A takeover hands the claim over whole: state, holder and moment, all from one write. */
  lemma TakeoverWins(reg: Registry, s: Sys, w: Env, trip: string, item: string, taker: string, wall: int)
    requires Kept(reg, s) && TakeOver(reg, s.db, s.gen, w, trip, item, taker, wall).2.TakenOver?
    requires TakeOver(reg, s.db, s.gen, w, trip, item, taker, wall).1.lastMillis < Hlc.MILLIS_LIMIT
    ensures var (b, g, answer) := TakeOver(reg, s.db, s.gen, w, trip, item, taker, wall);
      var k := Key(TripItems, item);
      && k in s.db.rows && k in b.rows
      && Cell(b.rows, k, State) == Text(PACKING_NOW) && Cell(b.rows, k, PackingNowBy) == Text(taker)
      && Cell(b.rows, k, PackingNowAt) == Text(w.now)
      && b.rows[k].hlc == Hlc.Rank(g.Reading()) > s.db.rows[k].hlc
  {
    var k, g := Key(TripItems, item), TakeOver(reg, s.db, s.gen, w, trip, item, taker, wall).1;
    var m := TakeOverMutation(item, taker, w.now, Hlc.Rank(g.Reading()));
    TakeOverCommits(reg, s.db, s.gen, w, trip, item, taker, wall);
    TakeOverMintsPast(reg, s, w, trip, item, taker, wall);
    ClaimedRow(s.db.rows[k], m, taker, w.now);
    assert TakeOver(reg, s.db, s.gen, w, trip, item, taker, wall).0.rows[k] == Updated(s.db.rows[k], Resolve(Some(s.db.rows[k]), m));
  }

  /** A claim is taken over exactly when the item is the trip's, somebody else holds it, and nothing refuses the write; the
      answer names who held it. */
  lemma TakeoverExactly(reg: Registry, db: Db, g: Hlc.Gen, w: Env, trip: string, item: string, taker: string, wall: int)
    ensures var k, answer := Key(TripItems, item), TakeOver(reg, db, g, w, trip, item, taker, wall).2;
      var there := k in db.rows && Cell(db.rows, k, TripId) == Text(trip);
      var held := Cell(db.rows, k, State) == Text(PACKING_NOW) && AsText(Cell(db.rows, k, PackingNowBy)) != "";
      && (answer == NoSuchItem <==> !there) && (answer == NotHeld <==> there && !held)
      && (answer == OwnClaim <==> there && held && Cell(db.rows, k, PackingNowBy) == Text(taker))
      && (answer.TakenOver? ==>
           there && held && Text(answer.from) == Cell(db.rows, k, PackingNowBy) && answer.from != taker && answer.at == db.head + 1)
      && (!answer.TakenOver? ==> TakeOver(reg, db, g, w, trip, item, taker, wall).0 == db)
  {
    hide Resolve, Accepts, LiveLogs, LiveConflicts;
  }

  /** Nothing the partition may write: the table is the other endpoint's, or a column is none of the table's. */
  predicate Alien(reg: Registry, p: Partition, t: Table, fields: Fields) {
    (p.feed.MasterFeed? <==> reg.side(t).OnTrip?) || exists c | c in fields :: c !in reg.columns(t)
  }

  lemma AlienExactly(reg: Registry, m: Mutation, p: Partition)
    ensures Valid(reg, m, p) <==> !Alien(reg, p, m.table, m.fields)
  {
  }

  /** What keeps a revert from being written, the first of four: it is nothing this endpoint writes, one of its entries is
      gone or was reverted, the row is gone, or its actor may not. Then nothing changes; otherwise the entries say so. */
  lemma RevertExactly(reg: Registry, db: Db, g: Hlc.Gen, w: Env, p: Partition, r: Reading, wall: int)
    ensures var answer := Restore(reg, db, g, w, p, r, wall).2;
      var alien := Alien(reg, p, r.key.table, r.fields);
      var spent := exists i | i in r.ids :: i !in db.conflicts || db.conflicts[i].reverted;
      && (answer == NotSyncable <==> alien) && (answer == AlreadyReverted <==> !alien && spent)
      && (answer == RowGone <==> !alien && !spent && r.key !in db.rows)
      && (answer == Forbidden <==> !alien && !spent && r.key in db.rows && GatedRestore(reg, db.rows, w, p, r).Refuse?)
      && (answer.Restored? ==> answer.at == db.head + 1)
      && (!answer.Restored? ==> Restore(reg, db, g, w, p, r, wall).0 == db)
  {
    hide Resolve, Accepts, LiveLogs, LiveConflicts, GatedRestore, AfterChange, Numbered, Valid, Alien;
    AlienExactly(reg, RestoringMutation(r), p);
  }

  /** What it comes to from there: a revert "packed" outranks in every field is refused, and nothing is written to the log
      of a trip that is gone. */
  lemma RevertIsDecided(reg: Registry, s: Sys, w: Env, p: Partition, r: Reading, wall: int)
    requires Kept(reg, s) && r.key in s.db.rows && GatedRestore(reg, s.db.rows, w, p, r).Pass?
    requires MintedAfter(s.gen, s.db.rows[r.key].hlc, wall).lastMillis < Hlc.MILLIS_LIMIT
    ensures var answer, m := Restore(reg, s.db, s.gen, w, p, r, wall).2, GatedRestore(reg, s.db.rows, w, p, r).m;
      && (answer.Restored? ==> exists f | f in m.fields :: !Outranked(s.db.rows[r.key], m, f))
      && (answer.Restored? && p.feed.TripFeed? ==> Key(Trips, p.feed.trip) in s.db.rows)
      && (answer == Broken ==> p.feed.TripFeed? && Key(Trips, p.feed.trip) !in s.db.rows)
  {
    hide Kept, Resolve, Accepts, LiveLogs, LiveConflicts, GatedRestore, AfterChange, Numbered, MintedAfter, Outranked;
    GatedIsUpsert(reg, s.db.rows, w, p, r);
    var row, gated := s.db.rows[r.key], GatedRestore(reg, s.db.rows, w, p, r).m;
    var m := Reissued(s.gen, row, gated, wall);
    if f :| f in Resolve(Some(row), m).applied {
      AppliedExactly(row, m, f);
      MintedWins(reg, s, r.key, m, wall, f);
      SameRank(row, gated, m, f);
    }
  }

  lemma SameRank(row: Row, m: Mutation, n: Mutation, f: Column)
    requires m.fields == n.fields
    ensures Outranked(row, m, f) <==> Outranked(row, n, f)
  {
  }

  // ------------------------------------------------------------- one flag a group

  predicate SameGroup(i: ConflictId, j: ConflictId) {
    i.mutationId == j.mutationId && i.key == j.key && j.field in GroupedWith(i.field)
  }

  /** The entries one push lost from one group are all reverted or none is. */
  ghost predicate OneFlag(conflicts: map<ConflictId, Conflict>) {
    forall i, j | i in conflicts && j in conflicts && SameGroup(i, j) :: conflicts[i].reverted == conflicts[j].reverted
  }

  /** A push that lost something is in the memo, so nothing is added to what it lost. */
  ghost predicate Booked(db: Db) {
    forall i | i in db.conflicts :: i.mutationId in db.memo
  }

  /** A reading has the whole group of every entry it has. */
  ghost predicate Whole(db: Db, r: Reading) {
    forall i | i in r.ids :: i.mutationId in db.memo && forall j | j in db.conflicts && SameGroup(i, j) :: j in r.ids
  }

  ghost predicate Atomic(s: Sys) {
    OneFlag(s.db.conflicts) && Booked(s.db) && forall r | r in s.readings :: Whole(s.db, r)
  }

  /** A revert restores what some device read. */
  predicate ReadBefore(s: Sys, e: Event) {
    e.Revert? ==> e.r in s.readings
  }

  /** A push adds entries of its own, unreverted, and touches no other. */
  ghost predicate Adds(a: Db, b: Db, mutationId: string) {
    && a.memo.Keys <= b.memo.Keys
    && (forall i | i in b.conflicts && i.mutationId in a.memo :: i in a.conflicts && b.conflicts[i] == a.conflicts[i])
    && (forall i | i in b.conflicts && i.mutationId !in a.memo :: i in a.conflicts ||
         (i.mutationId == mutationId && mutationId in b.memo && !b.conflicts[i].reverted))
  }

  lemma EndAdds(db: Db, p: Partition, m: Mutation, e: Ending)
    requires m.mutationId !in db.memo
    ensures Adds(db, End(db, p, m, e).0, m.mutationId)
  {
    hide LiveLogs, Numbered, Commits;
  }

  lemma PlanKeepsId(reg: Registry, db: Db, w: Env, p: Partition, m0: Mutation)
    ensures Decide(reg, db, w, p, m0).m.mutationId == m0.mutationId
  {
    ScopeIsSound(reg, db.rows, StampOwned(reg.stamp(m0.table), m0, KeyOf(m0) in db.rows, p.actor, w), p);
  }

  /** Past the memo, a push ends as some transaction of its own mutation. */
  lemma PushEnds(reg: Registry, db: Db, w: Env, p: Partition, m: Mutation) returns (n: Mutation, e: Ending)
    requires Valid(reg, m, p) && m.mutationId !in db.memo
    ensures n.mutationId == m.mutationId && Apply(reg, db, w, p, m) == End(db, p, n, e)
  {
    PlanKeepsId(reg, db, w, p, m);
    n := Decide(reg, db, w, p, m).m;
    match Decide(reg, db, w, p, m)
    case Refusal(m1, why, relog) => e := Rejecting(reg, db, w, m1, why, relog);
    case Write(m1, merged, retired) => e := Carrying(reg, db, w, p, m1, merged, retired);
  }

  lemma PushAdds(reg: Registry, db: Db, w: Env, p: Partition, m: Mutation)
    ensures Adds(db, Apply(reg, db, w, p, m).0, m.mutationId) || Apply(reg, db, w, p, m).0 == db
  {
    if Valid(reg, m, p) && m.mutationId !in db.memo {
      var n, e := PushEnds(reg, db, w, p, m);
      EndAdds(db, p, n, e);
    }
  }

  lemma AddingKeepsAtomic(s: Sys, b: Db, mutationId: string)
    requires Atomic(s) && Adds(s.db, b, mutationId)
    ensures Atomic(s.(db := b))
  {
    forall i, j | i in b.conflicts && j in b.conflicts && SameGroup(i, j) ensures b.conflicts[i].reverted == b.conflicts[j].reverted {
    }
  }

  /** The claim flips whole groups. */
  lemma ClaimingKeepsAtomic(s: Sys, rows: Rows, conflicts: map<ConflictId, Conflict>, r: Reading)
    requires Atomic(s) && r in s.readings && conflicts == LiveConflicts(rows, Claimed(s.db.conflicts, r.ids))
    ensures OneFlag(conflicts) && conflicts.Keys <= s.db.conflicts.Keys
  {
    assert Whole(s.db, r);
    forall i, j | i in conflicts && j in conflicts && SameGroup(i, j) ensures conflicts[i].reverted == conflicts[j].reverted {
      assert SameGroup(j, i);
    }
  }

  lemma RestoreConflicts(reg: Registry, db: Db, g: Hlc.Gen, w: Env, p: Partition, r: Reading, wall: int)
    ensures var (b, _, answer) := Restore(reg, db, g, w, p, r, wall);
      if answer.Restored? then
        Claimable(db.conflicts, r.ids) && b.memo == db.memo && FeedLives(b.rows, p.feed) &&
        b.conflicts == LiveConflicts(b.rows, Claimed(db.conflicts, r.ids))
      else b == db
  {
  }

  lemma TakeOverConflicts(reg: Registry, db: Db, g: Hlc.Gen, w: Env, trip: string, item: string, taker: string, wall: int)
    ensures var b := TakeOver(reg, db, g, w, trip, item, taker, wall).0;
      b == db || (b.memo == db.memo && b.conflicts == LiveConflicts(b.rows, db.conflicts))
  {
  }

  /** A reading takes the group whole. */
  lemma LookingIsWhole(reg: Registry, db: Db, p: Partition, id: ConflictId)
    requires OneFlag(db.conflicts) && Booked(db) && ReadGroup(reg, db, p, id).1.Some?
    ensures Whole(db, ReadGroup(reg, db, p, id).1.value)
  {
  }

  /** No event splits a group's flags, whatever the reads of a revert were overtaken by. */
  lemma NextKeepsAtomic(reg: Registry, s: Sys, e: Event)
    requires Atomic(s) && ReadBefore(s, e)
    ensures Atomic(Next(reg, s, e))
  {
    match e
    case Push(p, m, w) =>
      PushAdds(reg, s.db, w, p, m);
      if Next(reg, s, e).db != s.db { AddingKeepsAtomic(s, Next(reg, s, e).db, m.mutationId); }
    case Look(p, id) =>
      if ReadGroup(reg, s.db, p, id).1.Some? { LookingIsWhole(reg, s.db, p, id); }
    case Revert(p, r, w, wall) =>
      RestoreConflicts(reg, s.db, s.gen, w, p, r, wall);
      if Restore(reg, s.db, s.gen, w, p, r, wall).2.Restored? {
        ClaimingKeepsAtomic(s, Next(reg, s, e).db.rows, Next(reg, s, e).db.conflicts, r);
      }
    case Claim(trip, item, taker, w, wall) =>
      TakeOverConflicts(reg, s.db, s.gen, w, trip, item, taker, wall);
    case Mint(_, _) =>
  }

  /** A flag flips exactly when the write that restores its value commits. */
  lemma FlagFlipsExactly(reg: Registry, s: Sys, e: Event, i: ConflictId)
    requires Atomic(s) && ReadBefore(s, e) && i in s.db.conflicts && i in Next(reg, s, e).db.conflicts
    ensures Next(reg, s, e).db.conflicts[i].reverted != s.db.conflicts[i].reverted <==>
      e.Revert? && i in e.r.ids && Restore(reg, s.db, s.gen, e.w, e.p, e.r, e.wall).2.Restored?
    ensures s.db.conflicts[i].reverted ==> Next(reg, s, e).db.conflicts[i].reverted
  {
    match e
    case Push(p, m, w) => PushAdds(reg, s.db, w, p, m);
    case Revert(p, r, w, wall) => RestoreConflicts(reg, s.db, s.gen, w, p, r, wall);
    case Claim(trip, item, taker, w, wall) => TakeOverConflicts(reg, s.db, s.gen, w, trip, item, taker, wall);
    case _ =>
  }

  /** Every revert of a run restores a reading some device made. */
  ghost predicate ReadsFirst(reg: Registry, s: Sys, events: seq<Event>) {
    events != [] ==>
      ReadsFirst(reg, s, events[..|events| - 1]) && ReadBefore(Run(reg, s, events[..|events| - 1]), events[|events| - 1])
  }

  /** So in every reachable state a group has one flag. */
  lemma {:induction false} RunIsAtomic(reg: Registry, gen: Hlc.Gen, events: seq<Event>)
    requires ReadsFirst(reg, Start(gen), events)
    ensures Atomic(Run(reg, Start(gen), events))
  {
    if events != [] {
      RunIsAtomic(reg, gen, events[..|events| - 1]);
      NextKeepsAtomic(reg, Run(reg, Start(gen), events[..|events| - 1]), events[|events| - 1]);
    }
  }
}
