// The store as it runs: transactions that write row by row and entry by entry,
// and commit whole or not at all (internal/store/partition.go, pipeline.go,
// conflicts.go, locks.go, master_prune_item.go). Each entry point is proved to
// do what its specification in Pipeline.dfy or Restoring.dfy says.
module Store {
  import opened Values
  import opened Vocabulary
  import opened Merging
  import opened Registry
  import opened Database
  import opened Stamping
  import opened Guards
  import opened Pipeline
  import opened Restoring
  import opened System
  import opened Clocks
  import opened Retiring
  import Hlc

  /** Both logs' foreign key to their trip holds. */
  ghost predicate LogsLive(db: Db) {
    (forall f | f in db.logs :: FeedLives(db.rows, f)) &&
    (forall i | i in db.conflicts :: FeedLives(db.rows, db.conflicts[i].feed))
  }

  lemma ExtendedByNone(db: Db, f: Feed)
    ensures Extended(db, f, []) == db
  {
  }

  lemma ExtendedTwice(db: Db, f: Feed, a: seq<Note>, b: seq<Note>)
    ensures Extended(Extended(db, f, a), f, b) == Extended(db, f, a + b)
    ensures Extended(db, f, a + b).rows == db.rows
  {
    if a != [] && b != [] {
      assert Numbered(a, db.head) + Numbered(b, db.head + |a|) == Numbered(a + b, db.head);
      assert LogOf(db, f) + Numbered(a, db.head) + Numbered(b, db.head + |a|) == LogOf(db, f) + Numbered(a + b, db.head);
    } else {
      assert a + b == if a == [] then b else a;
    }
  }

  lemma ReplacedBySame(db: Db)
    requires LogsLive(db)
    ensures Replaced(db, db.rows) == db
  {
    assert LiveLogs(db.rows, db.logs) == db.logs && LiveConflicts(db.rows, db.conflicts) == db.conflicts;
  }

  /** One transaction's view of the database. */
  class Tx {
    var db: Db

    constructor (db: Db)
      ensures this.db == db
    {
      this.db := db;
    }

    /** `appendChangeLog`; the insert fails when the entry's trip is gone. */
    method Append(f: Feed, n: Note) returns (ok: bool)
      modifies this
      ensures ok == FeedLives(old(db).rows, f)
      ensures db == if ok then Extended(old(db), f, [n]) else old(db)
    {
      ok := FeedLives(db.rows, f);
      if ok {
        var entry := Entry(db.head + 1, n.key, n.deleted, n.hlc);
        assert Numbered([n], db.head) == [entry];
        db := db.(head := db.head + 1, logs := db.logs[f := LogOf(db, f) + [entry]]);
      }
    }

    /** An entry for each key, in order. */
    method AppendAll(f: Feed, keys: seq<Key>, deleted: bool, hlc: Clock)
      requires FeedLives(db.rows, f)
      modifies this
      ensures db == Extended(old(db), f, Notes(keys, deleted, hlc))
    {
      hide Extended;
      ExtendedByNone(db, f);
      var i := 0;
      assert Notes(keys[..i], deleted, hlc) == [];
      while i < |keys|
        invariant i <= |keys| && db.rows == old(db).rows
        invariant db == Extended(old(db), f, Notes(keys[..i], deleted, hlc))
      {
        var _ := Append(f, Note(keys[i], deleted, hlc));
        ExtendedTwice(old(db), f, Notes(keys[..i], deleted, hlc), [Note(keys[i], deleted, hlc)]);
        assert Notes(keys[..i], deleted, hlc) + [Note(keys[i], deleted, hlc)] == Notes(keys[..i + 1], deleted, hlc);
        i := i + 1;
      }
      assert keys[..i] == keys;
    }

    /** `cascadeChildren`: the rows a delete would take, query by query. */
    method CascadeChildren(reg: Registry, k: Key, w: Env) returns (kids: seq<Key>)
      ensures kids == KidsOf(reg, db.rows, k, w)
    {
      var queries := reg.children(k.table);
      kids := [];
      var i := 0;
      while i < |queries|
        invariant i <= |queries| && kids == Kids(queries[..i], db.rows, k.id, w)
      {
        kids := kids + w.listing(ChildrenOf(db.rows, queries[i], k.id));
        assert queries[..i + 1][..i] == queries[..i];
        i := i + 1;
      }
      assert queries[..i] == queries;
    }

    /** `stillReferenced`: whether some declared reference keeps the row. */
    method StillReferenced(reg: Registry, k: Key) returns (blocked: bool)
      ensures blocked == Blocked(reg, db.rows, k)
    {
      var references := reg.blockers(k.table);
      var i := 0;
      while i < |references|
        invariant i <= |references|
        invariant forall j | 0 <= j < i ::
          !Referenced(db.rows, references[j], k.id, if references[j].table == k.table then Some(k) else None)
      {
        var r := references[i];
        if Referenced(db.rows, r, k.id, if r.table == k.table then Some(k) else None) { return true; }
        i := i + 1;
      }
      return false;
    }

    /** `relogRefused`: the row a refusal did not change, and what its delete would have taken. */
    method RelogRefused(reg: Registry, f: Feed, m: Mutation, w: Env) returns (ok: bool)
      modifies this
      ensures ok == FeedLives(old(db).rows, f)
      ensures db == if ok then Extended(old(db), f, Relogged(reg, old(db).rows, w, m)) else old(db)
    {
      var k, row := KeyOf(m), Load(db.rows, KeyOf(m));
      var entry := Note(k, row.None?, if row.Some? then row.value.hlc else m.hlc);
      ok := Append(f, entry);
      if ok && m.op.Delete? && row.Some? {
        var kids := CascadeChildren(reg, k, w);
        AppendAll(f, kids, false, m.hlc);
        ExtendedTwice(old(db), f, [entry], Notes(kids, false, m.hlc));
      } else {
        assert [entry] + [] == [entry];
      }
    }

    /** `persist`: insert, update or delete with its foreign-key actions, refused whole by a constraint. */
    method Persist(reg: Registry, w: Env, m: Mutation, merged: MergeResult) returns (changed: bool, ok: bool)
      requires LogsLive(db)
      modifies this
      ensures changed == Changes(old(db).rows, m, merged)
      ensures ok == (changed ==> Accepts(reg, w, Persisted(reg, old(db).rows, m, merged)))
      ensures db == if changed && ok then Replaced(old(db), Persisted(reg, old(db).rows, m, merged)) else old(db)
    {
      var k, rows := KeyOf(m), db.rows;
      changed, ok := true, true;
      if merged.deleted && k !in db.rows {
        changed := false;
      } else if merged.deleted {
        rows := Deleted(reg, rows, k);
      } else if k !in db.rows {
        rows := rows[k := Inserted(merged, reg.columns(m.table), reg.defaults(m.table))];
      } else if merged.applied != map[] {
        rows := rows[k := Updated(rows[k], merged)];
      } else {
        changed := false;
      }
      if changed {
        ok := Accepts(reg, w, rows);
        if ok { db := Replaced(db, rows); }
      }
    }

    /** `masterAfterChange`: the entries only the master partition owes, and a new trip's owner. */
    method AfterMasterChange(reg: Registry, w: Env, p: Partition, m: Mutation, before: Option<Row>, deleted: bool, retired: bool)
      returns (ok: bool, relogged: nat)
      requires p.feed.MasterFeed? && (retired ==> before.Some?)
      modifies this
      ensures relogged == if retired then |KidsOf(reg, old(db).rows, KeyOf(m), w)| else 0
      ensures var founds := Founds(p, m, before.Some?, deleted);
        var member := Key(TripMembers, w.memberId);
        ok == !(founds && member in old(db).rows) &&
        (ok ==>
          var all := if founds then old(db).rows[member := FounderRow(m, p.actor)] else old(db).rows;
          db == Extended(old(db).(rows := all), p.feed, AfterChange(reg, all, w, p, m, before, deleted, retired)))
    {
      var member := Key(TripMembers, w.memberId);
      ghost var was := db;
      ghost var notes: seq<Note> := [];
      relogged := 0;
      if retired {
        var kids := CascadeChildren(reg, KeyOf(m), w);
        relogged := |kids|;
        AppendAll(p.feed, kids, false, m.hlc);
        notes := Notes(kids, false, m.hlc);
      }
      if m.table.Trips? && before.None? && !deleted {
        if member in db.rows { return false, relogged; }
        db := db.(rows := db.rows[member := FounderRow(m, p.actor)]);
        was := was.(rows := db.rows);
        assert db == Extended(was, p.feed, notes);
        var _ := Append(p.feed, Note(member, false, m.hlc));
        ExtendedTwice(was, p.feed, notes, [Note(member, false, m.hlc)]);
        notes := notes + [Note(member, false, m.hlc)];
      }
      if m.table.TripMembers? && !deleted {
        var trip := MemberTrip(before, m);
        if trip.Some? {
          var touch := Note(Key(Trips, trip.value), false, m.hlc);
          var _ := Append(p.feed, touch);
          ExtendedTwice(was, p.feed, notes, [touch]);
          notes := notes + [touch];
        }
      }
      assert notes == AfterChange(reg, was.rows, w, p, m, before, deleted, retired);
      ok := true;
    }

    /** `logConflicts`: one row for every field the merge dropped. */
    method LogConflicts(p: Partition, m: Mutation, lost: map<Column, Loss>) returns (ok: bool)
      modifies this
      ensures ok == (lost == map[] || FeedLives(old(db).rows, p.feed))
      ensures ok ==> db == old(db).(conflicts := old(db).conflicts + ConflictRows(p, m, lost))
    {
      ok := lost == map[] || FeedLives(db.rows, p.feed);
      if !ok { return; }
      var todo, rows := lost.Keys, db.conflicts;
      ghost var done := {};
      assert rows == db.conflicts + LoggedOf(p, m, lost, done);
      while todo != {}
        invariant todo <= lost.Keys && done == lost.Keys - todo
        invariant db == old(db) && rows == db.conflicts + LoggedOf(p, m, lost, done)
      {
        var c := PickOne(todo);
        LogOne(db.conflicts, p, m, lost, done, c);
        rows := rows[ConflictId(m.mutationId, KeyOf(m), c) := Conflict(p.feed, p.actor, lost[c], false)];
        todo, done := todo - {c}, done + {c};
      }
      AllLogged(p, m, lost, done);
      db := db.(conflicts := rows);
    }

    /** The revert's claim: every entry of the group, or the transaction is called off. */
    method ClaimEntries(ids: set<ConflictId>) returns (ok: bool)
      modifies this
      ensures ok == Claimable(old(db).conflicts, ids)
      ensures ok ==> db == old(db).(conflicts := Claimed(old(db).conflicts, ids))
    {
      var todo, conflicts := ids, db.conflicts;
      ghost var done := {};
      assert conflicts == Claimed(db.conflicts, done);
      while todo != {}
        invariant db == old(db) && todo <= ids && done == ids - todo
        invariant Claimable(db.conflicts, done) && conflicts == Claimed(db.conflicts, done)
      {
        var i := PickOne(todo);
        if i !in conflicts || conflicts[i].reverted { return false; }
        conflicts := conflicts[i := conflicts[i].(reverted := true)];
        todo, done := todo - {i}, done + {i};
      }
      assert done == ids;
      db := db.(conflicts := conflicts);
      ok := true;
    }

    /** `updateRow`, refused by a constraint or not. */
    method UpdateRow(reg: Registry, w: Env, k: Key, merged: MergeResult) returns (ok: bool)
      requires k in db.rows
      modifies this
      ensures ok == Accepts(reg, w, old(db).rows[k := Updated(old(db).rows[k], merged)])
      ensures db == if ok then old(db).(rows := old(db).rows[k := Updated(old(db).rows[k], merged)]) else old(db)
    {
      var rows := db.rows[k := Updated(db.rows[k], merged)];
      ok := Accepts(reg, w, rows);
      if ok { db := db.(rows := rows); }
    }

    /** `finalize`: the memo row. */
    method RecordResult(id: string, outcome: Outcome, conflicts: map<Column, Loss>, at: nat)
      modifies this
      ensures db == old(db).(memo := old(db).memo[id := Memo(outcome, conflicts, at)])
    {
      db := db.(memo := db.memo[id := Memo(outcome, conflicts, at)]);
    }
  }

  /** The conflict rows of some of the lost fields. */
  function LoggedOf(p: Partition, m: Mutation, lost: map<Column, Loss>, some: set<Column>): map<ConflictId, Conflict>
    requires some <= lost.Keys
  {
    map c | c in some :: ConflictId(m.mutationId, KeyOf(m), c) := Conflict(p.feed, p.actor, lost[c], false)
  }

  lemma LogOne(base: map<ConflictId, Conflict>, p: Partition, m: Mutation, lost: map<Column, Loss>, some: set<Column>, c: Column)
    requires some <= lost.Keys && c in lost
    ensures base + LoggedOf(p, m, lost, some + {c}) ==
      (base + LoggedOf(p, m, lost, some))[ConflictId(m.mutationId, KeyOf(m), c) := Conflict(p.feed, p.actor, lost[c], false)]
  {
  }

  lemma AllLogged(p: Partition, m: Mutation, lost: map<Column, Loss>, some: set<Column>)
    requires some == lost.Keys
    ensures LoggedOf(p, m, lost, some) == ConflictRows(p, m, lost)
  {
  }

  /** The master tables with a delete endpoint. */
  const DELETABLE := {Tags, Items, Templates, TemplateItems}

  datatype DeleteAnswer = NotDeletable | NoSuchRow | Undecided | Done(outcome: Outcome, retired: bool, at: nat, reason: Reason)

  /** What a server is made of: its registry, its clocks, its one database. */
  class Server {
    const reg: Registry
    const hlc: Hlc.Generator
    var db: Db

    constructor (reg: Registry, hlc: Hlc.Generator)
      ensures this.reg == reg && this.hlc == hlc && db == Db(map[], map[], 0, map[], map[]) && LogsLive(db)
    {
      this.reg, this.hlc := reg, hlc;
      db := Db(map[], map[], 0, map[], map[]);
    }

    /** `finalize`: the memo row, and the commit. */
    method Finalize(tx: Tx, id: string, outcome: Outcome, reason: Reason, lost: map<Column, Loss>, at: nat) returns (answer: Answer)
      modifies this`db, tx
      ensures db == old(tx.db).(memo := old(tx.db).memo[id := Memo(outcome, lost, at)])
      ensures answer == Replied(outcome, reason, lost, at)
    {
      tx.RecordResult(id, outcome, lost, at);
      db := tx.db;
      answer := Replied(outcome, reason, lost, at);
    }

    /** `reject`: the refusal is answered and remembered, and nothing of it is written. */
    method Reject(tx: Tx, w: Env, p: Partition, m: Mutation, reason: Reason, relog: bool) returns (answer: Answer)
      requires tx.db == db && LogsLive(db)
      modifies this`db, tx
      ensures db == Pipeline.Reject(reg, old(db), w, p, m, reason, relog).0
      ensures answer == Pipeline.Reject(reg, old(db), w, p, m, reason, relog).1
    {
      ghost var e := Rejecting(reg, db, w, m, reason, relog);
      RefusalShape(reg, db, w, m, reason, relog);
      if !relog {
        EndUntold(db, p, m, e);
        answer := Finalize(tx, m.mutationId, Rejected, reason, map[], 0);
      } else {
        answer := RejectTold(tx, w, p, m, reason);
      }
    }

    method RejectTold(tx: Tx, w: Env, p: Partition, m: Mutation, reason: Reason) returns (answer: Answer)
      requires tx.db == db && LogsLive(db)
      modifies this`db, tx
      ensures db == Pipeline.Reject(reg, old(db), w, p, m, reason, true).0
      ensures answer == Pipeline.Reject(reg, old(db), w, p, m, reason, true).1
    {
      ghost var was, e := db, Rejecting(reg, db, w, m, reason, true);
      var ok := tx.RelogRefused(reg, p.feed, m, w);
      if !ok {
        FailedRefusal(reg, was, w, p, m, reason);
        return Failed;
      }
      assert tx.db == Extended(was, p.feed, e.notes) && tx.db.head == e.at by { RefusalShape(reg, was, w, m, reason, true); }
      answer := Finalize(tx, m.mutationId, Rejected, reason, map[], tx.db.head);
      ToldRefusal(reg, was, w, p, m, reason, e, db, answer);
    }

    /** The steps from `persist` on, for a merge that may write. */
    method Carry(tx: Tx, w: Env, p: Partition, m: Mutation, merged: MergeResult, retired: bool) returns (answer: Answer)
      requires tx.db == db && LogsLive(db) && (retired ==> KeyOf(m) in db.rows && !merged.deleted)
      modifies this`db, tx
      ensures db == Pipeline.Carry(reg, old(db), w, p, m, merged, retired).0
      ensures answer == Pipeline.Carry(reg, old(db), w, p, m, merged, retired).1
    {
      var before, kids := Load(db.rows, KeyOf(m)), [];
      if merged.deleted && before.Some? {
        kids := tx.CascadeChildren(reg, KeyOf(m), w);
      }
      var changed, ok := tx.Persist(reg, w, m, merged);
      if !ok {
        CarryRefused(reg, db, w, p, m, merged, retired);
        answer := Reject(tx, w, p, m, ConstraintViolated, true);
      } else if !changed {
        answer := CarryUnchanged(tx, w, p, m, merged, retired);
      } else {
        answer := CarryChanged(tx, w, p, m, merged, retired, before, kids);
      }
    }

    /** A merge that left nothing to write still leaves its conflicts. */
    method CarryUnchanged(tx: Tx, w: Env, p: Partition, m: Mutation, merged: MergeResult, retired: bool) returns (answer: Answer)
      requires tx.db == db && LogsLive(db) && !Changes(db.rows, m, merged)
      modifies this`db, tx
      ensures db == Pipeline.Carry(reg, old(db), w, p, m, merged, retired).0
      ensures answer == Pipeline.Carry(reg, old(db), w, p, m, merged, retired).1
    {
      UnchangedShape(reg, db, w, p, m, merged, retired);
      var ok := tx.LogConflicts(p, m, merged.conflicts);
      if !ok { return Failed; }
      answer := Finalize(tx, m.mutationId, merged.outcome, Granted, merged.conflicts, 0);
    }

    /** A write that landed: its entries, its conflicts, its memo. */
    method CarryChanged(
      tx: Tx, w: Env, p: Partition, m: Mutation, merged: MergeResult, retired: bool, before: Option<Row>, kids: seq<Key>)
      returns (answer: Answer)
      requires LogsLive(db) && Changes(db.rows, m, merged) && Accepts(reg, w, Persisted(reg, db.rows, m, merged))
      requires tx.db == Replaced(db, Persisted(reg, db.rows, m, merged))
      requires before == Load(db.rows, KeyOf(m)) && (retired ==> before.Some? && !merged.deleted)
      requires kids == if merged.deleted && before.Some? then KidsOf(reg, db.rows, KeyOf(m), w) else []
      modifies this`db, tx
      ensures db == Pipeline.Carry(reg, old(db), w, p, m, merged, retired).0
      ensures answer == Pipeline.Carry(reg, old(db), w, p, m, merged, retired).1
    {
      ghost var was, e := db, Carrying(reg, db, w, p, m, merged, retired);
      var ok, at := LogWrite(tx, w, p, m, merged, retired, before, kids);
      if !ok { return Failed; }
      ok := tx.LogConflicts(p, m, merged.conflicts);
      ChangedOutcome(reg, was, w, p, m, merged, retired);
      answer := Finalize(tx, m.mutationId, merged.outcome, Granted, merged.conflicts, at);
    }

    /** A row's entry, and the tombstones of the rows it took along. */
    method LogRow(tx: Tx, f: Feed, note: Note, kids: seq<Key>) returns (ok: bool, at: nat)
      modifies tx
      ensures ok == FeedLives(old(tx.db).rows, f)
      ensures ok ==> tx.db == Extended(old(tx.db), f, [note] + Notes(kids, true, note.hlc)) && at == old(tx.db).head + 1
      ensures tx.db.rows == old(tx.db).rows
    {
      hide Numbered;
      at := 0;
      ok := tx.Append(f, note);
      if ok {
        at := tx.db.head;
        tx.AppendAll(f, kids, true, note.hlc);
        ExtendedTwice(old(tx.db), f, [note], Notes(kids, true, note.hlc));
      }
    }

    /** The entries of a write that landed: its own, the rows it took along, what the partition owes. */
    method LogWrite(
      tx: Tx, w: Env, p: Partition, m: Mutation, merged: MergeResult, retired: bool, before: Option<Row>, kids: seq<Key>)
      returns (ok: bool, at: nat)
      requires LogsLive(db) && Changes(db.rows, m, merged) && Accepts(reg, w, Persisted(reg, db.rows, m, merged))
      requires tx.db == Replaced(db, Persisted(reg, db.rows, m, merged))
      requires before == Load(db.rows, KeyOf(m)) && (retired ==> before.Some? && !merged.deleted)
      requires kids == if merged.deleted && before.Some? then KidsOf(reg, db.rows, KeyOf(m), w) else []
      modifies tx
      ensures var e := Carrying(reg, db, w, p, m, merged, retired);
        ok == Commits(p, e) && (ok ==> FeedLives(e.rows, p.feed) && tx.db == Noted(db, e.rows, p.feed, e.notes) && at == e.at)
    {
      hide Accepts, AfterChange, LiveLogs, LiveConflicts, Extended, Persisted, Changes, KidsOf;
      ghost var base := [Note(KeyOf(m), merged.deleted, m.hlc)] + Notes(kids, true, m.hlc);
      ok, at := LogRow(tx, p.feed, Note(KeyOf(m), merged.deleted, m.hlc), kids);
      if !ok {
        DeadFeedFails(reg, db, w, p, m, merged, retired);
        return;
      }
      if p.feed.MasterFeed? {
        var relogged;
        ok, relogged := tx.AfterMasterChange(reg, w, p, m, before, merged.deleted, retired);
        at := at + relogged;
      }
      WrittenShape(reg, db, w, p, m, merged, retired, base, tx.db, ok);
    }

    /** `applyMutation`: memo, load, stamp, scope, tombstone check, merge, reference check, write. */
    method ApplyMutation(w: Env, p: Partition, m0: Mutation) returns (answer: Answer)
      requires LogsLive(db)
      modifies this`db
      ensures LogsLive(db)
      ensures db == Apply(reg, old(db), w, p, m0).0
      ensures answer == Apply(reg, old(db), w, p, m0).1
    {
      ApplyKeepsLogsLive(reg, db, w, p, m0);
      if !Valid(reg, m0, p) { return Invalid; }
      var tx := new Tx(db);
      if m0.mutationId in tx.db.memo {
        var recorded := tx.db.memo[m0.mutationId];
        return Replied(Duplicate, Granted, recorded.conflicts, recorded.at);
      }
      var row := Load(tx.db.rows, KeyOf(m0));
      var m := StampOwned(reg.stamp(m0.table), m0, row.Some?, p.actor, w);
      ScopeIsSound(reg, db.rows, m, p);
      var verdict := Scope(reg, tx.db.rows, m, p);
      if verdict.Refuse? {
        answer := Reject(tx, w, p, m, verdict.reason, p.RelogsScopeRefusals());
        return;
      }
      m := verdict.m;
      if !m.op.Delete? && row.None? {
        var tombstone := NewestTombstone(LogOf(tx.db, p.feed), KeyOf(m));
        if tombstone != 0 && m.hlc <= tombstone {
          answer := Reject(tx, w, p, m, RowDeleted, true);
          return;
        }
      }
      var merged := Merge(row, m);
      var retired, blocked := false, false;
      if merged.deleted && row.Some? {
        blocked := tx.StillReferenced(reg, KeyOf(m));
      }
      if blocked && p.Retires(reg, m.table) {
        retired := true;
        m := RetireInstead(m, w.now);
        merged := Merge(row, m);
      } else if blocked {
        answer := Reject(tx, w, p, m, StillReferenced, true);
        return;
      }
      answer := Carry(tx, w, p, m, merged, retired);
    }

    /** Observes a row's clock and mints one past it. */
    method MintPast(clock: Clock, wall: int) returns (minted: Clock)
      requires clock == 0 || Hlc.IsRank(clock)
      modifies hlc
      ensures hlc.State() == MintedAfter(old(hlc.State()), clock, wall)
      ensures minted == Hlc.Rank(hlc.State().Reading())
    {
      if clock != 0 {
        Hlc.UnrankRank(clock);
        Hlc.ParseFormat(Hlc.Unranked(clock));
        var _ := hlc.Observe(Hlc.Format(Hlc.Unranked(clock)));
      }
      var _ := hlc.Next(wall);
      minted := Hlc.Rank(hlc.State().Reading());
    }

    /** What `RevertTripConflict`, `RevertMasterConflict` and `revertGroup` read before the transaction. */
    method LoadConflict(p: Partition, id: ConflictId) returns (answer: RevertAnswer, reading: Option<Reading>)
      ensures (answer, reading) == ReadGroup(reg, db, p, id)
    {
      if id !in db.conflicts || db.conflicts[id].feed != p.feed { return NotFound, None; }
      if p.feed.MasterFeed? && !Visible(reg, db.rows, p.actor, id.key) { return NotFound, None; }
      var ids := GroupOf(db.conflicts, id);
      if ids == {} { return AlreadyReverted, None; }
      return Restored(0), Some(Reading(id.key, ids, LosingValues(db.conflicts, id)));
    }

    /** `applyRevert`: the claim, the judged and merged restore and its entries, in one transaction. */
    method ApplyRevert(w: Env, p: Partition, r: Reading, wall: int) returns (answer: RevertAnswer)
      requires LogsLive(db) && (r.key in db.rows ==> db.rows[r.key].hlc == 0 || Hlc.IsRank(db.rows[r.key].hlc))
      modifies this`db, hlc
      ensures db == Restore(reg, old(db), old(hlc.State()), w, p, r, wall).0
      ensures hlc.State() == Restore(reg, old(db), old(hlc.State()), w, p, r, wall).1
      ensures answer == Restore(reg, old(db), old(hlc.State()), w, p, r, wall).2
    {
      var m := RestoringMutation(r);
      if !Valid(reg, m, p) { return NotSyncable; }
      var tx := new Tx(db);
      var claimed := tx.ClaimEntries(r.ids);
      if !claimed { return AlreadyReverted; }
      var row := Load(tx.db.rows, r.key);
      if row.None? { return RowGone; }
      ScopeIsSound(reg, db.rows, StampOwned(reg.stamp(m.table), m, true, p.actor, w), p);
      var verdict := Scope(reg, tx.db.rows, StampOwned(reg.stamp(m.table), m, row.Some?, p.actor, w), p);
      if verdict.Refuse? { return Forbidden; }
      var clock := MintPast(row.value.hlc, wall);
      m := verdict.m.(hlc := clock);
      answer := WriteRestore(tx, w, p, r, m);
    }

    /** The restore's own merge, write and entries; nothing stands unless all of it does. */
    method WriteRestore(tx: Tx, w: Env, p: Partition, r: Reading, m: Mutation) returns (answer: RevertAnswer)
      requires LogsLive(db) && r.key in db.rows && tx.db == db.(conflicts := Claimed(db.conflicts, r.ids))
      requires m.op.Upsert? && KeyOf(m) == r.key && reg.side(m.table) == SideOf(p.feed)
      modifies this`db, tx
      ensures db == WriteBack(reg, old(db), hlc.State(), w, p, r, m).0
      ensures answer == WriteBack(reg, old(db), hlc.State(), w, p, r, m).2
    {
      hide Resolve, Accepts, AfterChange, LiveLogs, LiveConflicts, Numbered;
      var row := tx.db.rows[r.key];
      var merged := Merge(Some(row), m);
      if merged.applied == map[] { return RefusedByMerge; }
      var ok := tx.UpdateRow(reg, w, r.key, merged);
      if !ok { return RefusedByMerge; }
      ghost var was, updated := db, tx.db;
      ok := tx.Append(p.feed, Note(r.key, false, m.hlc));
      if !ok { return Broken; }
      var at := tx.db.head;
      if p.feed.MasterFeed? {
        var _, _ := tx.AfterMasterChange(reg, w, p, m, Some(row), false, false);
      }
      RestoreShape(reg, was, hlc.State(), w, p, r, m, Updated(row, merged), updated, tx.db);
      db := tx.db;
      answer := Restored(at);
    }

    /** `TakeOverClaim`: the claim changes hands without ever being free. */
    method TakeOverClaim(w: Env, trip: string, item: string, taker: string, wall: int) returns (answer: TakeOverAnswer)
      requires LogsLive(db)
      requires Key(TripItems, item) in db.rows ==>
        db.rows[Key(TripItems, item)].hlc == 0 || Hlc.IsRank(db.rows[Key(TripItems, item)].hlc)
      modifies this`db, hlc
      ensures db == TakeOver(reg, old(db), old(hlc.State()), w, trip, item, taker, wall).0
      ensures hlc.State() == TakeOver(reg, old(db), old(hlc.State()), w, trip, item, taker, wall).1
      ensures answer == TakeOver(reg, old(db), old(hlc.State()), w, trip, item, taker, wall).2
    {
      var tx := new Tx(db);
      var k := Key(TripItems, item);
      if k !in tx.db.rows || Cell(tx.db.rows, k, TripId) != Text(trip) { return NoSuchItem; }
      var holder := AsText(Cell(tx.db.rows, k, PackingNowBy));
      if Cell(tx.db.rows, k, State) != Text(PACKING_NOW) || holder == "" { return NotHeld; }
      if holder == taker { return OwnClaim; }
      var row := tx.db.rows[k];
      var clock := MintPast(row.hlc, wall);
      var m := TakeOverMutation(item, taker, w.now, clock);
      answer := WriteTakeOver(tx, w, trip, k, m, holder);
    }

    method WriteTakeOver(tx: Tx, w: Env, trip: string, k: Key, m: Mutation, holder: string) returns (answer: TakeOverAnswer)
      requires LogsLive(db) && tx.db == db && k in db.rows && k.table.TripItems? && m.op.Upsert?
      modifies this`db, tx
      ensures db == WriteClaim(reg, old(db), w, trip, k, m, holder).0
      ensures answer == WriteClaim(reg, old(db), w, trip, k, m, holder).1
    {
      var merged := Merge(Some(tx.db.rows[k]), m);
      var ok := tx.UpdateRow(reg, w, k, merged);
      if !ok { return NotWritten; }
      TakenShape(db, k, tx.db.rows, TripFeed(trip), Note(k, false, m.hlc));
      ok := tx.Append(TripFeed(trip), Note(k, false, m.hlc));
      if !ok { return NotWritten; }
      db := tx.db;
      answer := TakenOver(holder, tx.db.head);
    }

    /** `DeleteMasterRow`, with nobody writing between its reads and its transaction: gone, or kept and marked, as answered. */
    method DeleteMasterRow(w: Env, actor: string, t: Table, id: string, mutationId: string, wall: int) returns (answer: DeleteAnswer)
      requires LogsLive(db) && Sane(reg, db) && Clocked(reg, db.rows) && Lasting(reg) && mutationId !in db.memo
      requires reg.side(TripItems).OnTrip? && !reg.retirable(Trips) && hlc.State().WellFormed()
      requires Key(t, id) in db.rows ==> Hlc.IsRank(db.rows[Key(t, id)].hlc)
      modifies this`db, hlc
      ensures t !in DELETABLE ==> answer == NotDeletable && db == old(db)
      ensures t in DELETABLE && Key(t, id) !in old(db).rows ==> answer == NoSuchRow && db == old(db)
      ensures var k := Key(t, id);
        t in DELETABLE && k in old(db).rows && reg.retirable(t) && w.accepts && hlc.State().lastMillis < Hlc.MILLIS_LIMIT ==>
          && answer.Done? && !answer.outcome.Rejected? && answer.retired == Blocked(reg, old(db).rows, k)
          && if answer.retired then k in db.rows && Cell(db.rows, k, RetiredAt) == Text(w.now) else k !in db.rows
    {
      hide SchemaOk, Clocked, Lasting, Apply, Blocked, LogsLive;
      if t !in DELETABLE { return NotDeletable; }
      var k := Key(t, id);
      if k !in db.rows { return NoSuchRow; }
      var clock := MintPast(db.rows[k].hlc, wall);
      var m := Mutation(mutationId, Delete, t, id, map[], clock);
      var p := Partition(MasterFeed, actor, false);
      if reg.retirable(t) && w.accepts && hlc.State().lastMillis < Hlc.MILLIS_LIMIT {
        MintedDeleteDecides(reg, db, old(hlc.State()), w, p, m, wall);
      }
      var a := ApplyMutation(w, p, m);
      if !a.Replied? { return Undecided; }
      var retired := false;
      if !a.outcome.Rejected? && reg.retirable(t) {
        retired := k in db.rows && Cell(db.rows, k, RetiredAt) != Null;
      }
      answer := Done(a.outcome, retired, a.at, a.reason);
    }

    /** `PruneMasterItem`, with nobody writing between its read and its transaction. */
    method PruneMasterItem(w: Env, actor: string, id: string, mutationId: string, wall: int) returns (pruned: bool)
      requires LogsLive(db) && reg.side(Items) == OnMaster && reg.guard(Items) == Unguarded && mutationId !in db.memo
      requires Key(Items, id) in db.rows ==> Hlc.IsRank(db.rows[Key(Items, id)].hlc)
      requires hlc.State().WellFormed()
      modifies this`db, hlc
      ensures ItemInUse(reg, old(db).rows, id) ==> !pruned && db.rows == old(db).rows
      ensures pruned && hlc.State().lastMillis < Hlc.MILLIS_LIMIT ==> Key(Items, id) in old(db).rows && Key(Items, id) !in db.rows
      ensures !pruned ==> db.rows == old(db).rows
    {
      var k := Key(Items, id);
      if k !in db.rows { return false; }
      var clock := MintPast(db.rows[k].hlc, wall);
      var m := Mutation(mutationId, Delete, Items, id, map[], clock);
      var p := Partition(MasterFeed, actor, true);
      if ItemInUse(reg, db.rows, id) { PruneUsedOutcome(reg, db, w, p, m); } else { PruneUnusedOutcome(reg, db, w, p, m); }
      if hlc.State().lastMillis < Hlc.MILLIS_LIMIT { MintedIsNewer(old(hlc.State()), db.rows[k].hlc, wall); }
      var answer := ApplyMutation(w, p, m);
      pruned := Pruned(answer);
    }
  }

  lemma NothingLogged(base: map<ConflictId, Conflict>, p: Partition, m: Mutation)
    ensures base + ConflictRows(p, m, map[]) == base
  {
  }

  /** A transaction that changed no row: its entries, and the memo. */
  lemma EndInPlace(db: Db, p: Partition, m: Mutation, e: Ending)
    requires LogsLive(db) && e.Ended? && e.rows == db.rows && e.lost == map[] && FeedLives(db.rows, p.feed)
    ensures End(db, p, m, e) ==
      (Extended(db, p.feed, e.notes).(memo := db.memo[m.mutationId := Memo(e.outcome, map[], e.at)]),
       Replied(e.outcome, e.reason, map[], e.at))
  {
    ReplacedBySame(db);
    NothingLogged(Extended(db, p.feed, e.notes).conflicts, p, m);
  }

  lemma EndUntold(db: Db, p: Partition, m: Mutation, e: Ending)
    requires LogsLive(db) && e.Ended? && e.rows == db.rows && e.lost == map[] && e.notes == []
    ensures End(db, p, m, e) ==
      (db.(memo := db.memo[m.mutationId := Memo(e.outcome, map[], e.at)]), Replied(e.outcome, e.reason, map[], e.at))
  {
    ReplacedBySame(db);
    NothingLogged(db.conflicts, p, m);
  }

  lemma RefusalShape(reg: Registry, db: Db, w: Env, m: Mutation, why: Reason, relog: bool)
    ensures var e, notes := Rejecting(reg, db, w, m, why, relog), if relog then Relogged(reg, db.rows, w, m) else [];
      && e.Ended? && e.rows == db.rows && e.notes == notes && e.lost == map[] && e.outcome == Rejected && e.reason == why
      && e.at == (if relog then db.head + |notes| else 0)
      && (relog ==> notes != [])
  {
  }

  lemma FailedRefusal(reg: Registry, db: Db, w: Env, p: Partition, m: Mutation, why: Reason)
    requires !FeedLives(db.rows, p.feed)
    ensures Pipeline.Reject(reg, db, w, p, m, why, true) == (db, Failed)
  {
    RefusalShape(reg, db, w, m, why, true);
  }

  /** What a re-logged refusal commits. */
  lemma ToldRefusal(reg: Registry, db: Db, w: Env, p: Partition, m: Mutation, why: Reason, e: Ending, b: Db, answer: Answer)
    requires LogsLive(db) && FeedLives(db.rows, p.feed) && e == Rejecting(reg, db, w, m, why, true)
    requires b == Extended(db, p.feed, e.notes).(memo := db.memo[m.mutationId := Memo(Rejected, map[], e.at)])
    requires answer == Replied(Rejected, why, map[], e.at)
    ensures b == Pipeline.Reject(reg, db, w, p, m, why, true).0
    ensures answer == Pipeline.Reject(reg, db, w, p, m, why, true).1
  {
    RefusalShape(reg, db, w, m, why, true);
    EndInPlace(db, p, m, e);
  }

  /** A constraint that refuses the write makes it a refusal like any other. */
  lemma CarryRefused(reg: Registry, db: Db, w: Env, p: Partition, m: Mutation, merged: MergeResult, retired: bool)
    requires Changes(db.rows, m, merged) && !Accepts(reg, w, Persisted(reg, db.rows, m, merged))
    ensures Pipeline.Carry(reg, db, w, p, m, merged, retired) == Pipeline.Reject(reg, db, w, p, m, ConstraintViolated, true)
  {
  }

  lemma UnchangedShape(reg: Registry, db: Db, w: Env, p: Partition, m: Mutation, merged: MergeResult, retired: bool)
    requires LogsLive(db) && !Changes(db.rows, m, merged)
    ensures Pipeline.Carry(reg, db, w, p, m, merged, retired) ==
      if merged.conflicts != map[] && !FeedLives(db.rows, p.feed) then (db, Failed)
      else (db.(conflicts := db.conflicts + ConflictRows(p, m, merged.conflicts),
                memo := db.memo[m.mutationId := Memo(merged.outcome, merged.conflicts, 0)]),
            Replied(merged.outcome, Granted, merged.conflicts, 0))
  {
    ReplacedBySame(db);
  }

  lemma DeadFeedFails(reg: Registry, db: Db, w: Env, p: Partition, m: Mutation, merged: MergeResult, retired: bool)
    requires Changes(db.rows, m, merged) && Accepts(reg, w, Persisted(reg, db.rows, m, merged))
    requires !FeedLives(Persisted(reg, db.rows, m, merged), p.feed)
    ensures !Commits(p, Carrying(reg, db, w, p, m, merged, retired))
  {
  }

  /** The outcome of a write that landed is the merge's. */
  lemma ChangedOutcome(reg: Registry, db: Db, w: Env, p: Partition, m: Mutation, merged: MergeResult, retired: bool)
    requires Changes(db.rows, m, merged) && Accepts(reg, w, Persisted(reg, db.rows, m, merged))
    ensures var e := Carrying(reg, db, w, p, m, merged, retired);
      e.Ended? ==> e.lost == merged.conflicts && e.outcome == merged.outcome && e.reason == Granted
  {
  }

  /** The entries as they were appended are those the specification lists. */
  lemma WrittenShape(
    reg: Registry, db: Db, w: Env, p: Partition, m: Mutation, merged: MergeResult, retired: bool, base: seq<Note>, b: Db, ok: bool)
    requires LogsLive(db) && Changes(db.rows, m, merged) && Accepts(reg, w, Persisted(reg, db.rows, m, merged))
    requires var rows := Persisted(reg, db.rows, m, merged);
      var founds := Founds(p, m, KeyOf(m) in db.rows, merged.deleted);
      var member := Key(TripMembers, w.memberId);
      var all := if founds then rows[member := FounderRow(m, p.actor)] else rows;
      && FeedLives(rows, p.feed)
      && base == [Note(KeyOf(m), merged.deleted, m.hlc)] + Cascaded(reg, db.rows, w, m, merged.deleted)
      && ok == !(founds && member in rows)
      && (ok ==> b == if p.feed.TripFeed? then Extended(Replaced(db, rows), p.feed, base)
           else Extended(Extended(Replaced(db, rows), p.feed, base).(rows := all), p.feed,
             AfterChange(reg, all, w, p, m, Load(db.rows, KeyOf(m)), merged.deleted, retired)))
    ensures var e := Carrying(reg, db, w, p, m, merged, retired);
      ok == Commits(p, e) && (ok ==> FeedLives(e.rows, p.feed) && b == Noted(db, e.rows, p.feed, e.notes))
  {
    var rows := Persisted(reg, db.rows, m, merged);
    var founds := Founds(p, m, KeyOf(m) in db.rows, merged.deleted);
    var all := if founds then rows[Key(TripMembers, w.memberId) := FounderRow(m, p.actor)] else rows;
    var extra := AfterChange(reg, all, w, p, m, Load(db.rows, KeyOf(m)), merged.deleted, retired);
    if ok {
      CarriedNotes(reg, db, w, p, m, merged, retired, base, all, extra);
      ReplacedFounder(db, rows, all);
      ExtendedTwice(Replaced(db, all), p.feed, base, extra);
      if p.feed.TripFeed? { assert base + extra == base; }
      else { RowsAside(Replaced(db, rows), all, p.feed, base); }
    }
  }

  /** Appending entries and replacing rows commute. */
  lemma RowsAside(db: Db, rows: Rows, f: Feed, notes: seq<Note>)
    ensures Extended(db, f, notes).(rows := rows) == Extended(db.(rows := rows), f, notes)
  {
  }

  lemma CarriedNotes(
    reg: Registry, db: Db, w: Env, p: Partition, m: Mutation, merged: MergeResult, retired: bool, base: seq<Note>,
      all: Rows, extra: seq<Note>)
    requires Changes(db.rows, m, merged) && Accepts(reg, w, Persisted(reg, db.rows, m, merged))
    requires var rows := Persisted(reg, db.rows, m, merged);
      var founds := Founds(p, m, KeyOf(m) in db.rows, merged.deleted);
      var member := Key(TripMembers, w.memberId);
      && !(founds && member in rows)
      && all == (if founds then rows[member := FounderRow(m, p.actor)] else rows)
      && base == [Note(KeyOf(m), merged.deleted, m.hlc)] + Cascaded(reg, db.rows, w, m, merged.deleted)
      && extra == AfterChange(reg, all, w, p, m, Load(db.rows, KeyOf(m)), merged.deleted, retired)
    ensures var e := Carrying(reg, db, w, p, m, merged, retired); e.Ended? && e.rows == all && e.notes == base + extra
  {
  }

  /** A founder's row is no trip, so it moves no log. */
  lemma ReplacedFounder(db: Db, rows: Rows, all: Rows)
    requires forall id: string :: Key(Trips, id) in all <==> Key(Trips, id) in rows
    ensures Replaced(db, rows).(rows := all) == Replaced(db, all)
  {
    assert LiveLogs(rows, db.logs) == LiveLogs(all, db.logs);
    assert LiveConflicts(rows, db.conflicts) == LiveConflicts(all, db.conflicts);
  }

  /** Every transaction leaves both logs with the trips they speak of. */
  lemma EndKeepsLogsLive(db: Db, p: Partition, m: Mutation, e: Ending)
    requires LogsLive(db)
    ensures LogsLive(End(db, p, m, e).0)
  {
    if Commits(p, e) {
      NotedIsLive(db, e.rows, p.feed, e.notes);
      var b := End(db, p, m, e).0;
      forall i | i in b.conflicts ensures FeedLives(b.rows, b.conflicts[i].feed) {
        if i in ConflictRows(p, m, e.lost) { assert ConflictRows(p, m, e.lost)[i].feed == p.feed; }
      }
    }
  }

  lemma NotedIsLive(db: Db, rows: Rows, f: Feed, notes: seq<Note>)
    requires notes != [] ==> FeedLives(rows, f)
    ensures LogsLive(Noted(db, rows, f, notes)) && Noted(db, rows, f, notes).rows == rows
  {
  }

  lemma ApplyKeepsLogsLive(reg: Registry, db: Db, w: Env, p: Partition, m: Mutation)
    requires LogsLive(db)
    ensures LogsLive(Apply(reg, db, w, p, m).0)
  {
    if Valid(reg, m, p) && m.mutationId !in db.memo {
      match Decide(reg, db, w, p, m)
      case Refusal(m1, why, relog) => EndKeepsLogsLive(db, p, m1, Rejecting(reg, db, w, m1, why, relog));
      case Write(m1, merged, retired) => EndKeepsLogsLive(db, p, m1, Carrying(reg, db, w, p, m1, merged, retired));
    }
  }

  /** The entries of a restore as they were appended are those the specification lists. */
  lemma RestoreShape(reg: Registry, db: Db, g: Hlc.Gen, w: Env, p: Partition, r: Reading, m: Mutation, after: Row, updated: Db, b: Db)
    requires LogsLive(db) && r.key in db.rows && KeyOf(m) == r.key
    requires var rows := db.rows[r.key := after];
      && Accepts(reg, w, rows) && FeedLives(rows, p.feed)
      && updated == db.(conflicts := Claimed(db.conflicts, r.ids), rows := rows)
      && b == if p.feed.TripFeed? then Extended(updated, p.feed, [Note(r.key, false, m.hlc)])
              else Extended(Extended(updated, p.feed, [Note(r.key, false, m.hlc)]), p.feed,
                AfterChange(reg, rows, w, p, m, Some(db.rows[r.key]), false, false))
    ensures Landed(reg, db, g, w, p, r, m, after) == (b, g, Restored(db.head + 1))
  {
    var rows := db.rows[r.key := after];
    var own, extra := [Note(r.key, false, m.hlc)], AfterChange(reg, rows, w, p, m, Some(db.rows[r.key]), false, false);
    ClaimedIsLive(db, r.ids);
    SameTrips(db.(conflicts := Claimed(db.conflicts, r.ids)), r.key, after);
    ExtendedTwice(updated, p.feed, own, extra);
    if p.feed.TripFeed? { assert own + extra == own; }
  }

  lemma ClaimedIsLive(db: Db, ids: set<ConflictId>)
    requires LogsLive(db)
    ensures LogsLive(db.(conflicts := Claimed(db.conflicts, ids)))
  {
  }

  /** An update moves no trip, so it moves no log. */
  lemma SameTrips(db: Db, k: Key, row: Row)
    requires LogsLive(db) && k in db.rows
    ensures Replaced(db, db.rows[k := row]) == db.(rows := db.rows[k := row])
  {
    assert forall id: string :: Key(Trips, id) in db.rows[k := row] <==> Key(Trips, id) in db.rows;
    ReplacedBySame(db);
    ReplacedFounder(db, db.rows, db.rows[k := row]);
  }

  lemma TakenShape(db: Db, k: Key, rows: Rows, f: Feed, n: Note)
    requires LogsLive(db) && k.table.TripItems? && rows.Keys == db.rows.Keys + {k}
    ensures Noted(db, rows, f, [n]) == Extended(db.(rows := rows), f, [n])
  {
    assert forall id: string :: Key(Trips, id) in rows <==> Key(Trips, id) in db.rows;
    ReplacedBySame(db);
    ReplacedFounder(db, db.rows, rows);
  }

  lemma PruneUsedOutcome(reg: Registry, db: Db, w: Env, p: Partition, m: Mutation)
    requires p == Partition(MasterFeed, p.actor, true) && m.op.Delete? && m.table.Items? && reg.guard(Items) == Unguarded
    requires m.mutationId !in db.memo && ItemInUse(reg, db.rows, m.id)
    ensures Apply(reg, db, w, p, m).0.rows == db.rows && !Pruned(Apply(reg, db, w, p, m).1)
  {
    var n := Restamped(reg, db, w, p, m);
    PruneRefuses(reg, db, w, p.actor, m);
    RefusalShape(reg, db, w, n, StillReferenced, false);
    EndRows(db, p, n, Rejecting(reg, db, w, n, StillReferenced, false));
  }

  lemma PruneUnusedOutcome(reg: Registry, db: Db, w: Env, p: Partition, m: Mutation)
    requires p == Partition(MasterFeed, p.actor, true) && m.op.Delete? && m.table.Items? && reg.guard(Items) == Unguarded
    requires m.mutationId !in db.memo && KeyOf(m) in db.rows && !ItemInUse(reg, db.rows, m.id)
    ensures !Pruned(Apply(reg, db, w, p, m).1) ==> Apply(reg, db, w, p, m).0.rows == db.rows
    ensures Pruned(Apply(reg, db, w, p, m).1) && m.hlc > db.rows[KeyOf(m)].hlc ==> KeyOf(m) !in Apply(reg, db, w, p, m).0.rows
  {
    var n := Restamped(reg, db, w, p, m);
    if Valid(reg, m, p) {
      PruneDecides(reg, db, w, p, m);
      PruneCarries(reg, db, w, p, n);
      EndRows(db, p, n, Carrying(reg, db, w, p, n, Resolve(Load(db.rows, KeyOf(m)), n), false));
    }
  }

  lemma PruneCarries(reg: Registry, db: Db, w: Env, p: Partition, n: Mutation)
    requires p.feed.MasterFeed? && n.op.Delete? && n.table.Items? && KeyOf(n) in db.rows
    ensures var e := Carrying(reg, db, w, p, n, Resolve(Load(db.rows, KeyOf(n)), n), false);
      e.Ended? && Commits(p, e) && (e.outcome == Rejected ==> e.rows == db.rows) &&
      (e.outcome != Rejected && n.hlc > db.rows[KeyOf(n)].hlc ==> KeyOf(n) !in e.rows)
  {
    DoomedIsClosed(reg, db.rows, {KeyOf(n)});
    RefusalShape(reg, db, w, n, ConstraintViolated, true);
  }

  /** A delete minted past its row's clock keeps the row marked or removes it, as the references say. */
  lemma MintedDeleteDecides(reg: Registry, db: Db, g: Hlc.Gen, w: Env, p: Partition, m: Mutation, wall: int)
    requires Sane(reg, db) && Clocked(reg, db.rows) && Lasting(reg) && m.mutationId !in db.memo && g.WellFormed() && w.accepts
    requires reg.side(TripItems).OnTrip? && !reg.retirable(Trips) && reg.retirable(m.table)
    requires p.feed.MasterFeed? && !p.prune && m.op.Delete? && m.fields == map[] && KeyOf(m) in db.rows
    requires Hlc.IsRank(db.rows[KeyOf(m)].hlc) && MintedAfter(g, db.rows[KeyOf(m)].hlc, wall).lastMillis < Hlc.MILLIS_LIMIT
    requires m.hlc == Hlc.Rank(MintedAfter(g, db.rows[KeyOf(m)].hlc, wall).Reading())
    ensures var (b, answer) := Apply(reg, db, w, p, m);
      && answer.Replied? && !answer.outcome.Rejected?
      && if Blocked(reg, db.rows, KeyOf(m)) then KeyOf(m) in b.rows && Cell(b.rows, KeyOf(m), RetiredAt) == Text(w.now)
         else KeyOf(m) !in b.rows
  {
    hide LinkOk, Apply, Blocked, Complete;
    MintedIsNewer(g, db.rows[KeyOf(m)].hlc, wall);
    DeleteIsAnswered(reg, db, w, p, m);
    if Blocked(reg, db.rows, KeyOf(m)) { BlockedDeleteMarks(reg, db, w, p, m); }
  }

  lemma MintedIsNewer(g: Hlc.Gen, clock: Clock, wall: int)
    requires g.WellFormed() && Hlc.IsRank(clock) && MintedAfter(g, clock, wall).lastMillis < Hlc.MILLIS_LIMIT
    ensures Hlc.Rank(MintedAfter(g, clock, wall).Reading()) > clock
  {
    Hlc.UnrankRank(clock);
    Hlc.MintedAbove(g, Hlc.Unranked(clock), wall);
  }
}
