// The two server-built writes that share the merge: the revert of a logged
// conflict (internal/store/conflicts.go) and the takeover of a packing claim
// (internal/store/locks.go).
module Restoring {
  import opened Values
  import opened Vocabulary
  import opened Merging
  import opened Registry
  import opened Database
  import opened Stamping
  import opened Guards
  import opened Pipeline
  import Hlc

  // ---------------------------------------------------------------- visibility

  /** The owner a row's ownership follows. */
  function OwnerOf(rows: Rows, k: Key): Value {
    if k.table.TripSeries? then SeriesOwner(rows, k.id)
    else if k.table.DestinationProfiles? then ProfileOwner(rows, k.id)
    else if Cell(rows, k, ProfileId).Text? then ProfileOwner(rows, Cell(rows, k, ProfileId).text) else Null
  }

  /** Whether the master pull shows the row to a user; a missing row is shown to nobody it depends on. */
  predicate Visible(reg: Registry, rows: Rows, user: string, k: Key) {
    match reg.visible(k.table)
    case Hidden => false
    case Everyone => true
    case OfTrip =>
      k in rows && if k.table.Trips? then IsMember(rows, k.id, user)
                   else Cell(rows, k, TripId).Text? && IsMember(rows, Cell(rows, k, TripId).text, user)
    case OfOwner => OwnerOf(rows, k) == Text(user)
  }

  // ------------------------------------------------------------------- reverting

  /** What a revert read before its transaction: the entries to claim and the values to restore. */
  datatype Reading = Reading(key: Key, ids: set<ConflictId>, fields: Fields)

  datatype RevertAnswer =
    | NotFound | AlreadyReverted | RowGone | Forbidden | RefusedByMerge | NotSyncable | Broken | Restored(at: nat)

  /** The unreverted entries the same push lost in the same merge unit. */
  function GroupOf(conflicts: map<ConflictId, Conflict>, id: ConflictId): set<ConflictId> {
    set i | i in conflicts && i.mutationId == id.mutationId && i.key == id.key &&
            i.field in GroupedWith(id.field) && !conflicts[i].reverted
  }

  function LosingValues(conflicts: map<ConflictId, Conflict>, id: ConflictId): Fields {
    map c | c in GroupedWith(id.field) && ConflictId(id.mutationId, id.key, c) in GroupOf(conflicts, id)
      :: conflicts[ConflictId(id.mutationId, id.key, c)].loss.losing
  }

  /** The reads before the transaction: the entry, its visibility, its group. */
  function ReadGroup(reg: Registry, db: Db, p: Partition, id: ConflictId): (RevertAnswer, Option<Reading>) {
    if id !in db.conflicts || db.conflicts[id].feed != p.feed ||
       (p.feed.MasterFeed? && !Visible(reg, db.rows, p.actor, id.key)) then (NotFound, None)
    else if GroupOf(db.conflicts, id) == {} then (AlreadyReverted, None)
    else (Restored(0), Some(Reading(id.key, GroupOf(db.conflicts, id), LosingValues(db.conflicts, id))))
  }

  /** Every entry is still there and unclaimed. */
  predicate Claimable(conflicts: map<ConflictId, Conflict>, ids: set<ConflictId>) {
    forall i | i in ids :: i in conflicts && !conflicts[i].reverted
  }

  function Claimed(conflicts: map<ConflictId, Conflict>, ids: set<ConflictId>): map<ConflictId, Conflict> {
    map i | i in conflicts :: if i in ids then conflicts[i].(reverted := true) else conflicts[i]
  }

  /** A row that never went through sync has no clock to respect. */
  function Observed(g: Hlc.Gen, clock: Clock): Hlc.Gen {
    if clock == 0 then g else g.Seen(Hlc.Unranked(clock))
  }

  /** The generator after observing a row's clock and minting the next. */
  function MintedAfter(g: Hlc.Gen, clock: Clock, wall: int): Hlc.Gen {
    Observed(g, clock).Ticked(wall)
  }

  function RestoringMutation(r: Reading): Mutation {
    Mutation("", Upsert, r.key.table, r.key.id, r.fields, 0)
  }

  /** The restore as the stamp and the gate leave it. */
  function GatedRestore(reg: Registry, rows: Rows, w: Env, p: Partition, r: Reading): Verdict {
    var m0 := RestoringMutation(r);
    Scope(reg, rows, StampOwned(reg.stamp(m0.table), m0, r.key in rows, p.actor, w), p)
  }

  /** The restore's clock is minted past the row's own. */
  function Reissued(g: Hlc.Gen, row: Row, gated: Mutation, wall: int): Mutation {
    gated.(hlc := Hlc.Rank(MintedAfter(g, row.hlc, wall).Reading()))
  }

  /** The write of a restore the gate let through. */
  function WriteBack(reg: Registry, db: Db, g: Hlc.Gen, w: Env, p: Partition, r: Reading, m: Mutation): (Db, Hlc.Gen, RevertAnswer)
    requires r.key in db.rows
  {
    var row := db.rows[r.key];
    var merged := Resolve(Some(row), m);
    if merged.applied == map[] then (db, g, RefusedByMerge) else Landed(reg, db, g, w, p, r, m, Updated(row, merged))
  }

  /** The commit of a restore that leaves the row as `after`. */
  function Landed(reg: Registry, db: Db, g: Hlc.Gen, w: Env, p: Partition, r: Reading, m: Mutation, after: Row): (Db, Hlc.Gen, RevertAnswer)
    requires r.key in db.rows
  {
    var rows := db.rows[r.key := after];
    if !Accepts(reg, w, rows) then (db, g, RefusedByMerge)
    else if !FeedLives(rows, p.feed) then (db, g, Broken)
    else
      var notes := [Note(r.key, false, m.hlc)] + AfterChange(reg, rows, w, p, m, Some(db.rows[r.key]), false, false);
      (Noted(db.(conflicts := Claimed(db.conflicts, r.ids)), rows, p.feed, notes), g, Restored(db.head + 1))
  }

  /** The transaction: claim the entries, judge and merge the restore, write it. */
  function Restore(reg: Registry, db: Db, g: Hlc.Gen, w: Env, p: Partition, r: Reading, wall: int): (Db, Hlc.Gen, RevertAnswer) {
    if !Valid(reg, RestoringMutation(r), p) then (db, g, NotSyncable)
    else if !Claimable(db.conflicts, r.ids) then (db, g, AlreadyReverted)
    else if r.key !in db.rows then (db, g, RowGone)
    else
      var v := GatedRestore(reg, db.rows, w, p, r);
      if v.Refuse? then (db, g, Forbidden)
      else
        var m := Reissued(g, db.rows[r.key], v.m, wall);
        WriteBack(reg, db, MintedAfter(g, db.rows[r.key].hlc, wall), w, p, r, m)
  }

  // ---------------------------------------------------------------- taking over

  datatype TakeOverAnswer = NoSuchItem | NotHeld | OwnClaim | NotWritten | TakenOver(from: string, at: nat)

  function TakeOverMutation(item: string, taker: string, now: string, hlc: Clock): Mutation {
    Mutation("", Upsert, TripItems, item,
      map[State := Text(PACKING_NOW), PackingNowBy := Text(taker), PackingNowAt := Text(now)], hlc)
  }

  /** The write of a claim that may be taken. */
  function WriteClaim(reg: Registry, db: Db, w: Env, trip: string, k: Key, m: Mutation, holder: string): (Db, TakeOverAnswer)
    requires k in db.rows
  {
    var rows := db.rows[k := Updated(db.rows[k], Resolve(Some(db.rows[k]), m))];
    if !Accepts(reg, w, rows) || !FeedLives(rows, TripFeed(trip)) then (db, NotWritten)
    else (Noted(db, rows, TripFeed(trip), [Note(k, false, m.hlc)]), TakenOver(holder, db.head + 1))
  }

  function TakeOver(reg: Registry, db: Db, g: Hlc.Gen, w: Env, trip: string, item: string, taker: string, wall: int)
    : (Db, Hlc.Gen, TakeOverAnswer)
  {
    var k := Key(TripItems, item);
    var holder := AsText(Cell(db.rows, k, PackingNowBy));
    if k !in db.rows || Cell(db.rows, k, TripId) != Text(trip) then (db, g, NoSuchItem)
    else if Cell(db.rows, k, State) != Text(PACKING_NOW) || holder == "" then (db, g, NotHeld)
    else if holder == taker then (db, g, OwnClaim)
    else
      var g1 := MintedAfter(g, db.rows[k].hlc, wall);
      var (b, answer) := WriteClaim(reg, db, w, trip, k, TakeOverMutation(item, taker, w.now, Hlc.Rank(g1.Reading())), holder);
      (b, g1, answer)
  }
}
