// One mutation of either partition, as the transaction it commits
// (internal/store/partition.go, pipeline.go, and the after-change entries of
// master.go). Store.dfy runs these steps; here is what they amount to.
module Pipeline {
  import opened Values
  import opened Vocabulary
  import opened Merging
  import opened Registry
  import opened Database
  import opened Stamping
  import opened Guards

  type Env = World<Key>

  /** `Failed` is an error that is no refusal: the transaction rolls back whole. */
  datatype Answer =
    | Invalid
    | Failed
    | Replied(outcome: Outcome, reason: Reason, conflicts: map<Column, Loss>, at: nat)

  /** What the steps before the write decided. */
  datatype Plan =
    | Refusal(m: Mutation, reason: Reason, relog: bool)
    | Write(m: Mutation, merged: MergeResult, retired: bool)

  predicate Valid(reg: Registry, m: Mutation, p: Partition) {
    reg.side(m.table) == SideOf(p.feed) && m.fields.Keys <= reg.columns(m.table)
  }

  // -------------------------------------------------------------------- children

  predicate ViaHop(rows: Rows, k: Key, h: Hop, id: string) {
    Cell(rows, k, h.column).Text? && Cell(rows, Key(h.through, Cell(rows, k, h.column).text), h.link) == Text(id)
  }

  predicate IsChild(rows: Rows, q: ChildQuery, id: string, k: Key) {
    k in rows && k.table == q.table &&
    ((exists c | c in q.direct :: Cell(rows, k, c) == Text(id)) || (exists h | h in q.via :: ViaHop(rows, k, h, id)))
  }

  function ChildrenOf(rows: Rows, q: ChildQuery, id: string): set<Key> {
    set k | k in rows && IsChild(rows, q, id, k)
  }

  /** The rows the queries name, query by query. */
  function Kids(qs: seq<ChildQuery>, rows: Rows, id: string, w: Env): seq<Key> {
    if qs == [] then []
    else Kids(qs[..|qs| - 1], rows, id, w) + w.listing(ChildrenOf(rows, qs[|qs| - 1], id))
  }

  function KidsOf(reg: Registry, rows: Rows, k: Key, w: Env): seq<Key> {
    Kids(reg.children(k.table), rows, k.id, w)
  }

  function Notes(keys: seq<Key>, deleted: bool, hlc: Clock): (r: seq<Note>)
    ensures |r| == |keys| && forall i | 0 <= i < |r| :: r[i] == Note(keys[i], deleted, hlc)
  {
    seq(|keys|, i requires 0 <= i < |keys| => Note(keys[i], deleted, hlc))
  }

  /** Rows elsewhere still point at the row a delete would take. */
  predicate Blocked(reg: Registry, rows: Rows, k: Key) {
    exists r | r in reg.blockers(k.table) :: Referenced(rows, r, k.id, if r.table == k.table then Some(k) else None)
  }

  // ------------------------------------------------------------------- the steps

  /** The write a blocked delete of a retirable row becomes. */
  function RetireInstead(m: Mutation, now: string): Mutation {
    m.(op := Upsert, fields := map[RetiredAt := Text(now)])
  }

  function Decide(reg: Registry, db: Db, w: Env, p: Partition, m0: Mutation): Plan {
    var m1 := StampOwned(reg.stamp(m0.table), m0, KeyOf(m0) in db.rows, p.actor, w);
    Judged(reg, db, w, p, m1, Scope(reg, db.rows, m1, p))
  }

  /** What the gate's verdict on a stamped mutation leads to. */
  function Judged(reg: Registry, db: Db, w: Env, p: Partition, m1: Mutation, v: Verdict): Plan {
    if v.Refuse? then Refusal(m1, v.reason, p.RelogsScopeRefusals())
    else
      var m, k := v.m, KeyOf(v.m);
      var row, tombstone := Load(db.rows, k), NewestTombstone(LogOf(db, p.feed), k);
      if !m.op.Delete? && row.None? && tombstone != 0 && m.hlc <= tombstone then Refusal(m, RowDeleted, true)
      else
        var merged := Resolve(row, m);
        if !(merged.deleted && row.Some? && Blocked(reg, db.rows, k)) then Write(m, merged, false)
        else if !p.Retires(reg, m.table) then Refusal(m, StillReferenced, true)
        else Write(RetireInstead(m, w.now), Resolve(row, RetireInstead(m, w.now)), true)
  }

  /** Whether the merge leaves anything to write. */
  predicate Changes(rows: Rows, m: Mutation, merged: MergeResult) {
    if merged.deleted then KeyOf(m) in rows else KeyOf(m) !in rows || merged.applied != map[]
  }

  function Deleted(reg: Registry, rows: Rows, k: Key): Rows {
    Without(reg, rows, Doomed(reg, rows, {k}))
  }

  function Persisted(reg: Registry, rows: Rows, m: Mutation, merged: MergeResult): Rows {
    var k := KeyOf(m);
    if merged.deleted then Deleted(reg, rows, k)
    else if k in rows then rows[k := Updated(rows[k], merged)]
    else rows[k := Inserted(merged, reg.columns(m.table), reg.defaults(m.table))]
  }

  predicate Accepts(reg: Registry, w: Env, rows: Rows) {
    w.accepts && SchemaOk(reg, rows)
  }

  /** A new trip's creator becomes its owner. */
  predicate Founds(p: Partition, m: Mutation, existed: bool, deleted: bool) {
    p.feed.MasterFeed? && m.table.Trips? && !existed && !deleted
  }

  function FounderRow(m: Mutation, actor: string): Row {
    Row(map[TripId := Text(m.id), UserId := Text(actor), Role := Text(ROLE_OWNER)], m.hlc, map[])
  }

  /** The trip a membership write resurfaces. */
  function MemberTrip(before: Option<Row>, m: Mutation): Option<string> {
    var current := if before.Some? then AsText(Get(before.value.fields, TripId)) else "";
    if Names(m, TripId).Some? && Names(m, TripId).value != "" then Names(m, TripId)
    else if current != "" then Some(current) else None
  }

  /** The extra entries the master partition owes; `rows` already holds the write. */
  function AfterChange(
    reg: Registry, rows: Rows, w: Env, p: Partition, m: Mutation, before: Option<Row>, deleted: bool, retired: bool): seq<Note>
  {
    if p.feed.TripFeed? then []
    else
      (if retired then Notes(KidsOf(reg, rows, KeyOf(m), w), false, m.hlc) else []) +
      (if Founds(p, m, before.Some?, deleted) then [Note(Key(TripMembers, w.memberId), false, m.hlc)] else []) +
      (if m.table.TripMembers? && !deleted && MemberTrip(before, m).Some?
       then [Note(Key(Trips, MemberTrip(before, m).value), false, m.hlc)] else [])
  }

  /** The tombstones of the rows a delete takes along. */
  function Cascaded(reg: Registry, rows: Rows, w: Env, m: Mutation, deleted: bool): seq<Note> {
    if deleted && KeyOf(m) in rows then Notes(KidsOf(reg, rows, KeyOf(m), w), true, m.hlc) else []
  }

  /** The entries that re-deliver a row a refusal did not change. */
  function Relogged(reg: Registry, rows: Rows, w: Env, m: Mutation): seq<Note> {
    var k := KeyOf(m);
    if k !in rows then [Note(k, true, m.hlc)]
    else [Note(k, false, rows[k].hlc)] + (if m.op.Delete? then Notes(KidsOf(reg, rows, k, w), false, m.hlc) else [])
  }

  // ----------------------------------------------------------------- the commit

  predicate FeedLives(rows: Rows, f: Feed) {
    f.TripFeed? ==> Key(Trips, f.trip) in rows
  }

  /** The feeds whose trip is still there: both logs go with it. */
  function LiveLogs(rows: Rows, logs: map<Feed, seq<Entry>>): map<Feed, seq<Entry>> {
    map f | f in logs && FeedLives(rows, f) :: logs[f]
  }

  function LiveConflicts(rows: Rows, conflicts: map<ConflictId, Conflict>): map<ConflictId, Conflict> {
    map i | i in conflicts && FeedLives(rows, conflicts[i].feed) :: conflicts[i]
  }

  function ConflictRows(p: Partition, m: Mutation, lost: map<Column, Loss>): map<ConflictId, Conflict> {
    map c | c in lost :: ConflictId(m.mutationId, KeyOf(m), c) := Conflict(p.feed, p.actor, lost[c], false)
  }

  /** `db` with other rows: what both logs hold of a trip goes with it. */
  function Replaced(db: Db, rows: Rows): Db {
    db.(rows := rows, logs := LiveLogs(rows, db.logs), conflicts := LiveConflicts(rows, db.conflicts))
  }

  /** Entries at the end of a feed, numbered on from the head. */
  function Extended(db: Db, f: Feed, notes: seq<Note>): Db {
    if notes == [] then db
    else db.(head := db.head + |notes|, logs := db.logs[f := LogOf(db, f) + Numbered(notes, db.head)])
  }

  function Noted(db: Db, rows: Rows, f: Feed, notes: seq<Note>): Db {
    Extended(Replaced(db, rows), f, notes)
  }

  /** How a transaction may end: rolled back, or with some rows, notes and losses. */
  datatype Ending =
    | RolledBack
    | Ended(rows: Rows, notes: seq<Note>, lost: map<Column, Loss>, outcome: Outcome, reason: Reason, at: nat)

  /** Both logs refer to the trip: an entry for a trip that is gone rolls the transaction back. */
  predicate Commits(p: Partition, e: Ending) {
    e.Ended? && (FeedLives(e.rows, p.feed) || (e.notes == [] && e.lost == map[]))
  }

  function End(db: Db, p: Partition, m: Mutation, e: Ending): (Db, Answer) {
    if !Commits(p, e) then (db, Failed)
    else
      var noted := Noted(db, e.rows, p.feed, e.notes);
      (noted.(conflicts := noted.conflicts + ConflictRows(p, m, e.lost),
              memo := db.memo[m.mutationId := Memo(e.outcome, e.lost, e.at)]),
       Replied(e.outcome, e.reason, e.lost, e.at))
  }

  /** A refusal writes no row; it re-delivers the one it left unchanged where the partition asks for it. */
  function Rejecting(reg: Registry, db: Db, w: Env, m: Mutation, reason: Reason, relog: bool): Ending {
    var notes := if relog then Relogged(reg, db.rows, w, m) else [];
    Ended(db.rows, notes, map[], Rejected, reason, if relog then db.head + |notes| else 0)
  }

  function Carrying(reg: Registry, db: Db, w: Env, p: Partition, m: Mutation, merged: MergeResult, retired: bool): Ending {
    var k, before, rows := KeyOf(m), Load(db.rows, KeyOf(m)), Persisted(reg, db.rows, m, merged);
    if !Changes(db.rows, m, merged) then Ended(db.rows, [], merged.conflicts, merged.outcome, Granted, 0)
    else if !Accepts(reg, w, rows) then Rejecting(reg, db, w, m, ConstraintViolated, true)
    else
      var founds := Founds(p, m, before.Some?, merged.deleted);
      if founds && Key(TripMembers, w.memberId) in rows then RolledBack
      else
        var all := if founds then rows[Key(TripMembers, w.memberId) := FounderRow(m, p.actor)] else rows;
        var extra := AfterChange(reg, all, w, p, m, before, merged.deleted, retired);
        Ended(all, [Note(k, merged.deleted, m.hlc)] + Cascaded(reg, db.rows, w, m, merged.deleted) + extra,
          merged.conflicts, merged.outcome, Granted,
          db.head + 1 + (if retired && p.feed.MasterFeed? then |KidsOf(reg, all, k, w)| else 0))
  }

  function Reject(reg: Registry, db: Db, w: Env, p: Partition, m: Mutation, reason: Reason, relog: bool): (Db, Answer) {
    End(db, p, m, Rejecting(reg, db, w, m, reason, relog))
  }

  function Carry(reg: Registry, db: Db, w: Env, p: Partition, m: Mutation, merged: MergeResult, retired: bool): (Db, Answer) {
    End(db, p, m, Carrying(reg, db, w, p, m, merged, retired))
  }

  function Apply(reg: Registry, db: Db, w: Env, p: Partition, m: Mutation): (Db, Answer) {
    if !Valid(reg, m, p) then (db, Invalid)
    else if m.mutationId in db.memo then
      (db, Replied(Duplicate, Granted, db.memo[m.mutationId].conflicts, db.memo[m.mutationId].at))
    else
      match Decide(reg, db, w, p, m)
      case Refusal(m1, reason, relog) => Reject(reg, db, w, p, m1, reason, relog)
      case Write(m1, merged, retired) => Carry(reg, db, w, p, m1, merged, retired)
  }
}
