// The server's tables, the change feeds, the conflict log and the idempotency
// memo (internal/store/schema.sql), and what the engine does to the tables: a
// delete with its foreign-key actions, and the constraints a write must meet.
module Database {
  import opened Values
  import opened Vocabulary
  import opened Merging
  import opened Registry

  datatype Key = Key(table: Table, id: string)
  type Rows = map<Key, Row>

  /** The instance-wide feed, or one trip's. */
  datatype Feed = MasterFeed | TripFeed(trip: string)

  /** One change_log row of a feed. */
  datatype Entry = Entry(at: nat, key: Key, deleted: bool, hlc: Clock)

  /** A change_log row before its sequence number is drawn. */
  datatype Note = Note(key: Key, deleted: bool, hlc: Clock)

  /** A conflict_log row is named by the push that lost and the field it lost. */
  datatype ConflictId = ConflictId(mutationId: string, key: Key, field: Column)
  datatype Conflict = Conflict(feed: Feed, actor: string, loss: Loss, reverted: bool)

  datatype Memo = Memo(outcome: Outcome, conflicts: map<Column, Loss>, at: nat)

  /** `head` is the last sequence number drawn; a number is never drawn twice. */
  datatype Db = Db(
    rows: Rows, logs: map<Feed, seq<Entry>>, head: nat, conflicts: map<ConflictId, Conflict>, memo: map<string, Memo>)

  function Load(rows: Rows, k: Key): Option<Row> {
    if k in rows then Some(rows[k]) else None
  }

  /** A column's value, NULL where the row or the value is missing. */
  function Cell(rows: Rows, k: Key, c: Column): Value {
    if k in rows then Get(rows[k].fields, c) else Null
  }

  function LogOf(db: Db, f: Feed): seq<Entry> {
    if f in db.logs then db.logs[f] else []
  }

  function SideOf(f: Feed): Side {
    if f.MasterFeed? then OnMaster else OnTrip
  }

  /** Whether a row of `f`'s side belongs to `f`. */
  predicate Holds(rows: Rows, f: Feed, k: Key) {
    k in rows && (f.TripFeed? ==> Cell(rows, k, TripId) == Text(f.trip))
  }

  /** The row is there and older than a clock. */
  predicate Older(rows: Rows, k: Key, at: Clock) {
    k in rows && rows[k].hlc < at
  }

  // ------------------------------------------------------------- the change log

  /** The newest entry of one entity in a feed. */
  function Newest(log: seq<Entry>, k: Key): (r: Option<Entry>)
    ensures r.Some? ==> r.value.key == k && r.value in log
    ensures r.None? <==> forall e | e in log :: e.key != k
  {
    if log == [] then None
    else if log[|log| - 1].key == k then Some(log[|log| - 1])
    else Newest(log[..|log| - 1], k)
  }

  /** The highest clock of an entity's tombstones; zero without one. */
  function NewestTombstone(log: seq<Entry>, k: Key): (r: Clock)
    ensures forall e | e in log && e.key == k && e.deleted :: e.hlc <= r
    ensures r != 0 ==> exists e :: e in log && e.key == k && e.deleted && e.hlc == r
  {
    if log == [] then 0
    else
      var e := log[|log| - 1];
      var rest := NewestTombstone(log[..|log| - 1], k);
      if e.key == k && e.deleted then Max(e.hlc, rest) else rest
  }

  /** Notes as log entries, numbered on from `head`. */
  function Numbered(notes: seq<Note>, head: nat): (r: seq<Entry>)
    ensures |r| == |notes|
    ensures forall i | 0 <= i < |r| :: r[i] == Entry(head + 1 + i, notes[i].key, notes[i].deleted, notes[i].hlc)
  {
    seq(|notes|, i requires 0 <= i < |notes| => Entry(head + 1 + i, notes[i].key, notes[i].deleted, notes[i].hlc))
  }

  // ---------------------------------------------------------------- foreign keys

  /** The row a link column names. */
  function TargetOf(reg: Registry, rows: Rows, k: Key, c: Column): Option<Key> {
    var l, v := reg.link(k.table, c), Cell(rows, k, c);
    if l.Some? && v.Text? then Some(Key(l.value.parent, v.text)) else None
  }

  /** `k` goes when one of `dead` does. */
  predicate Hangs(reg: Registry, rows: Rows, k: Key, dead: set<Key>) {
    k in rows && exists c | c in rows[k].fields ::
      TargetOf(reg, rows, k, c).Some? && TargetOf(reg, rows, k, c).value in dead &&
      reg.link(k.table, c).value.onDelete == Cascade
  }

  /** The rows a delete of `dead` takes next. */
  function HangingOff(reg: Registry, rows: Rows, dead: set<Key>): set<Key> {
    set k | k in rows && k !in dead && Hangs(reg, rows, k, dead)
  }

  /** Everything the engine deletes along with `dead`. */
  function Doomed(reg: Registry, rows: Rows, dead: set<Key>): set<Key>
    decreases |rows.Keys - dead|
  {
    var more := HangingOff(reg, rows, dead);
    if more == {} then dead else FewerLeft(rows.Keys, dead, more); Doomed(reg, rows, dead + more)
  }

  lemma FewerLeft<T>(all: set<T>, a: set<T>, more: set<T>)
    requires more != {} && more <= all && more !! a
    ensures |all - (a + more)| < |all - a|
  {
    assert all - a == (all - (a + more)) + more;
    assert |all - a| == |all - (a + more)| + |more|;
  }

  predicate ClosedUnder(reg: Registry, rows: Rows, s: set<Key>) {
    forall k | k in rows && Hangs(reg, rows, k, s) :: k in s
  }

  lemma HangsOnMore(reg: Registry, rows: Rows, k: Key, a: set<Key>, b: set<Key>)
    requires a <= b && Hangs(reg, rows, k, a)
    ensures Hangs(reg, rows, k, b)
  {
  }

  /** The doomed contain the dead and everything hanging off themselves. */
  lemma {:induction false} DoomedIsClosed(reg: Registry, rows: Rows, dead: set<Key>)
    ensures ClosedUnder(reg, rows, Doomed(reg, rows, dead))
    ensures dead <= Doomed(reg, rows, dead) <= dead + rows.Keys
    decreases |rows.Keys - dead|
  {
    var more := HangingOff(reg, rows, dead);
    if more != {} {
      FewerLeft(rows.Keys, dead, more);
      DoomedIsClosed(reg, rows, dead + more);
    } else {
      forall k | k in rows && Hangs(reg, rows, k, dead) ensures k in dead {
        assert k !in more;
      }
    }
  }

  /** And they are the least such set. */
  lemma {:induction false} DoomedIsLeast(reg: Registry, rows: Rows, dead: set<Key>, s: set<Key>)
    requires dead <= s && ClosedUnder(reg, rows, s)
    ensures Doomed(reg, rows, dead) <= s
    decreases |rows.Keys - dead|
  {
    var more := HangingOff(reg, rows, dead);
    if more != {} {
      forall k | k in more ensures k in s { HangsOnMore(reg, rows, k, dead, s); }
      FewerLeft(rows.Keys, dead, more);
      DoomedIsLeast(reg, rows, dead + more, s);
    }
  }

  /** Nothing is doomed without a doomed parent, but the dead themselves. */
  lemma DoomedHang(reg: Registry, rows: Rows, dead: set<Key>, k: Key)
    requires k in Doomed(reg, rows, dead) && k !in dead
    ensures Hangs(reg, rows, k, Doomed(reg, rows, dead))
  {
    var all := Doomed(reg, rows, dead);
    DoomedIsClosed(reg, rows, dead);
    if !Hangs(reg, rows, k, all) {
      forall j | j in rows && Hangs(reg, rows, j, all - {k}) ensures j in all - {k} {
        HangsOnMore(reg, rows, j, all - {k}, all);
      }
      DoomedIsLeast(reg, rows, dead, all - {k});
      assert false;
    }
  }

  /** A surviving row, its severable links into `dead` emptied. */
  function Unlinked(reg: Registry, rows: Rows, k: Key, dead: set<Key>): (r: Row)
    requires k in rows
    ensures r.hlc == rows[k].hlc && r.clocks == rows[k].clocks && r.fields.Keys == rows[k].fields.Keys
  {
    rows[k].(fields := map c | c in rows[k].fields ::
      if reg.Severable(k.table, c) && TargetOf(reg, rows, k, c).Some? && TargetOf(reg, rows, k, c).value in dead
      then Null else rows[k].fields[c])
  }

  /** The tables after `DELETE ... WHERE id = ?`. */
  function Without(reg: Registry, rows: Rows, dead: set<Key>): (r: Rows)
    ensures r.Keys == rows.Keys - dead
  {
    map k | k in rows && k !in dead :: Unlinked(reg, rows, k, dead)
  }

  // ----------------------------------------------------------------- constraints

  /** A link is NULL where it may be, and otherwise names a row that is there. */
  predicate LinkOk(reg: Registry, rows: Rows, k: Key, c: Column) {
    var l := reg.link(k.table, c);
    l.Some? ==>
      var v := Cell(rows, k, c);
      if v == Null then !l.value.mandatory else v.Text? && Key(l.value.parent, v.text) in rows
  }

  predicate OneOf(v: Value, words: set<string>) {
    v.Text? && v.text in words
  }

  /** The CHECK and NOT NULL clauses some rule of the pipeline leans on. */
  predicate CheckOk(rows: Rows, k: Key) {
    && (k.table.Templates? ==> OneOf(Cell(rows, k, Kind), {KIND_TEMPLATE, KIND_GROUP}))
    && (k.table.TripItems? ==> OneOf(Cell(rows, k, State), {"open", PACKING_NOW, "partial", PACKED, "skipped"}))
    && (k.table.TripMembers? ==> OneOf(Cell(rows, k, Role), {ROLE_OWNER, ROLE_ADMIN, ROLE_EDITOR}))
  }

  predicate SchemaOk(reg: Registry, rows: Rows) {
    && (forall k, c {:trigger LinkOk(reg, rows, k, c)} | k in rows && c in reg.columns(k.table) :: LinkOk(reg, rows, k, c))
    && (forall k {:trigger CheckOk(rows, k)} | k in rows :: CheckOk(rows, k))
  }
}
