// The merge of one mutation into one row (internal/sync/merge.go).
//
// A clock is its rank in text order (Hlc.RankOrdersText); zero is the empty
// clock, below every other. The conflicts of a merge carry one entry per
// column, in no particular order, so they are a map.
module Merging {
  import opened Values
  import opened Vocabulary

  type Clock = nat
  type Fields = map<Column, Value>
  type Clocks = map<Column, Clock>

  datatype Op = Insert | Upsert | Delete

  /** One change of a push envelope. */
  datatype Mutation = Mutation(mutationId: string, op: Op, table: Table, id: string, fields: Fields, hlc: Clock)

  /** What the server holds for one entity. */
  datatype Row = Row(fields: Fields, hlc: Clock, clocks: Clocks)

  /** A value the merge dropped, and the one that stood. */
  datatype Loss = Loss(losing: Value, winning: Value)

  datatype Outcome = Applied | Merged | Rejected | Duplicate

  datatype MergeResult = MergeResult(
    outcome: Outcome, applied: Fields, conflicts: map<Column, Loss>, deleted: bool, rowHlc: Clock, clocks: Clocks)

  function Get(fields: Fields, f: Column): Value {
    if f in fields then fields[f] else Null
  }

  function Max(a: Clock, b: Clock): Clock {
    if a > b then a else b
  }

  // ------------------------------------------------------------ the rules

  predicate InStateGroup(f: Column) {
    f.State? || f.PackedCount?
  }

  /** Columns that describe the state group rather than decide it. */
  predicate InStateRecord(f: Column) {
    f.PackingNowBy? || f.PackingNowAt? || f.PackedBy? || f.PackedAt?
  }

  predicate Additive(f: Column) {
    f.FlagUnused? || f.FlagMissing?
  }

  /** A field decided by its own clock alone. */
  predicate Ordinary(f: Column) {
    !Additive(f) && !InStateGroup(f) && !InStateRecord(f)
  }

  /** Every field that merges as one unit with `f`. */
  function GroupedWith(f: Column): set<Column> {
    if InStateGroup(f) then {State, PackedCount} else {f}
  }

  /** When the field was last set; a field without a clock is as old as its row. */
  function ClockOf(row: Row, f: Column): Clock {
    if f in row.clocks then row.clocks[f] else row.hlc
  }

  /** No field is newer than its row. */
  predicate Bounded(row: Row) {
    forall c | c in row.clocks :: row.clocks[c] <= row.hlc
  }

  function GroupClock(row: Row): Clock {
    Max(ClockOf(row, State), ClockOf(row, PackedCount))
  }

  /** "packed" beats "packing_now" whatever the clocks say; otherwise the newer write wins. */
  predicate GroupWins(row: Row, m: Mutation) {
    var newer := m.hlc > GroupClock(row);
    if State !in m.fields then newer
    else
      var incoming, current := m.fields[State], Get(row.fields, State);
      if incoming == Text(PACKED) && current == Text(PACKING_NOW) then true
      else if incoming == Text(PACKING_NOW) && current == Text(PACKED) then false
      else newer
  }

  predicate Wins(row: Row, m: Mutation, f: Column)
    requires f in m.fields
  {
    if Additive(f) && Truthy(m.fields[f]) then true
    else if InStateGroup(f) || InStateRecord(f) then GroupWins(row, m)
    else m.hlc > ClockOf(row, f)
  }

  /** A dropped field is logged unless it changed nothing or only described the group. */
  predicate Logged(row: Row, m: Mutation, f: Column)
    requires f in m.fields
  {
    !Wins(row, m, f) && !InStateRecord(f) && !SameValue(m.fields[f], Get(row.fields, f))
  }

  /** The fields of `some` the mutation wins. */
  function Won(row: Row, m: Mutation, some: set<Column>): Fields {
    map f | f in m.fields && f in some && Wins(row, m, f) :: m.fields[f]
  }

  /** The losses among `some` the conflict log is owed. */
  function Lost(row: Row, m: Mutation, some: set<Column>): map<Column, Loss> {
    map f | f in m.fields && f in some && Logged(row, m, f) :: Loss(m.fields[f], Get(row.fields, f))
  }

  function Stamped(columns: set<Column>, at: Clock): Clocks {
    map f | f in columns :: at
  }

  function OutcomeFor(clean: bool): Outcome {
    if clean then Applied else Merged
  }

  function Resolve(row: Option<Row>, m: Mutation): MergeResult {
    var rowHlc := if row.Some? then Max(row.value.hlc, m.hlc) else m.hlc;
    var clocks := if row.Some? then row.value.clocks else map[];
    if m.op.Delete? then
      var deleted := m.hlc > (if row.Some? then row.value.hlc else 0);
      MergeResult(OutcomeFor(deleted), map[], map[], deleted, rowHlc, clocks)
    else if row.None? then
      MergeResult(Applied, m.fields, map[], false, rowHlc, Stamped(m.fields.Keys, m.hlc))
    else
      var applied := Won(row.value, m, m.fields.Keys);
      var conflicts := Lost(row.value, m, m.fields.Keys);
      MergeResult(OutcomeFor(conflicts == map[]), applied, conflicts, false, rowHlc,
        clocks + Stamped(applied.Keys, m.hlc))
  }

  /** The merge as it runs: one field at a time, in any order. */
  method Merge(row: Option<Row>, m: Mutation) returns (res: MergeResult)
    ensures res == Resolve(row, m)
  {
    if m.op.Delete? {
      var deleted := m.hlc > (if row.Some? then row.value.hlc else 0);
      var clocks: Clocks := if row.Some? then row.value.clocks else map[];
      var rowHlc := if row.Some? then Max(row.value.hlc, m.hlc) else m.hlc;
      return MergeResult(OutcomeFor(deleted), map[], map[], deleted, rowHlc, clocks);
    }
    if row.None? {
      res := MergeNew(m);
    } else {
      res := MergeLive(row.value, m);
      if res.conflicts != map[] { res := res.(outcome := Merged); }
    }
  }

  method MergeNew(m: Mutation) returns (res: MergeResult)
    requires !m.op.Delete?
    ensures res == Resolve(None, m)
  {
    var applied: Fields, clocks: Clocks := map[], map[];
    var todo, done := m.fields.Keys, {};
    while todo != {}
      invariant todo + done == m.fields.Keys
      invariant applied.Keys == done && forall f | f in done :: applied[f] == m.fields[f]
      invariant clocks == Stamped(done, m.hlc)
    {
      var f := PickOne(todo);
      applied, clocks := applied[f := m.fields[f]], clocks[f := m.hlc];
      todo, done := todo - {f}, done + {f};
    }
    assert applied == m.fields;
    return MergeResult(Applied, applied, map[], false, m.hlc, clocks);
  }

  /** The merge with the fields `some` decided, outcome aside. */
  function Decided(row: Row, m: Mutation, some: set<Column>): MergeResult {
    MergeResult(Applied, Won(row, m, some), Lost(row, m, some), false, Max(row.hlc, m.hlc),
      row.clocks + Stamped(Won(row, m, some).Keys, m.hlc))
  }

  method MergeLive(row: Row, m: Mutation) returns (res: MergeResult)
    ensures res == Decided(row, m, m.fields.Keys)
  {
    res := MergeResult(Applied, map[], map[], false, Max(row.hlc, m.hlc), row.clocks);
    var todo := m.fields.Keys;
    ghost var done := {};
    while todo != {}
      invariant done == m.fields.Keys - todo && todo <= m.fields.Keys
      invariant res == Decided(row, m, done)
    {
      var f := PickOne(todo);
      SettleOne(row, m, done, f);
      if Wins(row, m, f) {
        res := res.(applied := res.applied[f := m.fields[f]], clocks := res.clocks[f := m.hlc]);
      } else if Logged(row, m, f) {
        res := res.(conflicts := res.conflicts[f := Loss(m.fields[f], Get(row.fields, f))]);
      }
      todo, done := todo - {f}, done + {f};
    }
    assert done == m.fields.Keys;
  }

  lemma SettleOne(row: Row, m: Mutation, some: set<Column>, f: Column)
    requires f in m.fields
    ensures Won(row, m, some + {f}) ==
      if Wins(row, m, f) then Won(row, m, some)[f := m.fields[f]] else Won(row, m, some)
    ensures Lost(row, m, some + {f}) ==
      if Logged(row, m, f) then Lost(row, m, some)[f := Loss(m.fields[f], Get(row.fields, f))] else Lost(row, m, some)
    ensures row.clocks + Stamped(Won(row, m, some + {f}).Keys, m.hlc) ==
      if Wins(row, m, f) then (row.clocks + Stamped(Won(row, m, some).Keys, m.hlc))[f := m.hlc]
      else row.clocks + Stamped(Won(row, m, some).Keys, m.hlc)
  {
  }

  // ------------------------------------------------- what a write leaves behind

  function StoredFields(fields: Fields): Fields {
    map f | f in fields :: Stored(fields[f])
  }

  /** The row an update writes (internal/store/pipeline.go, updateRow). */
  function Updated(row: Row, merged: MergeResult): Row {
    Row(row.fields + StoredFields(merged.applied), merged.rowHlc, merged.clocks)
  }

  /** The row an insert writes: every column it did not name took its default now. */
  function Inserted(merged: MergeResult, columns: set<Column>, defaults: Fields): Row {
    Row(defaults + StoredFields(merged.applied), merged.rowHlc,
        Stamped(columns, merged.rowHlc) + merged.clocks)
  }

  /** A live row after one upsert went through merge and persist. */
  function Upserted(row: Row, m: Mutation): Row {
    var merged := Resolve(Some(row), m);
    if merged.applied == map[] then row else Updated(row, merged)
  }
}
