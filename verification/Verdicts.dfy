// What becomes of each field of a write, read off the row's clocks: the state
// group by the clocks of its own two columns, so that a packing made offline is
// not displaced by a later edit of anything else (internal/sync/merge.go).
module Verdicts {
  import opened Values
  import opened Vocabulary
  import opened Merging
  import opened MergeLaws

  /** The write packs a row somebody is packing. */
  predicate PacksClaimed(row: Row, m: Mutation) {
    Get(m.fields, State) == Text(PACKED) && Get(row.fields, State) == Text(PACKING_NOW)
  }

  /** The write claims a row that is packed. */
  predicate ClaimsPacked(row: Row, m: Mutation) {
    Get(m.fields, State) == Text(PACKING_NOW) && Get(row.fields, State) == Text(PACKED)
  }

  /** The write is newer than what stands in a column; one never set since the row came is as old as the row. */
  predicate NewerThan(row: Row, m: Mutation, c: Column) {
    m.hlc > (if c in row.clocks then row.clocks[c] else row.hlc)
  }

  /** State, count and their records are applied exactly when the write packs a claim, or is newer than state and count
      and claims nothing packed. Where both have a clock no other clock of the row has a say. */
  lemma GroupVerdictExactly(row: Row, m: Mutation, f: Column)
    requires !m.op.Delete? && f in m.fields
    requires f in {State, PackedCount, PackingNowBy, PackingNowAt, PackedBy, PackedAt}
    ensures f in Resolve(Some(row), m).applied <==>
      PacksClaimed(row, m) || (NewerThan(row, m, State) && NewerThan(row, m, PackedCount) && !ClaimsPacked(row, m))
  {
    GroupedWins(row, m, f);
  }

  /** Any other field is applied exactly when it is newer than itself, or raises a flag. */
  lemma FieldVerdictExactly(row: Row, m: Mutation, f: Column)
    requires !m.op.Delete? && f in m.fields
    requires f !in {State, PackedCount, PackingNowBy, PackingNowAt, PackedBy, PackedAt}
    ensures f in Resolve(Some(row), m).applied <==>
      NewerThan(row, m, f) || (f in {FlagUnused, FlagMissing} && Truthy(m.fields[f]))
  {
    hide Resolve, GroupWins, Truthy, Additive, InStateGroup, InStateRecord;
    AppliedExactly(row, m, f);
    UnitsApart(f);
  }

  lemma UnitsApart(f: Column)
    ensures InStateGroup(f) || InStateRecord(f) <==> f in {State, PackedCount, PackingNowBy, PackingNowAt, PackedBy, PackedAt}
    ensures Additive(f) <==> f in {FlagUnused, FlagMissing}
  {
  }

  /** What a write loses is logged with both values, unless nothing differed or the column only describes the state. */
  lemma LossExactly(row: Row, m: Mutation, f: Column)
    requires !m.op.Delete?
    ensures var result := Resolve(Some(row), m);
      && (f in result.conflicts <==>
           && f in m.fields && f !in result.applied && f !in {PackingNowBy, PackingNowAt, PackedBy, PackedAt}
           && !SameValue(m.fields[f], Get(row.fields, f)))
      && (f in result.conflicts ==> result.conflicts[f] == Loss(m.fields[f], Get(row.fields, f)))
  {
    hide Wins, Stamped, SameValue;
  }

  /** A write that names neither state nor count. */
  predicate Elsewhere(m: Mutation) {
    !m.op.Delete? && State !in m.fields && PackedCount !in m.fields
  }

  /** It leaves state and count, and their clocks, as they were. */
  lemma ElsewhereKeepsGroup(row: Row, edit: Mutation, f: Column)
    requires Elsewhere(edit) && f in row.clocks && (f.State? || f.PackedCount?)
    ensures var after := Upserted(row, edit);
      f in after.clocks && after.clocks[f] == row.clocks[f] && Get(after.fields, f) == Get(row.fields, f)
  {
    hide Upserted, Resolve;
    AppliedExactly(row, edit, f);
    StoodField(row, edit, f);
  }

  /** So whatever was edited elsewhere in between, and however new it is, a packing meets the verdict it would have met. */
  lemma {:induction false} EditsElsewhereDoNotMatter(row: Row, edits: seq<Mutation>, m: Mutation, f: Column)
    requires !m.op.Delete? && f in m.fields && {State, PackedCount} <= row.clocks.Keys
    requires f in {State, PackedCount, PackingNowBy, PackingNowAt, PackedBy, PackedAt}
    requires forall e | e in edits :: Elsewhere(e)
    ensures f in Resolve(Some(Arrived(row, edits)), m).applied <==> f in Resolve(Some(row), m).applied
  {
    hide Upserted, Resolve;
    GroupStands(row, edits);
    GroupVerdictExactly(row, m, f);
    GroupVerdictExactly(Arrived(row, edits), m, f);
  }

  lemma {:induction false} GroupStands(row: Row, edits: seq<Mutation>)
    requires {State, PackedCount} <= row.clocks.Keys && forall e | e in edits :: Elsewhere(e)
    ensures var after := Arrived(row, edits);
      && {State, PackedCount} <= after.clocks.Keys
      && after.clocks[State] == row.clocks[State] && after.clocks[PackedCount] == row.clocks[PackedCount]
      && Get(after.fields, State) == Get(row.fields, State)
  {
    hide Upserted, Elsewhere;
    if edits != [] {
      var front, e := edits[..|edits| - 1], edits[|edits| - 1];
      GroupStands(row, front);
      ElsewhereKeepsGroup(Arrived(row, front), e, State);
      ElsewhereKeepsGroup(Arrived(row, front), e, PackedCount);
    }
  }
}
