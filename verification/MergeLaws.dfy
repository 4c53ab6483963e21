// What the merge promises of a row and the mutations that reach it: nothing is
// lost silently, a group stands or falls together, and the order in which
// writes arrive does not matter to an ordinary field (internal/sync/merge.go).
module MergeLaws {
  import opened Values
  import opened Vocabulary
  import opened Merging

  /**
   * What became of one field of an upsert on a live row: it was taken, with its clock; or dropped and reported, with
   * both values; or it was equal to what stands, or described a group that lost.
   */
  predicate Accounted(merged: MergeResult, row: Row, m: Mutation, f: Column)
    requires f in m.fields
  {
    if f in merged.applied then
      merged.applied[f] == m.fields[f] && f in merged.clocks && merged.clocks[f] == m.hlc && f !in merged.conflicts
    else if f in merged.conflicts then
      merged.conflicts[f] == Loss(m.fields[f], Get(row.fields, f)) && !SameValue(m.fields[f], Get(row.fields, f))
    else SameValue(m.fields[f], Get(row.fields, f)) || (InStateRecord(f) && !GroupWins(row, m))
  }

  lemma EmptyOrNot<K, V>(m: map<K, V>)
    ensures m == map[] <==> m.Keys == {}
    ensures m.Keys == {} <==> forall k :: k !in m
  {
  }

  /** Every field is applied, logged with both values, equal to what stands, or a record dropped with its group. */
  lemma NothingIsLostSilently(row: Row, m: Mutation, f: Column)
    requires !m.op.Delete? && f in m.fields
    ensures Accounted(Resolve(Some(row), m), row, m, f)
    ensures Resolve(Some(row), m).outcome == Merged <==> exists g :: g in Resolve(Some(row), m).conflicts
  {
    hide Resolve, SameValue;
    AppliedExactly(row, m, f);
    if f in Resolve(Some(row), m).applied { TakenWithClock(row, m, f); }
    ReportedExactly(row, m, f);
    MergedExactly(row, m);
  }

  lemma TakenWithClock(row: Row, m: Mutation, f: Column)
    requires !m.op.Delete? && f in Resolve(Some(row), m).applied
    ensures var merged := Resolve(Some(row), m);
      f in merged.clocks && merged.clocks[f] == m.hlc
  {
    hide Wins, Lost;
  }

  lemma ReportedExactly(row: Row, m: Mutation, f: Column)
    requires !m.op.Delete? && f in m.fields
    ensures var lost := Resolve(Some(row), m).conflicts;
      && (f in lost <==> Logged(row, m, f))
      && (f in lost ==> lost[f] == Loss(m.fields[f], Get(row.fields, f)))
  {
    hide Wins, Won, Stamped, Logged;
  }

  lemma MergedExactly(row: Row, m: Mutation)
    requires !m.op.Delete?
    ensures Resolve(Some(row), m).outcome == Merged <==> exists g :: g in Resolve(Some(row), m).conflicts
  {
    hide Lost, Won, Stamped;
    EmptyOrNot(Resolve(Some(row), m).conflicts);
  }

  /** And nothing is written or logged that was not sent. */
  lemma NothingIsMadeUp(row: Row, m: Mutation, f: Column)
    requires !m.op.Delete?
    ensures var merged := Resolve(Some(row), m);
      && (f in merged.applied || f in merged.conflicts ==> f in m.fields)
      && (f !in merged.applied ==> Get(Updated(row, merged).fields, f) == Get(row.fields, f) && (f in merged.clocks <==> f in row.clocks))
      && (f !in merged.applied && f in row.clocks ==> merged.clocks[f] == row.clocks[f])
  {
  }

  /** The state, the count it is derived from and the records of both stand or fall together. */
  lemma GroupIsAtomic(row: Row, m: Mutation, f: Column, g: Column)
    requires !m.op.Delete? && f in m.fields && g in m.fields
    requires (InStateGroup(f) || InStateRecord(f)) && (InStateGroup(g) || InStateRecord(g))
    ensures f in Resolve(Some(row), m).applied <==> g in Resolve(Some(row), m).applied
  {
    GroupedWins(row, m, f);
    GroupedWins(row, m, g);
  }

  lemma GroupedWins(row: Row, m: Mutation, f: Column)
    requires !m.op.Delete? && f in m.fields && (InStateGroup(f) || InStateRecord(f))
    ensures f in Resolve(Some(row), m).applied <==> GroupWins(row, m)
  {
    assert !Additive(f);
  }

  /** An additive flag that is raised is never dropped, however old the write. */
  lemma RaisedFlagsStick(row: Row, m: Mutation, f: Column)
    requires !m.op.Delete? && Additive(f) && f in m.fields && Truthy(m.fields[f])
    ensures Truthy(Get(Updated(row, Resolve(Some(row), m)).fields, f))
  {
    StoringKeepsTheValue(m.fields[f]);
  }

  /** What can stop a newer write's field: "packed" against a claim. */
  predicate Outranked(row: Row, m: Mutation, f: Column) {
    (InStateGroup(f) || InStateRecord(f)) &&
    Get(m.fields, State) == Text(PACKING_NOW) && Get(row.fields, State) == Text(PACKED)
  }

  // ------------------------------------------------------------ any arrival order

  function Arrived(row: Row, ms: seq<Mutation>): Row {
    if ms == [] then row else Upserted(Arrived(row, ms[..|ms| - 1]), ms[|ms| - 1])
  }

  /** The writes are upserts of one row with clocks of their own. */
  predicate Distinct(ms: seq<Mutation>) {
    && (forall i | 0 <= i < |ms| :: !ms[i].op.Delete?)
    && (forall i, j | 0 <= i < j < |ms| :: ms[i].hlc != ms[j].hlc)
  }

  /** The clock of the last word on a field: the newest write that names it, unless the row's own is newer. */
  function LastWord(row: Row, ms: seq<Mutation>, f: Column): Clock
    requires f in row.clocks
  {
    if ms == [] then row.clocks[f]
    else
      var before, m := LastWord(row, ms[..|ms| - 1], f), ms[|ms| - 1];
      if f in m.fields then Max(m.hlc, before) else before
  }

  /** A field ends with the value of its last word. */
  predicate Speaks(row: Row, ms: seq<Mutation>, f: Column, v: Value, at: Clock)
    requires f in row.clocks
  {
    if at == row.clocks[f] then v == Get(row.fields, f)
    else exists m | m in ms :: m.hlc == at && f in m.fields && v == Stored(m.fields[f])
  }

  lemma AppliedExactly(row: Row, m: Mutation, f: Column)
    requires !m.op.Delete?
    ensures f in Resolve(Some(row), m).applied <==> f in m.fields && Wins(row, m, f)
    ensures f in Resolve(Some(row), m).applied ==> Resolve(Some(row), m).applied[f] == m.fields[f]
  {
    hide Wins, Lost;
  }

  lemma LandedField(row: Row, m: Mutation, f: Column)
    requires !m.op.Delete? && f in m.fields && f in Resolve(Some(row), m).applied
    ensures var end := Upserted(row, m);
      f in end.clocks && end.clocks[f] == m.hlc && Get(end.fields, f) == Stored(m.fields[f])
  {
    hide Wins, Lost;
  }

  lemma StoodField(row: Row, m: Mutation, f: Column)
    requires !m.op.Delete? && f !in Resolve(Some(row), m).applied && f in row.clocks
    ensures var end := Upserted(row, m);
      f in end.clocks && end.clocks[f] == row.clocks[f] && Get(end.fields, f) == Get(row.fields, f)
  {
    hide Wins, Lost;
  }

  /** One upsert moves an ordinary field when it names it and is newer, and leaves it otherwise. */
  lemma UpsertMoves(row: Row, m: Mutation, f: Column)
    requires Ordinary(f) && f in row.clocks && !m.op.Delete?
    ensures var end := Upserted(row, m);
      f in end.clocks &&
      if f in m.fields && m.hlc > row.clocks[f]
      then end.clocks[f] == m.hlc && Get(end.fields, f) == Stored(m.fields[f])
      else end.clocks[f] == row.clocks[f] && Get(end.fields, f) == Get(row.fields, f)
  {
    hide Upserted, Resolve;
    AppliedExactly(row, m, f);
    if f in m.fields && m.hlc > row.clocks[f] { LandedField(row, m, f); } else { StoodField(row, m, f); }
  }

  lemma StillSpeaks(row: Row, ms: seq<Mutation>, m: Mutation, f: Column, v: Value, at: Clock)
    requires f in row.clocks && Speaks(row, ms, f, v, at)
    ensures Speaks(row, ms + [m], f, v, at)
  {
    if at != row.clocks[f] {
      var n :| n in ms && n.hlc == at && f in n.fields && v == Stored(n.fields[f]);
      assert n in ms + [m];
    }
  }

  lemma NowSpeaks(row: Row, ms: seq<Mutation>, m: Mutation, f: Column)
    requires f in row.clocks && f in m.fields && m.hlc > row.clocks[f]
    ensures Speaks(row, ms + [m], f, Stored(m.fields[f]), m.hlc)
  {
    assert m in ms + [m];
  }

  /** One write more. */
  lemma OneArrives(row: Row, front: seq<Mutation>, m: Mutation, f: Column)
    requires f in row.clocks
    ensures Arrived(row, front + [m]) == Upserted(Arrived(row, front), m)
    ensures LastWord(row, front + [m], f) == if f in m.fields then Max(m.hlc, LastWord(row, front, f)) else LastWord(row, front, f)
    ensures Distinct(front + [m]) ==> Distinct(front) && !m.op.Delete?
  {
    hide Upserted;
    assert (front + [m])[..|front|] == front;
    assert Distinct(front + [m]) ==> forall i | 0 <= i < |front| :: (front + [m])[i] == front[i];
    assert (front + [m])[|front|] == m;
  }

  /** An ordinary field with a clock of its own ends with its last word's clock and value. */
  lemma {:induction false} OrdinaryEnds(row: Row, ms: seq<Mutation>, f: Column)
    requires Ordinary(f) && f in row.clocks && Distinct(ms)
    ensures var end := Arrived(row, ms);
      && f in end.clocks && end.clocks[f] == LastWord(row, ms, f)
      && Speaks(row, ms, f, Get(end.fields, f), end.clocks[f])
  {
    if ms != [] {
      hide Upserted, Ordinary, Stored, Speaks, Distinct, Arrived, LastWord;
      var front, m := ms[..|ms| - 1], ms[|ms| - 1];
      assert ms == front + [m];
      OneArrives(row, front, m, f);
      OrdinaryEnds(row, front, f);
      LastWordIsThere(row, front, f);
      var before := Arrived(row, front);
      UpsertMoves(before, m, f);
      if f in m.fields && m.hlc > before.clocks[f] { NowSpeaks(row, front, m, f); }
      else { StillSpeaks(row, front, m, f, Get(before.fields, f), before.clocks[f]); }
    }
  }

  /** The last word is the row's own or one of the writes'. */
  lemma {:induction false} LastWordIsThere(row: Row, ms: seq<Mutation>, f: Column)
    requires f in row.clocks
    ensures LastWord(row, ms, f) >= row.clocks[f]
    ensures LastWord(row, ms, f) > row.clocks[f] ==> exists m :: m in ms && m.hlc == LastWord(row, ms, f) && f in m.fields
    ensures forall m | m in ms && f in m.fields :: m.hlc <= LastWord(row, ms, f)
  {
    if ms != [] { LastWordIsThere(row, ms[..|ms| - 1], f); }
  }

  /** Whatever the order, the last word on a field is the same. */
  lemma LastWordIsOrderless(row: Row, ms: seq<Mutation>, ns: seq<Mutation>, f: Column)
    requires f in row.clocks && forall m :: m in ms <==> m in ns
    ensures LastWord(row, ms, f) == LastWord(row, ns, f)
  {
    LastWordIsThere(row, ms, f);
    LastWordIsThere(row, ns, f);
  }

  /** A clock names one write, so it names one value. */
  lemma OneWord(row: Row, ms: seq<Mutation>, ns: seq<Mutation>, f: Column, v: Value, w: Value, at: Clock)
    requires f in row.clocks && Distinct(ms) && (forall m :: m in ms <==> m in ns)
    requires Speaks(row, ms, f, v, at) && Speaks(row, ns, f, w, at)
    ensures v == w
  {
    if at != row.clocks[f] {
      var m :| m in ms && m.hlc == at && f in m.fields && v == Stored(m.fields[f]);
      var n :| n in ns && n.hlc == at && f in n.fields && w == Stored(n.fields[f]);
      var i :| 0 <= i < |ms| && ms[i] == m;
      var j :| 0 <= j < |ms| && ms[j] == n;
      assert i == j;
    }
  }

  /** Every arrival order leaves an ordinary field with the same value and the same clock. */
  lemma OrderDoesNotMatter(row: Row, ms: seq<Mutation>, ns: seq<Mutation>, f: Column)
    requires Ordinary(f) && f in row.clocks && Distinct(ms) && Distinct(ns) && forall m :: m in ms <==> m in ns
    ensures f in Arrived(row, ms).clocks && f in Arrived(row, ns).clocks
    ensures Arrived(row, ms).clocks[f] == Arrived(row, ns).clocks[f]
    ensures Get(Arrived(row, ms).fields, f) == Get(Arrived(row, ns).fields, f)
  {
    OrdinaryEnds(row, ms, f);
    OrdinaryEnds(row, ns, f);
    LastWordIsOrderless(row, ms, ns, f);
    OneWord(row, ms, ns, f, Get(Arrived(row, ms).fields, f), Get(Arrived(row, ns).fields, f), LastWord(row, ms, f));
  }
}
