// The state of a row that carries no packed count, as an idea does: the group's
// clock falls back to the row's, so an edit of anything else outdates a state
// (internal/sync/merge.go, stateGroup and groupClock).
module IdeaStates {
  import opened Values
  import opened Vocabulary
  import opened Merging
  import opened MergeLaws
  import opened RowClocks

  /** A row with a state of its own, no count, and nothing of packing. */
  predicate Uncounted(row: Row) {
    && State in row.clocks && PackedCount !in row.clocks
    && StateOf(row) != Text(PACKED) && StateOf(row) != Text(PACKING_NOW)
  }

  /** A write of such a row. */
  predicate Uncounting(m: Mutation) {
    !m.op.Delete? && PackedCount !in m.fields && !Says(m, PACKED) && !Says(m, PACKING_NOW)
  }

  /** A state that came after the one that stands, and before the row was last written. */
  predicate Outdated(row: Row, m: Mutation) {
    ClockOf(row, State) < m.hlc <= row.hlc
  }

  // ------------------------------------------------------------------- one write

  /** A state wins exactly when it is newer than the whole row. */
  lemma RowDecides(row: Row, m: Mutation)
    requires Bounded(row) && Uncounted(row) && Uncounting(m) && State in m.fields
    ensures Wins(row, m, State) <==> m.hlc > row.hlc
  {
  }

  /** The clock of the state that stands decides exactly when no other column was written after the new one. */
  lemma OwnClockDecidesExactly(row: Row, m: Mutation)
    requires Bounded(row) && Uncounted(row) && Uncounting(m) && State in m.fields
    ensures (Wins(row, m, State) <==> m.hlc > ClockOf(row, State)) <==> !Outdated(row, m)
  {
    RowDecides(row, m);
  }

  /** What a write makes of the state. */
  lemma StateAfter(row: Row, m: Mutation)
    requires Bounded(row) && Uncounted(row) && Uncounting(m)
    ensures StateOf(Upserted(row, m)) == if State in m.fields && m.hlc > row.hlc then Stored(m.fields[State]) else StateOf(row)
  {
    hide Upserted;
    NextState(row, m);
    if State in m.fields { RowDecides(row, m); }
  }

  /** Such a row stays one. */
  lemma StaysUncounted(row: Row, m: Mutation)
    requires Bounded(row) && Uncounted(row) && Uncounting(m)
    ensures Bounded(Upserted(row, m)) && Uncounted(Upserted(row, m))
  {
    KeepsBounded(row, m);
    StateAfter(row, m);
    KeepsItsClocks(row, m);
  }

  lemma KeepsItsClocks(row: Row, m: Mutation)
    requires !m.op.Delete? && State in row.clocks && PackedCount !in row.clocks && PackedCount !in m.fields
    ensures State in Upserted(row, m).clocks && PackedCount !in Upserted(row, m).clocks
  {
    hide Wins, Lost;
  }

  // ------------------------------------------------------------------ many writes

  ghost predicate Uncountings(ms: seq<Mutation>) {
    forall m | m in ms :: Uncounting(m)
  }

  /** After any of them the row is as new as the newest. */
  lemma {:induction false} ManyWrites(row: Row, ms: seq<Mutation>)
    requires Bounded(row) && Uncounted(row) && Uncountings(ms)
    ensures var end := Arrived(row, ms);
      && Bounded(end) && Uncounted(end) && end.hlc >= row.hlc
      && (forall m | m in ms && Carries(m) :: end.hlc >= m.hlc)
      && (end.hlc == row.hlc || exists m :: m in ms && Carries(m) && end.hlc == m.hlc)
  {
    assert forall m | m in ms :: !m.op.Delete? && !Claims(m);
    SomeonesClock(row, ms);
    if ms != [] {
      hide Upserted, Bounded, Uncounted, Uncounting;
      ManyWrites(row, ms[..|ms| - 1]);
      StaysUncounted(Arrived(row, ms[..|ms| - 1]), ms[|ms| - 1]);
    }
  }

  /** Every newer state is the one that stands. */
  predicate Repeats(row: Row, ms: seq<Mutation>) {
    forall m | m in ms && State in m.fields && m.hlc > row.hlc :: Stored(m.fields[State]) == StateOf(row)
  }

  /** The newest write that carries anything is newer than the row, and names the state. */
  predicate Heads(row: Row, ms: seq<Mutation>, top: Mutation) {
    top in ms && State in top.fields && top.hlc > row.hlc && forall m | m in ms && m != top && Carries(m) :: m.hlc < top.hlc
  }

  /** Every order ends with one state. */
  ghost predicate OneState(row: Row, ms: seq<Mutation>) {
    forall ns | Reorders(ms, ns) :: StateOf(Arrived(row, ns)) == StateOf(Arrived(row, ms))
  }

  /** Repeats leave the state alone. */
  lemma {:induction false} RepeatsStay(row: Row, ms: seq<Mutation>)
    requires Bounded(row) && Uncounted(row) && Uncountings(ms) && Repeats(row, ms)
    ensures StateOf(Arrived(row, ms)) == StateOf(row)
  {
    if ms != [] {
      hide Upserted, Bounded, Uncounted, Uncounting;
      var front, m := ms[..|ms| - 1], ms[|ms| - 1];
      RepeatsStay(row, front);
      ManyWrites(row, front);
      StateAfter(Arrived(row, front), m);
    }
  }

  /** The newest write has the last word, wherever it comes. */
  lemma {:induction false} HeadSpeaks(row: Row, ms: seq<Mutation>, top: Mutation)
    requires Bounded(row) && Uncounted(row) && Uncountings(ms) && Distinct(ms) && Heads(row, ms, top)
    ensures StateOf(Arrived(row, ms)) == Stored(top.fields[State])
  {
    hide Upserted, Bounded, Uncounted, Uncounting;
    var front, m := ms[..|ms| - 1], ms[|ms| - 1];
    assert ms == front + [m];
    DistinctFront(front, m);
    ManyWrites(row, front);
    StateAfter(Arrived(row, front), m);
    if m != top { HeadSpeaks(row, front, top); } else { NotBefore(front, m); }
  }

  lemma DistinctFront(front: seq<Mutation>, m: Mutation)
    requires Distinct(front + [m])
    ensures Distinct(front)
  {
    assert forall i | 0 <= i < |front| :: (front + [m])[i] == front[i];
  }

  lemma NotBefore(front: seq<Mutation>, m: Mutation)
    requires Distinct(front + [m])
    ensures m !in front
  {
    forall i | 0 <= i < |front| ensures front[i] != m { assert (front + [m])[i] == front[i] && (front + [m])[|front|] == m; }
  }

  /** What comes after the newest write changes no state. */
  lemma {:induction false} NothingNewer(row: Row, before: seq<Mutation>, after: seq<Mutation>)
    requires Bounded(row) && Uncounted(row) && Uncountings(before) && Uncountings(after)
    requires forall m | m in after && State in m.fields :: m.hlc <= Arrived(row, before).hlc
    ensures StateOf(Arrived(row, before + after)) == StateOf(Arrived(row, before))
  {
    hide Upserted, Bounded, Uncounted, Uncounting, Arrived;
    if after == [] {
      assert before + after == before;
    } else {
      var front, m := after[..|after| - 1], after[|after| - 1];
      assert after == front + [m] && before + after == before + front + [m];
      NothingNewer(row, before, front);
      ManyWrites(row, before);
      ManyWrites(row, before + front);
      assert Arrived(row, before + front).hlc >= Arrived(row, before).hlc;
      ArrivedMore(row, before + front, m);
      StateAfter(Arrived(row, before + front), m);
    }
  }

  /** The newest write, naming no state, comes first: nothing changes it. */
  lemma NewestFirst(row: Row, ms: seq<Mutation>, x: Mutation) returns (ns: seq<Mutation>)
    requires Bounded(row) && Uncounted(row) && Uncountings(ms) && Distinct(ms)
    requires x in ms && x.hlc > row.hlc && State !in x.fields && Carries(x) && forall m | m in ms && Carries(m) :: m.hlc <= x.hlc
    ensures Reorders(ms, ns) && StateOf(Arrived(row, ns)) == StateOf(row)
  {
    hide Upserted, Bounded, Uncounted, Uncounting, Arrived;
    var rest := Rest(ms, set m | m in [x]);
    ns := [x] + rest;
    AllUpserts(ms);
    BeginsWith(ms, [x]);
    OneArrival(row, x);
    StateAfter(row, x);
    ManyWrites(row, [x]);
    NothingNewer(row, [x], rest);
  }

  /** A newer state comes first, and then the newest write: the state stays. */
  lemma StateFirst(row: Row, ms: seq<Mutation>, s: Mutation, x: Mutation) returns (ns: seq<Mutation>)
    requires Bounded(row) && Uncounted(row) && Uncountings(ms) && Distinct(ms)
    requires x in ms && State !in x.fields && Carries(x) && forall m | m in ms && Carries(m) :: m.hlc <= x.hlc
    requires s in ms && State in s.fields && s.hlc > row.hlc
    ensures Reorders(ms, ns) && StateOf(Arrived(row, ns)) == Stored(s.fields[State])
  {
    hide Upserted, Bounded, Uncounted, Uncounting, Arrived;
    var rest := Rest(ms, set m | m in [s, x]);
    ns := [s, x] + rest;
    AllUpserts(ms);
    ClocksApart(ms, s, x);
    BeginsWith(ms, [s, x]);
    OneArrival(row, s);
    StateAfter(row, s);
    assert [s] + [x] == [s, x];
    NothingNewer(row, [s], [x]);
    ManyWrites(row, [s, x]);
    NothingNewer(row, [s, x], rest);
  }

  /** So two orders differ. */
  lemma UnsettledStates(row: Row, ms: seq<Mutation>)
    requires Bounded(row) && Uncounted(row) && Uncountings(ms) && Distinct(ms)
    requires !Repeats(row, ms) && forall top :: !Heads(row, ms, top)
    ensures !OneState(row, ms)
  {
    hide Bounded, Uncounted, Uncounting, Arrived, Distinct;
    var s :| s in ms && State in s.fields && s.hlc > row.hlc && Stored(s.fields[State]) != StateOf(row);
    var x := NewestCarrying(ms, s);
    forall m | m in ms && m != x && Carries(m) ensures m.hlc < x.hlc { ClocksApart(ms, m, x); }
    assert State !in x.fields by { assert !Heads(row, ms, x); }
    var ns := NewestFirst(row, ms, x);
    var os := StateFirst(row, ms, s, x);
    assert StateOf(Arrived(row, ns)) != StateOf(Arrived(row, os));
  }

  /** Every order ends with one state exactly when the newest write names it, or every newer one repeats it. */
  lemma StateIsOneExactly(row: Row, ms: seq<Mutation>)
    requires Bounded(row) && Uncounted(row) && Uncountings(ms) && Distinct(ms)
    ensures OneState(row, ms) <==> Repeats(row, ms) || exists top :: Heads(row, ms, top)
  {
    hide Arrived, Bounded, Uncounted, Uncounting, Distinct;
    if top :| Heads(row, ms, top) {
      forall ns | Reorders(ms, ns) ensures StateOf(Arrived(row, ns)) == StateOf(Arrived(row, ms)) {
        HeadSpeaks(row, ms, top);
        HeadSpeaks(row, ns, top);
      }
    } else if Repeats(row, ms) {
      forall ns | Reorders(ms, ns) ensures StateOf(Arrived(row, ns)) == StateOf(Arrived(row, ms)) {
        RepeatsStay(row, ms);
        RepeatsStay(row, ns);
      }
    } else {
      UnsettledStates(row, ms);
    }
  }
}
