// The row's clock over every arrival order (internal/sync/merge.go): exactly
// when a set of writes leaves it the same, whichever of them comes first.
module RowClocks {
  import opened Values
  import opened Vocabulary
  import opened Merging
  import opened MergeLaws

  function StateOf(row: Row): Value {
    Get(row.fields, State)
  }

  predicate Says(m: Mutation, state: string) {
    Get(m.fields, State) == Text(state)
  }

  /** A claim: nothing but the state group and its records. */
  predicate Claims(m: Mutation) {
    !m.op.Delete? && Says(m, PACKING_NOW) && forall f | f in m.fields :: InStateGroup(f) || InStateRecord(f)
  }

  /** A write that neither packs the row nor claims it. */
  predicate Unpacks(m: Mutation) {
    State in m.fields && !Says(m, PACKED) && !Says(m, PACKING_NOW)
  }

  predicate Carries(m: Mutation) {
    m.fields != map[]
  }

  /** The same writes in another order. */
  ghost predicate Reorders(ms: seq<Mutation>, ns: seq<Mutation>) {
    Distinct(ns) && forall m :: m in ms <==> m in ns
  }

  /** The newest write that carries anything is a claim, newer than the row. */
  predicate Tops(row: Row, ms: seq<Mutation>, top: Mutation) {
    top in ms && Claims(top) && top.hlc > row.hlc && forall m | m in ms && m != top && Carries(m) :: m.hlc < top.hlc
  }

  /** Whether the row is packed when the newest claim arrives does not depend on what comes before it. */
  predicate Settled(row: Row, ms: seq<Mutation>, top: Mutation) {
    if StateOf(row) == Text(PACKED) then forall m | m in ms && Unpacks(m) :: m.hlc <= GroupClock(row)
    else
      || (forall m | m in ms :: !Says(m, PACKED))
      || (StateOf(row) != Text(PACKING_NOW) &&
          forall m | m in ms && m != top && (Says(m, PACKED) || Says(m, PACKING_NOW)) :: m.hlc <= GroupClock(row))
  }

  /** Every order ends with one row clock. */
  ghost predicate OneRowClock(row: Row, ms: seq<Mutation>) {
    forall ns | Reorders(ms, ns) :: Arrived(row, ns).hlc == Arrived(row, ms).hlc
  }

  // ------------------------------------------------------------------- one write

  /** The row's clock rises to the write's when any field of it wins; otherwise nothing changes at all. */
  lemma RaisedOrNot(row: Row, m: Mutation)
    requires !m.op.Delete?
    ensures (exists f :: f in m.fields && Wins(row, m, f)) ==> Upserted(row, m).hlc == Max(row.hlc, m.hlc)
    ensures (forall f :: f in m.fields ==> !Wins(row, m, f)) ==> Upserted(row, m) == row
  {
    hide Wins, Lost, Stamped;
    if f :| f in m.fields && Wins(row, m, f) {
      AppliedExactly(row, m, f);
    } else {
      forall f ensures f !in Resolve(Some(row), m).applied { AppliedExactly(row, m, f); }
      EmptyOrNot(Resolve(Some(row), m).applied);
    }
  }

  /** A newer write raises the row's clock exactly when something it names is not outranked. */
  lemma NewerWriteRaisesExactly(row: Row, m: Mutation)
    requires Bounded(row) && !m.op.Delete? && m.hlc > row.hlc
    ensures Upserted(row, m).hlc == m.hlc <==> exists f | f in m.fields :: !Outranked(row, m, f)
  {
    hide Lost;
    var applied := Resolve(Some(row), m).applied;
    if f :| f in m.fields && !Outranked(row, m, f) {
      assert f in applied;
    } else {
      assert forall f :: f !in applied;
      assert applied == map[];
    }
  }

  /** A claim that finds the row packed leaves no trace at all. */
  lemma ClaimMeetsPacked(row: Row, claim: Mutation)
    requires Claims(claim) && StateOf(row) == Text(PACKED)
    ensures Upserted(row, claim) == row
  {
    assert forall f :: f !in Resolve(Some(row), claim).applied;
    EmptyOrNot(Resolve(Some(row), claim).applied);
  }

  /** A write that is no claim raises an older row; a claim raises it unless it is packed. */
  lemma NewerRaises(row: Row, m: Mutation)
    requires Bounded(row) && !m.op.Delete? && m.hlc > row.hlc && Carries(m)
    ensures !Claims(m) || StateOf(row) != Text(PACKED) ==> Upserted(row, m).hlc == m.hlc
  {
    hide Upserted;
    RaisedOrNot(row, m);
    var some :| some in m.fields;
    if !Claims(m) && Says(m, PACKING_NOW) {
      var f :| f in m.fields && !InStateGroup(f) && !InStateRecord(f);
      assert Wins(row, m, f);
    } else if !Claims(m) || StateOf(row) != Text(PACKED) {
      assert Wins(row, m, some);
    }
  }

  lemma KeepsBounded(row: Row, m: Mutation)
    requires Bounded(row) && !m.op.Delete?
    ensures Bounded(Upserted(row, m)) && Upserted(row, m).hlc >= row.hlc
    ensures Upserted(row, m).hlc == row.hlc || (Upserted(row, m).hlc == m.hlc && Carries(m))
  {
    hide Wins, Lost;
    EmptyOrNot(Resolve(Some(row), m).applied);
  }

  /** The state is the write's when the group is, and what it was otherwise. */
  lemma NextState(row: Row, m: Mutation)
    requires !m.op.Delete?
    ensures StateOf(Upserted(row, m)) ==
      if State in m.fields && GroupWins(row, m) then Stored(m.fields[State]) else StateOf(row)
  {
    hide Upserted, Resolve, GroupWins;
    AppliedExactly(row, m, State);
    if State in m.fields && GroupWins(row, m) { LandedField(row, m, State); } else { StoodState(row, m); }
  }

  lemma StoodState(row: Row, m: Mutation)
    requires !m.op.Delete? && State !in Resolve(Some(row), m).applied
    ensures StateOf(Upserted(row, m)) == StateOf(row)
  {
    hide Wins, Lost, Stamped;
  }

  /** The group's clock never falls but where "packed" overrules a claim. */
  lemma GroupClockRises(row: Row, m: Mutation)
    requires Bounded(row) && !m.op.Delete? && !(Says(m, PACKED) && StateOf(row) == Text(PACKING_NOW))
    ensures GroupClock(Upserted(row, m)) >= GroupClock(row)
  {
    forall f | InStateGroup(f) ensures ClockOf(Upserted(row, m), f) >= ClockOf(row, f) { FieldClockRises(row, m, f); }
  }

  lemma FieldClockRises(row: Row, m: Mutation, f: Column)
    requires Bounded(row) && !m.op.Delete? && !(Says(m, PACKED) && StateOf(row) == Text(PACKING_NOW)) && InStateGroup(f)
    ensures ClockOf(Upserted(row, m), f) >= ClockOf(row, f)
  {
    hide Upserted, Resolve;
    AppliedExactly(row, m, f);
    if f in m.fields && Wins(row, m, f) { LandedField(row, m, f); } else { StoodClock(row, m, f); }
  }

  lemma StoodClock(row: Row, m: Mutation, f: Column)
    requires !m.op.Delete? && f !in Resolve(Some(row), m).applied
    ensures ClockOf(Upserted(row, m), f) >= ClockOf(row, f)
  {
    hide Wins, Lost;
  }

  // ------------------------------------------------------------------ many writes

  lemma ArrivedMore(row: Row, front: seq<Mutation>, m: Mutation)
    ensures Arrived(row, front + [m]) == Upserted(Arrived(row, front), m)
  {
    hide Upserted;
    assert (front + [m])[..|front|] == front;
  }

  /** The row's clock ends as its own or some write's, and no older than any write that is no claim. */
  lemma {:induction false} SomeonesClock(row: Row, ms: seq<Mutation>)
    requires Bounded(row) && forall m | m in ms :: !m.op.Delete?
    ensures var end := Arrived(row, ms);
      && Bounded(end) && end.hlc >= row.hlc
      && (end.hlc == row.hlc || exists m :: m in ms && Carries(m) && end.hlc == m.hlc)
      && forall m | m in ms && Carries(m) && !Claims(m) :: end.hlc >= m.hlc
  {
    if ms != [] {
      hide Upserted, Claims, Bounded;
      var front, m := ms[..|ms| - 1], ms[|ms| - 1];
      assert ms == front + [m];
      SomeonesClock(row, front);
      KeepsBounded(Arrived(row, front), m);
      if m.hlc > Arrived(row, front).hlc && Carries(m) { NewerRaises(Arrived(row, front), m); }
    }
  }

  /** A claim that finds the row packed might as well not have come. */
  lemma {:induction false} MissedIsAbsent(row: Row, before: seq<Mutation>, top: Mutation, after: seq<Mutation>)
    requires Claims(top) && StateOf(Arrived(row, before)) == Text(PACKED)
    ensures Arrived(row, before + [top] + after) == Arrived(row, before + after)
  {
    hide Upserted, Claims;
    if after == [] {
      ArrivedMore(row, before, top);
      ClaimMeetsPacked(Arrived(row, before), top);
      assert before + [top] + after == before + [top] && before + after == before;
    } else {
      var front, m := after[..|after| - 1], after[|after| - 1];
      MissedIsAbsent(row, before, top, front);
      ArrivedMore(row, before + [top] + front, m);
      ArrivedMore(row, before + front, m);
      assert before + [top] + after == before + [top] + front + [m] && before + after == before + front + [m];
    }
  }

  /** Once the row's clock is above everything to come it stays. */
  lemma {:induction false} StaysAbove(row: Row, before: seq<Mutation>, after: seq<Mutation>, h: Clock)
    requires Bounded(row) && (forall m | m in before + after :: !m.op.Delete?) && Arrived(row, before).hlc == h
    requires forall m | m in after && Carries(m) :: m.hlc <= h
    ensures Arrived(row, before + after).hlc == h
  {
    hide Upserted, Bounded;
    if after == [] {
      assert before + after == before;
    } else {
      var front, m := after[..|after| - 1], after[|after| - 1];
      assert after == front + [m] && before + after == before + front + [m];
      StaysAbove(row, before, front, h);
      SomeonesClock(row, before + front);
      ArrivedMore(row, before + front, m);
      KeepsBounded(Arrived(row, before + front), m);
      RaisedOrNot(Arrived(row, before + front), m);
    }
  }

  /** An order, split where the newest claim arrives. */
  predicate Splits(row: Row, before: seq<Mutation>, top: Mutation, after: seq<Mutation>) {
    && Bounded(row) && Claims(top) && top.hlc > row.hlc && (forall m | m in before + after :: !m.op.Delete?)
    && forall m | m in before + after && Carries(m) :: m.hlc < top.hlc
  }

  /** The row's clock ends as the claim's exactly when the claim did not find it packed. */
  lemma TopDecides(row: Row, before: seq<Mutation>, top: Mutation, after: seq<Mutation>)
    requires Splits(row, before, top, after)
    ensures Arrived(row, before + [top] + after).hlc == top.hlc <==> StateOf(Arrived(row, before)) != Text(PACKED)
  {
    hide Upserted, Bounded;
    SomeonesClock(row, before);
    if StateOf(Arrived(row, before)) == Text(PACKED) {
      MissedIsAbsent(row, before, top, after);
      SomeonesClock(row, before + after);
    } else {
      assert State in top.fields && forall m | m in before :: m in before + after;
      ArrivedMore(row, before, top);
      NewerRaises(Arrived(row, before), top);
      assert forall m | m in (before + [top]) + after :: m == top || m in before + after;
      assert forall m | m in after :: m in before + after;
      StaysAbove(row, before + [top], after, top.hlc);
    }
  }

  // --------------------------------------------------------- the state before the claim

  /** A packed row no newer write unpacks stays packed, and no claim ever raises its clock. */
  lemma {:induction false} PackedStays(row: Row, ms: seq<Mutation>)
    requires Bounded(row) && StateOf(row) == Text(PACKED)
    requires forall m | m in ms :: !m.op.Delete? && (Unpacks(m) ==> m.hlc <= GroupClock(row))
    ensures var end := Arrived(row, ms);
      && StateOf(end) == Text(PACKED) && GroupClock(end) >= GroupClock(row)
      && (end.hlc == row.hlc || exists m :: m in ms && Carries(m) && !Claims(m) && end.hlc == m.hlc)
  {
    if ms != [] {
      hide Upserted, Bounded, GroupClock, Claims;
      var front, m := ms[..|ms| - 1], ms[|ms| - 1];
      assert ms == front + [m];
      PackedStays(row, front);
      SomeonesClock(row, front);
      var met := Arrived(row, front);
      NextState(met, m);
      GroupClockRises(met, m);
      KeepsBounded(met, m);
      if Claims(m) { ClaimMeetsPacked(met, m); }
    }
  }

  /** A row nobody packs is not packed. */
  lemma {:induction false} NobodyPacks(row: Row, ms: seq<Mutation>)
    requires StateOf(row) != Text(PACKED) && forall m | m in ms :: !m.op.Delete? && !Says(m, PACKED)
    ensures StateOf(Arrived(row, ms)) != Text(PACKED)
  {
    if ms != [] {
      hide Upserted, GroupWins;
      NobodyPacks(row, ms[..|ms| - 1]);
      NextState(Arrived(row, ms[..|ms| - 1]), ms[|ms| - 1]);
    }
  }

  /** Nor is a row that nobody packs or claims by a newer write. */
  lemma {:induction false} NobodyPacksAnew(row: Row, ms: seq<Mutation>)
    requires Bounded(row) && StateOf(row) != Text(PACKED) && StateOf(row) != Text(PACKING_NOW)
    requires forall m | m in ms :: !m.op.Delete? && (Says(m, PACKED) || Says(m, PACKING_NOW) ==> m.hlc <= GroupClock(row))
    ensures var end := Arrived(row, ms);
      StateOf(end) != Text(PACKED) && StateOf(end) != Text(PACKING_NOW) && GroupClock(end) >= GroupClock(row)
  {
    if ms != [] {
      hide Upserted, Bounded, GroupClock;
      var front, m := ms[..|ms| - 1], ms[|ms| - 1];
      assert ms == front + [m];
      NobodyPacksAnew(row, front);
      SomeonesClock(row, front);
      NextState(Arrived(row, front), m);
      GroupClockRises(Arrived(row, front), m);
    }
  }

  // ------------------------------------------------------------- orders of the writes

  /** The writes of `ms` that are none of `some`, in their order. */
  function Rest(ms: seq<Mutation>, some: set<Mutation>): (r: seq<Mutation>)
    ensures forall m :: m in r <==> m in ms && m !in some
  {
    if ms == [] then []
    else if ms[|ms| - 1] in some then Rest(ms[..|ms| - 1], some)
    else Rest(ms[..|ms| - 1], some) + [ms[|ms| - 1]]
  }

  lemma {:induction false} RestIsDistinct(ms: seq<Mutation>, some: set<Mutation>)
    requires Distinct(ms)
    ensures Distinct(Rest(ms, some))
  {
    if ms != [] {
      var front, m := ms[..|ms| - 1], ms[|ms| - 1];
      RestIsDistinct(front, some);
      forall n | n in front ensures n.hlc != m.hlc { var i :| 0 <= i < |front| && front[i] == n; }
      forall i | 0 <= i < |Rest(front, some)| ensures Rest(front, some)[i].hlc != m.hlc { assert Rest(front, some)[i] in front; }
    }
  }

  lemma ClocksApart(ms: seq<Mutation>, m: Mutation, n: Mutation)
    requires Distinct(ms) && m in ms && n in ms && m != n
    ensures m.hlc != n.hlc
  {
    var i :| 0 <= i < |ms| && ms[i] == m;
    var j :| 0 <= j < |ms| && ms[j] == n;
  }

  /** There is an order that begins with any few of the writes. */
  lemma BeginsWith(ms: seq<Mutation>, some: seq<Mutation>)
    requires Distinct(ms) && Distinct(some) && forall m | m in some :: m in ms
    ensures Reorders(ms, some + Rest(ms, set m | m in some))
  {
    var taken := set m | m in some;
    var rest := Rest(ms, taken);
    RestIsDistinct(ms, taken);
    forall i, j | 0 <= i < |some| && 0 <= j < |rest| ensures some[i].hlc != rest[j].hlc {
      assert some[i] in taken && rest[j] in rest;
      ClocksApart(ms, some[i], rest[j]);
    }
  }

  /** An order that begins with `some` and the newest claim ends with its clock exactly when they leave the row unpacked. */
  lemma OrderThrough(row: Row, ms: seq<Mutation>, some: seq<Mutation>, top: Mutation) returns (ns: seq<Mutation>)
    requires Bounded(row) && Distinct(ms) && Tops(row, ms, top)
    requires Distinct(some + [top]) && forall m | m in some :: m in ms && m != top
    ensures Reorders(ms, ns)
    ensures Arrived(row, ns).hlc == top.hlc <==> StateOf(Arrived(row, some)) != Text(PACKED)
  {
    hide Upserted, Claims, Bounded, Arrived;
    var taken := set m | m in some + [top];
    var rest := Rest(ms, taken);
    BeginsWith(ms, some + [top]);
    ns := some + [top] + rest;
    assert top in taken;
    forall m | m in some + rest ensures m in ms && m != top {
    }
    forall m | m in ms ensures !m.op.Delete? { var i :| 0 <= i < |ms| && ms[i] == m; }
    TopDecides(row, some, top, rest);
  }

  // -------------------------------------------------------------- both directions

  /** Without a claim on top no order ends below another. */
  lemma NotAbove(row: Row, ms: seq<Mutation>, ns: seq<Mutation>)
    requires Bounded(row) && Distinct(ms) && Reorders(ms, ns) && forall top :: !Tops(row, ms, top)
    ensures Arrived(row, ns).hlc <= Arrived(row, ms).hlc
  {
    hide Upserted, Claims, Arrived, Bounded;
    AllUpserts(ms);
    AllUpserts(ns);
    SomeonesClock(row, ms);
    SomeonesClock(row, ns);
    if m :| m in ns && Carries(m) && Arrived(row, ns).hlc == m.hlc {
      var x := NewestCarrying(ms, m);
      forall n | n in ms && n != x && Carries(n) ensures n.hlc < x.hlc { ClocksApart(ms, n, x); }
      assert Tops(row, ms, x) <==> Claims(x) && x.hlc > row.hlc;
    }
  }

  lemma AllUpserts(ms: seq<Mutation>)
    requires Distinct(ms)
    ensures forall m | m in ms :: !m.op.Delete?
  {
  }

  lemma {:induction false} NewestCarrying(ms: seq<Mutation>, some: Mutation) returns (x: Mutation)
    requires some in ms && Carries(some)
    ensures x in ms && Carries(x) && forall m | m in ms && Carries(m) :: m.hlc <= x.hlc
  {
    var front, last := ms[..|ms| - 1], ms[|ms| - 1];
    assert ms == front + [last];
    if other :| other in front && Carries(other) {
      x := NewestCarrying(front, other);
      if Carries(last) && last.hlc > x.hlc { x := last; }
    } else {
      x := last;
    }
  }

  /** Nor above another, where the row is packed and stays so. */
  lemma PackedNotAbove(row: Row, ms: seq<Mutation>, ns: seq<Mutation>)
    requires Bounded(row) && Distinct(ms) && Reorders(ms, ns) && StateOf(row) == Text(PACKED)
    requires forall m | m in ms && Unpacks(m) :: m.hlc <= GroupClock(row)
    ensures Arrived(row, ns).hlc <= Arrived(row, ms).hlc
  {
    hide Upserted, Claims, Arrived, Bounded, GroupClock;
    AllUpserts(ms);
    AllUpserts(ns);
    SomeonesClock(row, ms);
    PackedStays(row, ns);
  }

  /** An order, split at the newest claim. */
  lemma SplitAt(row: Row, ms: seq<Mutation>, ns: seq<Mutation>, top: Mutation) returns (before: seq<Mutation>, after: seq<Mutation>)
    requires Bounded(row) && Reorders(ms, ns) && Tops(row, ms, top)
    ensures ns == before + [top] + after && Splits(row, before, top, after)
    ensures forall m | m in before :: m in ms && m != top && !m.op.Delete?
  {
    hide Claims, Bounded;
    var i :| 0 <= i < |ns| && ns[i] == top;
    before, after := ns[..i], ns[i + 1..];
    assert ns == before + [top] + after;
    AllUpserts(ns);
    forall m | m in before + after ensures m in ns && m != top {
      var j :| 0 <= j < |before + after| && (before + after)[j] == m;
      assert ns[if j < i then j else j + 1] == m;
    }
    assert forall m | m in before :: m in before + after;
  }

  /** An unpacked row ends with the newest claim's clock in every order, where the writes are settled. */
  lemma UnpackedEnds(row: Row, ms: seq<Mutation>, ns: seq<Mutation>, top: Mutation)
    requires Bounded(row) && Reorders(ms, ns) && Tops(row, ms, top) && Settled(row, ms, top)
    requires StateOf(row) != Text(PACKED)
    ensures Arrived(row, ns).hlc == top.hlc
  {
    hide Upserted, Claims, Bounded, Arrived, GroupClock, Splits;
    var before, after := SplitAt(row, ms, ns, top);
    if forall m | m in ms :: !Says(m, PACKED) { NobodyPacks(row, before); } else { NobodyPacksAnew(row, before); }
    TopDecides(row, before, top, after);
  }

  lemma SettledEnds(row: Row, ms: seq<Mutation>, top: Mutation)
    requires Bounded(row) && Distinct(ms) && Tops(row, ms, top) && Settled(row, ms, top)
    ensures OneRowClock(row, ms)
  {
    hide Tops, Arrived, Bounded, GroupClock, Distinct;
    forall ns | Reorders(ms, ns) ensures Arrived(row, ns).hlc == Arrived(row, ms).hlc {
      assert Reorders(ns, ms);
      if StateOf(row) == Text(PACKED) {
        PackedNotAbove(row, ms, ns);
        PackedNotAbove(row, ns, ms);
      } else {
        UnpackedEnds(row, ms, ns, top);
        UnpackedEnds(row, ms, ms, top);
      }
    }
  }

  /** Unsettled writes have an order that misses the newest claim and one that meets it. */
  lemma UnsettledDiffer(row: Row, ms: seq<Mutation>, top: Mutation)
    requires Bounded(row) && Distinct(ms) && Tops(row, ms, top) && !Settled(row, ms, top)
    ensures !OneRowClock(row, ms)
  {
    hide Arrived, Bounded, Upserted, Claims;
    var ns := OrderThrough(row, ms, [], top);
    assert Arrived(row, []) == row by { OnArrival(row); }
    var some := Unsettling(row, ms, top);
    var os := OrderThrough(row, ms, some, top);
    assert Arrived(row, ns).hlc != Arrived(row, os).hlc;
  }

  /** The few writes that turn the row from packed to unpacked, or the other way, before the claim arrives. */
  lemma Unsettling(row: Row, ms: seq<Mutation>, top: Mutation) returns (some: seq<Mutation>)
    requires Bounded(row) && Distinct(ms) && Tops(row, ms, top) && !Settled(row, ms, top)
    ensures Distinct(some + [top]) && forall m | m in some :: m in ms && m != top
    ensures StateOf(Arrived(row, some)) == Text(PACKED) <==> StateOf(row) != Text(PACKED)
  {
    hide Arrived, Upserted;
    OnArrival(row);
    if StateOf(row) == Text(PACKED) {
      var u :| u in ms && Unpacks(u) && u.hlc > GroupClock(row);
      some := [u];
      OneArrival(row, u);
      ClocksApart(ms, u, top);
      AllUpserts(ms);
      NextState(row, u);
    } else {
      var p :| p in ms && Says(p, PACKED);
      ClocksApart(ms, p, top);
      AllUpserts(ms);
      OneArrival(row, p);
      NextState(row, p);
      some := [p];
      if StateOf(row) != Text(PACKING_NOW) && p.hlc <= GroupClock(row) {
        var q :| q in ms && q != top && (Says(q, PACKED) || Says(q, PACKING_NOW)) && q.hlc > GroupClock(row);
        ClocksApart(ms, q, top);
        OneArrival(row, q);
        NextState(row, q);
        some := [q];
        if Says(q, PACKING_NOW) {
          ClocksApart(ms, p, q);
          some := [q, p];
          ArrivedTwo(row, q, p);
          NextState(Upserted(row, q), p);
        }
      }
    }
  }

  lemma OnArrival(row: Row)
    ensures Arrived(row, []) == row
  {
  }

  lemma ArrivedTwo(row: Row, a: Mutation, b: Mutation)
    ensures Arrived(row, [a, b]) == Upserted(Upserted(row, a), b)
  {
    assert [a, b][..1] == [a] && [a][..0] == [];
    assert Arrived(row, [a]) == Upserted(row, a);
  }

  lemma OneArrival(row: Row, m: Mutation)
    ensures Arrived(row, [m]) == Upserted(row, m)
  {
    hide Upserted;
    ArrivedMore(row, [], m);
    assert [] + [m] == [m];
  }

  /**
   * Every order of the writes ends with one row clock exactly when the newest of them is no claim newer than the
   * row, or whether that claim finds the row packed is settled: a packed row no newer write unpacks, a row nobody
   * packs, or one that is neither packed nor claimed and that nobody packs or claims anew but by that claim.
   */
  lemma RowClockIsOneExactly(row: Row, ms: seq<Mutation>)
    requires Bounded(row) && Distinct(ms)
    ensures OneRowClock(row, ms) <==> forall top | Tops(row, ms, top) :: Settled(row, ms, top)
  {
    hide Tops, Settled, Arrived, Bounded, Distinct;
    if top :| Tops(row, ms, top) {
      forall other | Tops(row, ms, other) ensures other == top { OnlyOneTops(row, ms, top, other); }
      if Settled(row, ms, top) { SettledEnds(row, ms, top); } else { UnsettledDiffer(row, ms, top); }
    } else {
      forall ns | Reorders(ms, ns) ensures Arrived(row, ns).hlc == Arrived(row, ms).hlc {
        forall top ensures !Tops(row, ns, top) { TopsInOrder(row, ms, ns, top); }
        NotAbove(row, ms, ns);
        NotAbove(row, ns, ms);
      }
    }
  }

  lemma OnlyOneTops(row: Row, ms: seq<Mutation>, top: Mutation, other: Mutation)
    requires Tops(row, ms, top) && Tops(row, ms, other)
    ensures other == top
  {
    assert State in top.fields && State in other.fields;
  }

  lemma TopsInOrder(row: Row, ms: seq<Mutation>, ns: seq<Mutation>, top: Mutation)
    requires Reorders(ms, ns)
    ensures Tops(row, ms, top) <==> Tops(row, ns, top)
  {
  }

  /** In particular when every write names an ordinary field: then none is a claim. */
  lemma RowClockOrderDoesNotMatter(row: Row, ms: seq<Mutation>)
    requires Bounded(row) && Distinct(ms) && forall m | m in ms :: exists f :: f in m.fields && Ordinary(f)
    ensures OneRowClock(row, ms)
  {
    hide OneRowClock, Settled, Bounded, Distinct;
    forall top ensures !Tops(row, ms, top) {
      if top in ms { var f :| f in top.fields && Ordinary(f); }
    }
    RowClockIsOneExactly(row, ms);
  }

  /** A state that is newer than the row, or packs a claimed one, lands. */
  lemma StateLands(row: Row, m: Mutation)
    requires !m.op.Delete? && State in m.fields && GroupWins(row, m)
    ensures Upserted(row, m).hlc == Max(row.hlc, m.hlc) && StateOf(Upserted(row, m)) == Stored(m.fields[State])
  {
    assert State in Resolve(Some(row), m).applied;
  }

  /** Without an ordinary field the row clock does depend on it: a claim after the packing leaves the row's clock,
      one before it raises it. */
  lemma RowClockDependsOnOrder(row: Row, pack: Mutation, claim: Mutation)
    requires !pack.op.Delete? && Says(pack, PACKED) && Claims(claim) && GroupClock(row) <= row.hlc < pack.hlc < claim.hlc
    requires StateOf(row) != Text(PACKED)
    ensures Arrived(row, [pack, claim]).hlc == pack.hlc && Arrived(row, [claim, pack]).hlc == claim.hlc
  {
    hide Upserted, Wins;
    ArrivedTwo(row, pack, claim);
    ArrivedTwo(row, claim, pack);
    StateLands(row, pack);
    ClaimMeetsPacked(Upserted(row, pack), claim);
    StateLands(row, claim);
    StateLands(Upserted(row, claim), pack);
  }
}
