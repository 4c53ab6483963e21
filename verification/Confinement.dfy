// Rows of a confined table and the rows they hang off stay in one trip, in
// every reachable state (internal/store/meals.go, dayentries.go, planner.go).
module Confinement {
  import opened Values
  import opened Vocabulary
  import opened Merging
  import opened Registry
  import opened Database
  import opened Stamping
  import opened Guards
  import opened Pipeline
  import opened System
  import opened Steps
  import opened Effects
  import opened Cascading

  /** The rules that confine a link judge whatever the mutation names for it. */
  lemma RuledInTrip(reg: Registry, a: Rows, p: Partition, m: Mutation, c: Column, parent: Table)
    requires KeepsInTrip(reg.guard(m.table), c, parent) && !m.op.Delete?
    ensures Judge(reg, a, m, p).Pass? ==> Judge(reg, a, m, p).m == m
    ensures Judge(reg, a, m, p).Pass? && Names(m, c).Some? ==>
      Key(parent, Names(m, c).value) in a && TripOf(a, Key(parent, Names(m, c).value)) == Text(p.Trip())
  {
    match reg.guard(m.table)
    case IdeaImage => assert Judge(reg, a, m, p) == JudgeUpload(a, m, {Position});
    case Track => assert Judge(reg, a, m, p) == JudgeUpload(a, m, {Name, Kind, WithKid, PauseMin, Position});
    case IdeaLink => assert Judge(reg, a, m, p) == JudgeParent(ParentInTrip(a, m, IdeaId, Ideas, p.Trip()), m);
    case IngredientMeal => assert Judge(reg, a, m, p) == JudgeParent(ParentInTrip(a, m, MealId, Meals, p.Trip()), m);
    case DayEntryTraveler =>
      assert Judge(reg, a, m, p) == JudgeParent(ParentInTrip(a, m, DayEntryId, DayEntries, p.Trip()) &&
                                                ParentInTrip(a, m, TravelerId, Travelers, p.Trip()), m);
  }

  /** A parent a gated mutation names is there and of the partition's trip. */
  lemma ParentJudged(reg: Registry, a: Rows, p: Partition, w: Env, sent: Mutation, m: Mutation, c: Column, parent: Table)
    requires PassedGate(reg, a, p, w, sent, m) && !m.op.Delete? && KeepsInTrip(reg.guard(m.table), c, parent)
    ensures Names(m, c).Some? ==> Key(parent, Names(m, c).value) in a && TripOf(a, Key(parent, Names(m, c).value)) == Text(p.Trip())
  {
    var m1 := StampOwned(reg.stamp(sent.table), sent, KeyOf(sent) in a, p.actor, w);
    GateLets(reg, a, p, w, sent, m);
    RuledInTrip(reg, a, p, m1, c, parent);
  }

  lemma WrittenInTrip(reg: Registry, a: Rows, b: Rows, p: Partition, w: Env, sent: Mutation, m: Mutation, source: Source)
    requires Founded(reg) && Declared(reg) && SchemaOk(reg, a) && SchemaOk(reg, b) && AllInTrip(reg, a)
    requires !m.op.Delete? && Sourced(reg, a, p, w, sent, m, source) && b == Written(reg, a, p, w, m)
    requires reg.side(m.table) == SideOf(p.feed) && Confined(m.table)
    ensures InTrip(reg, b, KeyOf(m))
  {
    var k := KeyOf(m);
    WrittenRows(reg, a, p, w, m, k);
    WrittenTrip(reg, a, b, p, w, sent, m, source);
    if k in a { assert InTrip(reg, a, k); }
    forall c | c in reg.columns(k.table)
      ensures var t := TargetOf(reg, b, k, c);
        t.Some? && !t.value.table.Trips? && reg.Cascades(k.table, c, t.value.table) ==>
          t.value in b && TripOf(b, t.value) == TripOf(b, k)
    {
      var t := TargetOf(reg, b, k, c);
      if t.Some? && !t.value.table.Trips? && reg.Cascades(k.table, c, t.value.table) {
        LinkInTrip(reg, a, b, p, w, sent, m, source, c, t.value);
      }
    }
  }

  /** Only a gated write touches a table that hangs off more than its trip. */
  lemma HangingIsGated(reg: Registry, a: Rows, p: Partition, w: Env, sent: Mutation, m: Mutation, source: Source, c: Column, x: Table)
    requires Declared(reg) && Sourced(reg, a, p, w, sent, m, source) && reg.side(m.table) == SideOf(p.feed)
    requires Confined(m.table) && !x.Trips? && reg.Cascades(m.table, c, x)
    ensures source.Gated? && Confined(x) && KeepsInTrip(reg.guard(m.table), c, x)
  {
    hide Honest, MasterComplete, PassedGate;
  }

  /** A link that stood names a row of the same trip. */
  lemma LinkStood(reg: Registry, a: Rows, k: Key, c: Column, x: Key)
    requires Declared(reg) && Confined(k.table) && InTrip(reg, a, k) && !x.table.Trips?
    requires TargetOf(reg, a, k, c) == Some(x) && reg.Cascades(k.table, c, x.table)
    ensures x in a && TripOf(a, x) == TripOf(a, k)
  {
    hide Honest, MasterComplete;
    assert c in reg.columns(k.table);
  }

  /** The parent a written link names was there before, in the partition's trip. */
  lemma LinkedParent(
    reg: Registry, a: Rows, b: Rows, p: Partition, w: Env, sent: Mutation, m: Mutation, source: Source, c: Column, x: Key)
    requires Declared(reg) && !m.op.Delete? && Sourced(reg, a, p, w, sent, m, source)
    requires reg.side(m.table) == SideOf(p.feed) && Confined(m.table) && !x.table.Trips?
    requires KeyOf(m) in b && b[KeyOf(m)] == RowAfter(reg, a, m)
    requires TargetOf(reg, b, KeyOf(m), c) == Some(x) && reg.Cascades(m.table, c, x.table)
    requires Get(reg.defaults(m.table), c) == Null
    requires KeyOf(m) in a ==> TripOf(a, KeyOf(m)) == Text(p.Trip()) && InTrip(reg, a, KeyOf(m))
    ensures x in a && TripOf(a, x) == Text(p.Trip()) && Confined(x.table)
  {
    hide Honest, MasterComplete, TripComplete, PassedGate, RowAfter, InTrip, Wins;
    HangingIsGated(reg, a, p, w, sent, m, source, c, x.table);
    ParentJudged(reg, a, p, w, sent, m, c, x.table);
    WrittenCell(reg, a, m, c);
    if KeyOf(m) in a && Cell(b, KeyOf(m), c) == Cell(a, KeyOf(m), c) { LinkStood(reg, a, KeyOf(m), c, x); }
  }

  lemma LinkInTrip(
    reg: Registry, a: Rows, b: Rows, p: Partition, w: Env, sent: Mutation, m: Mutation, source: Source, c: Column, x: Key)
    requires Declared(reg) && !m.op.Delete? && Sourced(reg, a, p, w, sent, m, source) && b == Written(reg, a, p, w, m)
    requires reg.side(m.table) == SideOf(p.feed) && Confined(m.table) && !x.table.Trips?
    requires KeyOf(m) in b && TargetOf(reg, b, KeyOf(m), c) == Some(x) && reg.Cascades(m.table, c, x.table)
    requires TripOf(b, KeyOf(m)) == Text(p.Trip())
    requires KeyOf(m) in a ==> TripOf(a, KeyOf(m)) == Text(p.Trip()) && InTrip(reg, a, KeyOf(m))
    ensures x in b && TripOf(b, x) == Text(p.Trip())
  {
    hide Honest, MasterComplete, Sourced, Written, RowAfter, InTrip;
    WrittenRows(reg, a, p, w, m, KeyOf(m));
    WrittenRows(reg, a, p, w, m, x);
    LinkedParent(reg, a, b, p, w, sent, m, source, c, x);
  }

  /** A row elsewhere keeps its parents in its trip: no write moves a row to another. */
  lemma OthersInTrip(reg: Registry, a: Rows, b: Rows, p: Partition, w: Env, m: Mutation, j: Key)
    requires Declared(reg) && SchemaOk(reg, a) && !m.op.Delete? && b == Written(reg, a, p, w, m)
    requires KeyOf(m) in a && reg.side(m.table) == OnTrip ==> KeyOf(m) in b && TripOf(b, KeyOf(m)) == TripOf(a, KeyOf(m))
    requires j in a && j != KeyOf(m) && j in b && b[j] == a[j] && Confined(j.table) && InTrip(reg, a, j)
    ensures InTrip(reg, b, j)
  {
    hide SchemaOk, Honest, MasterComplete, Written, RowAfter;
    forall c | c in reg.columns(j.table)
      ensures var t := TargetOf(reg, b, j, c);
        t.Some? && !t.value.table.Trips? && reg.Cascades(j.table, c, t.value.table) ==>
          t.value in b && TripOf(b, t.value) == TripOf(b, j)
    {
      var t := TargetOf(reg, a, j, c);
      if t.Some? { WrittenRows(reg, a, p, w, m, t.value); }
    }
  }

  lemma DeleteKeepsInTrip(reg: Registry, a: Rows, b: Rows, gone: Key)
    requires Declared(reg) && Founded(reg) && AllInTrip(reg, a) && SchemaOk(reg, b) && b == Deleted(reg, a, gone)
    ensures AllInTrip(reg, b)
  {
    forall j, c | j in b && Confined(j.table) && c in reg.columns(j.table)
      ensures var t := TargetOf(reg, b, j, c);
        t.Some? && !t.value.table.Trips? && reg.Cascades(j.table, c, t.value.table) ==>
          t.value in b && TripOf(b, t.value) == TripOf(b, j)
    {
      DeletedCell(reg, a, gone, j, c);
      DeletedCell(reg, a, gone, j, TripId);
      var t := TargetOf(reg, b, j, c);
      if t.Some? && !t.value.table.Trips? && reg.Cascades(j.table, c, t.value.table) {
        assert InTrip(reg, a, j);
        LinkNames(reg, b, j, c);
        DeletedCell(reg, a, gone, t.value, TripId);
      }
    }
  }

  /** No step puts a confined row and its parent in two trips. */
  lemma StepKeepsInTrip(reg: Registry, a: Rows, b: Rows, s: Step)
    requires Founded(reg) && Declared(reg)
    requires AllInTrip(reg, a) && SchemaOk(reg, a) && SchemaOk(reg, b) && Acted(reg, a, b, s)
    ensures AllInTrip(reg, b)
  {
    hide Honest, MasterComplete, TripComplete, LinkOk, Sourced, Written, RowAfter, InTrip, AfterChange;
    match s.act
    case Wrote(w, sent, m, source) =>
      WrittenRows(reg, a, s.p, w, m, KeyOf(m));
      if reg.side(m.table) == OnTrip { WrittenTrip(reg, a, b, s.p, w, sent, m, source); }
      forall j | j in b && Confined(j.table) ensures InTrip(reg, b, j) {
        WrittenRows(reg, a, s.p, w, m, j);
        if j == KeyOf(m) { WrittenInTrip(reg, a, b, s.p, w, sent, m, source); }
        else { OthersInTrip(reg, a, b, s.p, w, m, j); }
      }
    case Removed(_, _, m) => DeleteKeepsInTrip(reg, a, b, KeyOf(m));
    case _ =>
  }
}
