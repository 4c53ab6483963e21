// Every trip has exactly one owner: its creator, whose membership row no push
// or revert touches and only the trip's own delete removes
// (internal/store/master.go, masterAfterChange and memberAdministration).
module Owners {
  import opened Values
  import opened Vocabulary
  import opened Merging
  import opened Registry
  import opened Database
  import opened Stamping
  import opened Guards
  import opened Pipeline
  import opened System
  import opened Steps
  import opened Effects

  predicate Owns(rows: Rows, k: Key, trip: string) {
    k in rows && k.table.TripMembers? && Cell(rows, k, TripId) == Text(trip) && Cell(rows, k, Role) == Text(ROLE_OWNER)
  }

  ghost predicate OneOwner(rows: Rows) {
    && (forall trip | Key(Trips, trip) in rows :: exists k :: Owns(rows, k, trip))
    && (forall trip, j, k | Owns(rows, j, trip) && Owns(rows, k, trip) :: j == k)
  }

  /** What the registry must say about memberships. */
  ghost predicate Rostered(reg: Registry) {
    && reg.guard(TripMembers) == MemberAdministration && reg.stamp(TripMembers) == NoStamp
    && !reg.retirable(TripMembers) && !reg.retirable(Trips)
    && Get(reg.defaults(TripMembers), Role) != Text(ROLE_OWNER)
    && {TripId, Role} <= reg.columns(TripMembers) && Get(reg.defaults(TripMembers), TripId) == Null
    && reg.visible(Trips) == OfTrip && (forall c :: !reg.Severable(Trips, c))
  }

  /** A membership that was pushed or deleted was not the owner's, and asked for no owner. */
  lemma MemberJudged(reg: Registry, a: Rows, p: Partition, w: Env, sent: Mutation, m: Mutation, source: Source)
    requires Rostered(reg) && m.table.TripMembers? && Sourced(reg, a, p, w, sent, m, source)
    ensures Names(m, Role) != Some(ROLE_OWNER) && Cell(a, KeyOf(m), Role) != Text(ROLE_OWNER)
    ensures MayAdminister(a, Parents(a, m, TripId), p.actor)
  {
    if source.Gated? {
      var m1 := StampOwned(reg.stamp(sent.table), sent, KeyOf(sent) in a, p.actor, w);
      GateLets(reg, a, p, w, sent, m);
      assert Judge(reg, a, m1, p) == JudgeMember(a, m1, p.actor);
      assert m1.fields == m.fields;
    }
  }

  /** A write makes no owner but the founder of a new trip. */
  lemma WrittenOwner(reg: Registry, a: Rows, p: Partition, w: Env, sent: Mutation, m: Mutation, source: Source, k: Key, trip: string)
    requires Rostered(reg) && !m.op.Delete? && Sourced(reg, a, p, w, sent, m, source)
    ensures Owns(Written(reg, a, p, w, m), k, trip) <==>
      (IsFounder(p, w, a, m, k) && trip == m.id) || (!IsFounder(p, w, a, m, k) && Owns(a, k, trip))
  {
    hide Written, RowAfter, Sourced, Judge;
    WrittenRows(reg, a, p, w, m, k);
    if k == KeyOf(m) && k.table.TripMembers? {
      MemberJudged(reg, a, p, w, sent, m, source);
      WrittenCell(reg, a, m, Role);
    }
  }

  lemma WriteKeepsOneOwner(reg: Registry, a: Rows, b: Rows, p: Partition, w: Env, sent: Mutation, m: Mutation, source: Source)
    requires Founded(reg) && Rostered(reg) && OneOwner(a) && SchemaOk(reg, a)
    requires !m.op.Delete? && Sourced(reg, a, p, w, sent, m, source) && b == Written(reg, a, p, w, m)
    requires reg.side(m.table) == SideOf(p.feed)
    requires Founds(p, m, KeyOf(m) in a, false) ==> Key(TripMembers, w.memberId) !in a
    ensures OneOwner(b)
  {
    forall trip, k | Owns(a, k, trip) ensures Key(Trips, trip) in a { LinkNames(reg, a, k, TripId); }
    forall trip | Key(Trips, trip) in b ensures exists k :: Owns(b, k, trip) {
      WrittenRows(reg, a, p, w, m, Key(Trips, trip));
      if Key(Trips, trip) in a {
        var k :| Owns(a, k, trip);
        WrittenOwner(reg, a, p, w, sent, m, source, k, trip);
      } else {
        WrittenOwner(reg, a, p, w, sent, m, source, Key(TripMembers, w.memberId), trip);
      }
    }
    forall trip, j, k | Owns(b, j, trip) && Owns(b, k, trip) ensures j == k {
      WrittenOwner(reg, a, p, w, sent, m, source, j, trip);
      WrittenOwner(reg, a, p, w, sent, m, source, k, trip);
    }
  }

  /** The owner's row goes only with its trip. */
  lemma OwnerSurvives(reg: Registry, a: Rows, gone: Key, k: Key, trip: string)
    requires Founded(reg) && Rostered(reg) && Owns(a, k, trip) && k != gone
    requires Key(Trips, trip) in Deleted(reg, a, gone)
    ensures Owns(Deleted(reg, a, gone), k, trip)
    ensures Deleted(reg, a, gone)[k] == a[k]
  {
    DoomedIsClosed(reg, a, {gone});
    if k in Doomed(reg, a, {gone}) { DoomedHang(reg, a, {gone}, k); }
    assert forall c :: !reg.Severable(TripMembers, c);
    assert Deleted(reg, a, gone)[k].fields == a[k].fields;
  }

  lemma DeleteKeepsOneOwner(reg: Registry, a: Rows, b: Rows, p: Partition, w: Env, sent: Mutation, m: Mutation)
    requires Founded(reg) && Rostered(reg) && OneOwner(a) && b == Deleted(reg, a, KeyOf(m))
    requires PassedGate(reg, a, p, w, sent, m)
    ensures OneOwner(b)
  {
    if m.table.TripMembers? { MemberJudged(reg, a, p, w, sent, m, Gated); }
    forall trip | Key(Trips, trip) in b ensures exists k :: Owns(b, k, trip) {
      var k :| Owns(a, k, trip);
      OwnerSurvives(reg, a, KeyOf(m), k, trip);
    }
    forall trip, k | Owns(b, k, trip) ensures Owns(a, k, trip) {
      DeletedCell(reg, a, KeyOf(m), k, TripId);
      DeletedCell(reg, a, KeyOf(m), k, Role);
    }
  }

  /** No step leaves a trip without its one owner, or with two. */
  lemma StepKeepsOneOwner(reg: Registry, a: Rows, b: Rows, s: Step)
    requires Founded(reg) && Rostered(reg) && OneOwner(a) && SchemaOk(reg, a) && Acted(reg, a, b, s)
    ensures OneOwner(b)
  {
    match s.act
    case Wrote(w, sent, m, source) => WriteKeepsOneOwner(reg, a, b, s.p, w, sent, m, source);
    case Removed(w, sent, m) => DeleteKeepsOneOwner(reg, a, b, s.p, w, sent, m);
    case _ =>
  }

  /** The owner's row is never altered, and it goes only with its trip. */
  lemma OwnerIsUntouched(reg: Registry, a: Rows, b: Rows, s: Step, k: Key, trip: string)
    requires Founded(reg) && Rostered(reg) && SchemaOk(reg, a) && Acted(reg, a, b, s) && Owns(a, k, trip)
    ensures Key(Trips, trip) in a
    ensures if k in b then b[k] == a[k] else Key(Trips, trip) !in b
  {
    hide SchemaOk, RowAfter, Written, PassedGate, LinkOk, MayAdminister, AfterChange;
    LinkNames(reg, a, k, TripId);
    match s.act
    case Wrote(w, sent, m, source) =>
      WrittenRows(reg, a, s.p, w, m, k);
      if k == KeyOf(m) { MemberJudged(reg, a, s.p, w, sent, m, source); }
    case Removed(w, sent, m) =>
      if m.table.TripMembers? { MemberJudged(reg, a, s.p, w, sent, m, Gated); }
      if Key(Trips, trip) in b { OwnerSurvives(reg, a, KeyOf(m), k, trip); }
      else {
        DoomedIsClosed(reg, a, {KeyOf(m)});
        assert TargetOf(reg, a, k, TripId) == Some(Key(Trips, trip));
        assert Hangs(reg, a, k, Doomed(reg, a, {KeyOf(m)}));
      }
    case _ =>
  }
}
