// What a run delivers to a device: the trip of every membership, and each row
// whole unless a delete emptied one of its links since its newest entry
// (internal/store/master.go, masterAfterChange; internal/store/pull.go).
module Deliveries {
  import opened Values
  import opened Vocabulary
  import opened Merging
  import opened Registry
  import opened Database
  import opened Guards
  import opened Pipeline
  import opened System
  import opened Steps
  import opened Effects
  import opened Owners
  import opened Feeds
  import opened Convergence
  import opened Devices
  import opened WholeRows
  import opened Deleting
  import opened Laws
  import opened Reachable
  import opened Timelines
  import Hlc

  // ---------------------------------------------------------------------- grants

  /** A row in sight with nothing left to pull is the device's, severable links aside. */
  lemma InSightIsHad(reg: Registry, r: Replica, db: Db, f: Feed, ts: set<Table>, user: string, k: Key)
    requires Converging(reg, r, db, f, ts, user) && Pulled(reg, f, ts, k.table) && !Behind(LogOf(db, f), r.cursor, k)
    requires Sight(reg, db.rows, f, user, k).Some?
    ensures k in r.rows && Steady(reg, k.table, r.rows[k].fields) == Steady(reg, k.table, db.rows[k].fields) &&
      r.rows[k].hlc == db.rows[k].hlc
  {
    assert UpToDate(reg, r, db, f, user, k);
  }

  /** A table without severable links travels whole. */
  lemma SteadyIsWhole(reg: Registry, t: Table, a: Fields)
    requires forall c :: !reg.Severable(t, c)
    ensures Steady(reg, t, a) == a
  {
  }

  /** A member sees the trip. */
  lemma MemberSees(reg: Registry, rows: Rows, user: string, trip: string)
    requires Founded(reg) && Rostered(reg) && SchemaOk(reg, rows) && IsMember(rows, trip, user)
    ensures Key(Trips, trip) in rows && Sight(reg, rows, MasterFeed, user, Key(Trips, trip)).Some?
  {
    var j :| j in rows && Membership(rows, j, trip, user);
    LinkNames(reg, rows, j, TripId);
  }

  /** However memberships came, went and came again, a member's device with nothing of the trip left to pull has the trip as it is. */
  lemma GrantDelivers(
    reg: Registry, gen: Hlc.Gen, events: seq<Event>, user: string, trip: string, pulls: seq<Pulling>, from: nat, t: nat)
    requires Timeline(reg, gen, events) && from <= t <= |events| && Steadily(reg, gen, events, MasterFeed, {Trips}, from, t)
    requires Scheduled(pulls, from, t) && InTime(pulls, |events| + 1)
    requires IsMember(At(reg, gen, events, t).db.rows, trip, user)
    requires !Behind(
      LogOf(At(reg, gen, events, t).db, MasterFeed), DeviceIn(reg, gen, events, MasterFeed, user, pulls).cursor, Key(Trips, trip))
    ensures HasRow(DeviceIn(reg, gen, events, MasterFeed, user, pulls), At(reg, gen, events, t).db.rows, Key(Trips, trip))
  {
    hide Timeline, Steadily, At, Scheduled, Converging, Behind, IsMember, Kept, Lawful;
    DevicesConverge(reg, gen, events, MasterFeed, {Trips}, user, pulls, from, t);
    AtIsKept(reg, gen, events, t);
    TimelineIsLawful(reg, gen, events);
    MemberHasTrip(reg, At(reg, gen, events, t), DeviceIn(reg, gen, events, MasterFeed, user, pulls), user, trip);
  }

  lemma MemberHasTrip(reg: Registry, s: Sys, r: Replica, user: string, trip: string)
    requires Lawful(reg) && Kept(reg, s) && IsMember(s.db.rows, trip, user)
    requires Converging(reg, r, s.db, MasterFeed, {Trips}, user) && !Behind(LogOf(s.db, MasterFeed), r.cursor, Key(Trips, trip))
    ensures HasRow(r, s.db.rows, Key(Trips, trip))
  {
    hide Converging, Behind, Sight, Steady, IsMember, SchemaOk, Kept, Founded, Lawful, Pulled, Ordered;
    TripLaws(reg, s);
    var k := Key(Trips, trip);
    MemberSees(reg, s.db.rows, user, trip);
    InSightIsHad(reg, r, s.db, MasterFeed, {Trips}, user, k);
    SteadyIsWhole(reg, Trips, r.rows[k].fields);
    SteadyIsWhole(reg, Trips, s.db.rows[k].fields);
  }

  /** What a trip's row is asked about with. */
  lemma TripLaws(reg: Registry, s: Sys)
    requires Lawful(reg) && Kept(reg, s)
    ensures Founded(reg) && Rostered(reg) && SchemaOk(reg, s.db.rows) && Pulled(reg, MasterFeed, {Trips}, Trips)
    ensures forall c :: !reg.Severable(Trips, c)
  {
    hide SchemaOk, Kept, Lawful;
    KeptIsOrdered(reg, s);
  }

  // ------------------------------------------------------------------ whole rows

  /** The event deletes a row, and with it one that a letting-go link of the entity names. */
  predicate Empties(reg: Registry, a: Db, b: Db, e: Event, k: Key) {
    Deletes(reg, a, e) && KeyOf(e.m) !in b.rows && k in a.rows && exists c | c in a.rows[k].fields ::
      reg.Severable(k.table, c) && TargetOf(reg, a.rows, k, c).Some? &&
      TargetOf(reg, a.rows, k, c).value in Doomed(reg, a.rows, {KeyOf(e.m)})
  }

  /** A row the event says nothing of and empties no link of travels as it did. */
  lemma SilentIsWhole(reg: Registry, s: Sys, e: Event, f: Feed, ts: set<Table>, t: Step, k: Key)
    requires Ordered(reg, s.db.rows) && Took(reg, s.db, Next(reg, s, e).db, t) && FairStep(t)
    requires Answers(s.db, e, Minted(Next(reg, s, e)), t)
    requires OwnStep(reg, s.db.rows, t, f, ts) && Asked(reg, f, ts, k.table) && !Told(t, f, k) &&
      !Empties(reg, s.db, Next(reg, s, e).db, e, k)
    ensures Content(Next(reg, s, e).db.rows, f, k) == Content(s.db.rows, f, k)
  {
    hide Next, SchemaOk, Rostered, Told, Doomed, Empties, Asked, Blocked, PassedGate;
    var a, b := s.db.rows, Next(reg, s, e).db.rows;
    assert OwnAt(reg, a, t, f, k);
    AskedIsOfSide(reg, f, ts, k.table);
    match t.act
    case Wrote(_, _, _, _) => UntoldByWrite(reg, a, b, t, f, k);
    case Removed(_, _, m) =>
      DeletedIsHeld(reg, a, b, t);
      HeldAfterDelete(reg, a, KeyOf(m), f, k);
      UntoldByDelete(reg, a, b, t, f, k);
      assert Deletes(reg, s.db, e);
      if k in b { SurvivesWhole(reg, s.db, Next(reg, s, e).db, e, k); }
    case _ =>
  }

  lemma AskedIsOfSide(reg: Registry, f: Feed, ts: set<Table>, t: Table)
    requires Asked(reg, f, ts, t)
    ensures reg.side(t) == SideOf(f)
  {
  }

  /** A delete that empties none of a row's links leaves it as it was. */
  lemma SurvivesWhole(reg: Registry, a: Db, b: Db, e: Event, k: Key)
    requires Deletes(reg, a, e) && b.rows == Deleted(reg, a.rows, KeyOf(e.m)) && k in b.rows && !Empties(reg, a, b, e, k)
    ensures b.rows[k] == a.rows[k]
  {
    hide Doomed;
    DoomedIsClosed(reg, a.rows, {KeyOf(e.m)});
    assert b.rows[k].fields == a.rows[k].fields;
  }

  /** Up to a moment, every delete that emptied a link of the entity was followed by an entry of it. */
  ghost predicate EmptyingsAreTold(reg: Registry, gen: Hlc.Gen, events: seq<Event>, f: Feed, k: Key, i: int, j: int) {
    forall n | i <= n < j :: Empties(reg, At(reg, gen, events, n).db, At(reg, gen, events, n + 1).db, Nth(events, n), k) ==>
      Since(At(reg, gen, events, n).db, At(reg, gen, events, j).db, f, k)
  }

  /** One event to the next, a change of the row is spoken of, or empties a link. */
  lemma NextSpeaks(reg: Registry, s: Sys, e: Event, f: Feed, ts: set<Table>, k: Key)
    requires Lawful(reg) && Kept(reg, s) && Admissible(reg, s, e)
    requires OwnDelete(reg, s.db, e, f, ts - Sure(f)) && FeedLives(Next(reg, s, e).db.rows, f) && Asked(reg, f, ts, k.table)
    ensures Content(Next(reg, s, e).db.rows, f, k) == Content(s.db.rows, f, k) || Empties(reg, s.db, Next(reg, s, e).db, e, k) ||
      Since(s.db, Next(reg, s, e).db, f, k)
  {
    hide Next, Ordered, Acted, Sane, Kept, Lawful, Admissible, FairStep, OwnStep, OwnDelete, Sure, Empties, Content, Asked, Told;
    KeptIsOrdered(reg, s);
    var t := EventSteps(reg, s, e);
    EventIsOwn(reg, s, e, t, f, ts - Sure(f));
    OwnBeyondSure(reg, s.db.rows, Next(reg, s, e).db.rows, t, f, ts);
    if Told(t, f, k) {
      TellingIsMentioning(t, s.db.head, f, k);
      ToldIsSince(reg, s.db, Next(reg, s, e).db, t, f, k);
    } else if !Empties(reg, s.db, Next(reg, s, e).db, e, k) {
      SilentIsWhole(reg, s, e, f, ts, t, k);
    }
  }

  lemma ToldIsSince(reg: Registry, a: Db, b: Db, t: Step, f: Feed, k: Key)
    requires Took(reg, a, b, t) && FeedLives(b.rows, f) && f == t.p.feed && Mentions(Numbered(t.notes, a.head), k)
    ensures Since(a, b, f, k)
  {
    assert LogOf(b, f)[|LogOf(a, f)|..] == Numbered(t.notes, a.head);
  }

  lemma MomentSpeaks(reg: Registry, gen: Hlc.Gen, events: seq<Event>, f: Feed, ts: set<Table>, k: Key, n: nat)
    requires Timeline(reg, gen, events) && n < |events| && FeedLives(At(reg, gen, events, n + 1).db.rows, f)
    requires OwnDelete(reg, At(reg, gen, events, n).db, Nth(events, n), f, ts - Sure(f)) && Asked(reg, f, ts, k.table)
    ensures var a, b := At(reg, gen, events, n).db, At(reg, gen, events, n + 1).db;
      Content(b.rows, f, k) == Content(a.rows, f, k) || Empties(reg, a, b, Nth(events, n), k) || Since(a, b, f, k)
  {
    hide Kept, Next, Admissible, Content, Since, Empties, OwnDelete, At, Timeline, Sure, FeedLives, Asked;
    Moment(reg, gen, events, n);
    TimelineIsLawful(reg, gen, events);
    NextSpeaks(reg, At(reg, gen, events, n), Nth(events, n), f, ts, k);
  }

  /** What was said by the next moment was said by any later one. */
  lemma SaidByThen(reg: Registry, dbs: seq<Db>, f: Feed, ts: set<Table>, user: string, from: nat, t: nat, n: nat, k: Key)
    requires Flows(reg, dbs, f, ts, user, from, t) && from <= n < t && Since(dbs[n], dbs[n + 1], f, k)
    ensures Since(dbs[n], dbs[t], f, k)
  {
    hide FlowsAt, Since;
    FlowGrows(reg, dbs, f, ts, user, from, t, n, n + 1);
    FlowGrows(reg, dbs, f, ts, user, from, t, n + 1, t);
    SilenceJoins(dbs[n], dbs[n + 1], dbs[t], f, k);
  }

  /** A change between two moments has an entry by the moment `t`. */
  predicate SpokenAt(reg: Registry, gen: Hlc.Gen, events: seq<Event>, f: Feed, k: Key, n: int, t: int) {
    var a, b := At(reg, gen, events, n).db, At(reg, gen, events, n + 1).db;
    Content(a.rows, f, k) != Content(b.rows, f, k) ==> Since(a, At(reg, gen, events, t).db, f, k)
  }

  lemma SpokenBetween(
    reg: Registry, gen: Hlc.Gen, events: seq<Event>, f: Feed, ts: set<Table>, user: string, k: Key, from: nat, t: nat, n: nat)
    requires Timeline(reg, gen, events) && from <= n < t <= |events| && Steadily(reg, gen, events, f, ts, from, t)
    requires Asked(reg, f, ts, k.table) && EmptyingsAreTold(reg, gen, events, f, k, from, t)
    ensures SpokenAt(reg, gen, events, f, k, n, t)
  {
    hide Content, Since, Empties, OpenGrant, OwnDelete, At, Timeline, Sure, Flows, Asked, FeedLives, Run;
    var dbs := History(reg, gen, events);
    HistoryAt(reg, gen, events, n);
    HistoryAt(reg, gen, events, n + 1);
    HistoryAt(reg, gen, events, t);
    MomentSpeaks(reg, gen, events, f, ts, k, n);
    RunFlows(reg, gen, events, f, ts, user, from, t);
    if Since(dbs[n], dbs[n + 1], f, k) { SaidByThen(reg, dbs, f, ts, user, from, t, n, k); }
  }

  /** A device has the whole row, links and all, of every entity in sight whose links no delete emptied since its newest entry. */
  lemma DevicesHaveRows(
    reg: Registry, gen: Hlc.Gen, events: seq<Event>, f: Feed, ts: set<Table>, user: string, pulls: seq<Pulling>, from: nat, t: nat, k: Key)
    requires Timeline(reg, gen, events) && from <= t <= |events| && Steadily(reg, gen, events, f, ts, from, t)
    requires Scheduled(pulls, from, t) && InTime(pulls, |events| + 1)
    requires Pulled(reg, f, ts, k.table) && EmptyingsAreTold(reg, gen, events, f, k, from, t)
    requires Sight(reg, At(reg, gen, events, t).db.rows, f, user, k).Some?
    requires !Behind(LogOf(At(reg, gen, events, t).db, f), DeviceIn(reg, gen, events, f, user, pulls).cursor, k)
    ensures HasRow(DeviceIn(reg, gen, events, f, user, pulls), At(reg, gen, events, t).db.rows, k)
  {
    hide Timeline, Steadily, Flows, At, Content, Since, EmptyingsAreTold, Sight, Behind, Scheduled;
    RunFlows(reg, gen, events, f, ts, user, from, t);
    HistoryAt(reg, gen, events, t);
    forall n | from <= n < t
      ensures var dbs := History(reg, gen, events);
        Content(dbs[n].rows, f, k) != Content(dbs[n + 1].rows, f, k) ==> Since(dbs[n], dbs[t], f, k)
    {
      HistoryAt(reg, gen, events, n);
      HistoryAt(reg, gen, events, n + 1);
      SpokenBetween(reg, gen, events, f, ts, user, k, from, t, n);
    }
    DeviceHasRow(reg, History(reg, gen, events), f, ts, user, pulls, from, t, k);
  }
}
