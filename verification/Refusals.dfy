// A run in which a refused delete breaks a log: the traveler is still needed,
// so the delete re-delivers what hangs off them, and that is in another trip
// (internal/store/pipeline.go, relogCascadeChildren; the excursion_travelers
// table has no rule of its own).
module Refusals {
  import opened Values
  import opened Vocabulary
  import opened Merging
  import opened Registry
  import opened Database
  import opened Stamping
  import opened Guards
  import opened Pipeline
  import opened System
  import opened Cascading
  import opened Feeds
  import opened Laws
  import opened Timelines
  import opened Staging
  import opened Arrivals
  import opened Witnesses
  import Catalog
  import Fittings
  import Hlc

  // -------------------------------------------------------------------- the pushes

  function NewTraveler(trip: string, id: string, mutationId: string, n: int): Mutation {
    Mutation(mutationId, Insert, Travelers, id, map[TripId := Text(trip), Name := Text("a traveler")], Time(n))
  }

  function NewExcursion(trip: string, id: string, mutationId: string, n: int): Mutation {
    Mutation(mutationId, Insert, Excursions, id, map[TripId := Text(trip), Name := Text("an excursion")], Time(n))
  }

  function Join(trip: string, id: string, excursion: string, traveler: string, mutationId: string, n: int): Mutation {
    Mutation(mutationId, Insert, ExcursionTravelers, id,
      map[TripId := Text(trip), ExcursionId := Text(excursion), TravelerId := Text(traveler)], Time(n))
  }

  /** A container the traveler carries. */
  function NewContainer(trip: string, id: string, carrier: string, mutationId: string, n: int): Mutation {
    Mutation(mutationId, Insert, Containers, id,
      map[TripId := Text(trip), Name := Text("a bag"), CarrierTravelerId := Text(carrier)], Time(n))
  }

  // -------------------------------------------------------- what the registry says

  /** A table without stamp or defaults, whose rows a push may name by their trip. */
  predicate Bare(reg: Registry, t: Table) {
    reg.side(t) == OnTrip && reg.stamp(t) == NoStamp && reg.defaults(t) == map[] && Said(t) <= reg.columns(t)
  }

  /** What the pushes say of each table. */
  function Said(t: Table): set<Column> {
    if t.ExcursionTravelers? then {TripId, ExcursionId, TravelerId}
    else if t.Containers? then {TripId, Name, CarrierTravelerId} else {TripId, Name}
  }

  ghost predicate TravelersFit(reg: Registry) {
    && Bare(reg, Travelers) && reg.guard(Travelers) == TravelerLink
    && Reference(Containers, CarrierTravelerId) in reg.blockers(Travelers)
    && Catalog.By(ExcursionTravelers, TravelerId) in reg.children(Travelers)
    && forall c: Column {:trigger reg.link(Travelers, c)} ::
         (reg.link(Travelers, c).Some? ==> c.TripId?) && Links(reg, Travelers, c, Trips)
  }

  ghost predicate ExcursionsFit(reg: Registry) {
    && Bare(reg, Excursions) && reg.guard(Excursions) == IdeaResult
    && forall c: Column {:trigger reg.link(Excursions, c)} ::
         && (!c.TripId? ==> Loose(reg, Excursions, c)) && (c.Name? ==> reg.link(Excursions, c).None?)
         && (c.TripId? ==> Links(reg, Excursions, c, Trips))
  }

  ghost predicate JoinsFit(reg: Registry) {
    && Bare(reg, ExcursionTravelers) && reg.guard(ExcursionTravelers) == Unguarded
    && forall c: Column {:trigger reg.link(ExcursionTravelers, c)} ::
         && (reg.link(ExcursionTravelers, c).Some? ==> c.TripId? || c.ExcursionId? || c.TravelerId?)
         && (c.TripId? ==> Links(reg, ExcursionTravelers, c, Trips)) && (c.ExcursionId? ==> Links(reg, ExcursionTravelers, c, Excursions))
         && (c.TravelerId? ==> Links(reg, ExcursionTravelers, c, Travelers))
  }

  ghost predicate ContainersFit(reg: Registry) {
    && Bare(reg, Containers) && reg.guard(Containers) == Unguarded
    && forall c: Column {:trigger reg.link(Containers, c)} ::
         && (!c.TripId? ==> Loose(reg, Containers, c)) && (c.Name? ==> reg.link(Containers, c).None?)
         && (c.TripId? ==> Links(reg, Containers, c, Trips)) && (c.CarrierTravelerId? ==> Links(reg, Containers, c, Travelers))
  }

  /** What the run asks of a registry. */
  ghost predicate Refuses(reg: Registry) {
    Lawful(reg) && TripsFit(reg) && TravelersFit(reg) && ExcursionsFit(reg) && JoinsFit(reg) && ContainersFit(reg)
  }

  // ----------------------------------------------------------------- the declaration

  lemma TravelerKey(c: Column)
    ensures Catalog.LinkOf(Travelers, c) == if c.TripId? then Some(Link(Trips, Cascade, true)) else None
  {
  }

  lemma ExcursionKey(c: Column)
    ensures Catalog.LinkOf(Excursions, c).Some? ==> c.TripId? || c.IdeaId?
    ensures c.TripId? ==> Catalog.LinkOf(Excursions, c) == Some(Link(Trips, Cascade, true))
    ensures c.IdeaId? ==> Catalog.LinkOf(Excursions, c) == Some(Link(Ideas, SetNull, false))
  {
  }

  lemma JoinKey(c: Column)
    ensures Catalog.LinkOf(ExcursionTravelers, c) ==
      if c.TripId? then Some(Link(Trips, Cascade, true)) else if c.ExcursionId? then Some(Link(Excursions, Cascade, true))
      else if c.TravelerId? then Some(Link(Travelers, Cascade, true)) else None
  {
  }

  lemma ContainerKey(c: Column)
    ensures Catalog.LinkOf(Containers, c) ==
      if c.TripId? then Some(Link(Trips, Cascade, true)) else if c.CarrierTravelerId? then Some(Link(Travelers, Restrict, false))
      else if c.PairedContainerId? then Some(Link(Containers, Restrict, false)) else None
  {
  }

  lemma BareTables(t: Table)
    requires t.Travelers? || t.Excursions? || t.ExcursionTravelers? || t.Containers?
    ensures Bare(Catalog.Declaration(), t)
  {
    ColumnsAre(t);
  }

  lemma TravelersFitHolds()
    ensures TravelersFit(Catalog.Declaration())
  {
    hide Catalog.LinkOf, Bare;
    var reg := Catalog.Declaration();
    BareTables(Travelers);
    assert Catalog.By(ExcursionTravelers, TravelerId) == Catalog.ChildrenOf(Travelers)[0];
    forall c: Column ensures (reg.link(Travelers, c).Some? ==> c.TripId?) && Links(reg, Travelers, c, Trips) {
      LinkIs(Travelers, c);
      TravelerKey(c);
    }
  }

  lemma ExcursionsFitHolds()
    ensures ExcursionsFit(Catalog.Declaration())
  {
    hide Catalog.LinkOf, Catalog.ColumnsOf;
    var reg := Catalog.Declaration();
    BareTables(Excursions);
    forall c: Column
      ensures && (!c.TripId? ==> Loose(reg, Excursions, c)) && (c.Name? ==> reg.link(Excursions, c).None?)
        && (c.TripId? ==> Links(reg, Excursions, c, Trips))
    {
      LinkIs(Excursions, c);
      ExcursionKey(c);
    }
  }

  lemma JoinsFitHolds()
    ensures JoinsFit(Catalog.Declaration())
  {
    hide Catalog.LinkOf, Catalog.ColumnsOf, Bare;
    var reg := Catalog.Declaration();
    BareTables(ExcursionTravelers);
    forall c: Column
      ensures && (reg.link(ExcursionTravelers, c).Some? ==> c.TripId? || c.ExcursionId? || c.TravelerId?)
        && (c.TripId? ==> Links(reg, ExcursionTravelers, c, Trips)) && (c.ExcursionId? ==> Links(reg, ExcursionTravelers, c, Excursions))
        && (c.TravelerId? ==> Links(reg, ExcursionTravelers, c, Travelers))
    {
      LinkIs(ExcursionTravelers, c);
      JoinKey(c);
    }
  }

  lemma ContainersFitHolds()
    ensures ContainersFit(Catalog.Declaration())
  {
    hide Catalog.LinkOf, Catalog.ColumnsOf;
    var reg := Catalog.Declaration();
    BareTables(Containers);
    forall c: Column
      ensures && (!c.TripId? ==> Loose(reg, Containers, c)) && (c.Name? ==> reg.link(Containers, c).None?)
        && (c.TripId? ==> Links(reg, Containers, c, Trips)) && (c.CarrierTravelerId? ==> Links(reg, Containers, c, Travelers))
    {
      LinkIs(Containers, c);
      ContainerKey(c);
    }
  }

  lemma DeclarationRefuses()
    ensures Refuses(Catalog.Declaration())
  {
    hide Catalog.Declaration, Lawful, TripsFit, TravelersFit, ExcursionsFit, JoinsFit, ContainersFit;
    DeclarationIsLawful();
    Fittings.TripsFitHolds();
    TravelersFitHolds();
    ExcursionsFitHolds();
    JoinsFitHolds();
    ContainersFitHolds();
  }

  // ----------------------------------------------------------------- the arrivals

  /** An unstamped row whose gate lets it through as it is arrives, when what it names is there. */
  lemma PlainArrives(reg: Registry, gen: Hlc.Gen, events: seq<Event>, s: Sys, trip: string, m: Mutation, n: int, values: Fields)
    requires Before(reg, gen, events, s, trip, m.mutationId, n) && KeyOf(m) !in s.db.rows && m.hlc == Time(n) && m.op.Insert?
    requires Bare(reg, m.table) && m.fields.Keys == Said(m.table) && !m.table.TripItems? && !m.table.Templates? && !m.table.TripMembers?
    requires Gate(reg, s.db.rows, On(trip), Server("spare"), m) == Pass(m) && LinksNamed(reg, s.db.rows, m) && Gives(reg, m, values)
    ensures After(reg, gen, events, s, trip, m, values)
  {
    hide Time, Server, Staged, After, LinksNamed, Gate, Well, Gives;
    assert Valid(reg, m, On(trip));
    IsWell(reg, gen, events, s, trip, m, n);
    ArrivesAs(reg, gen, events, s, trip, m, m, values);
  }

  /** Without a stamp the mutation is judged as sent. */
  lemma Unstamped(m: Mutation, known: bool, w: Env)
    ensures StampOwned(NoStamp, m, known, ANN, w) == m
  {
    assert m.fields - {} == m.fields;
  }

  /** A traveler linked to no user passes. */
  lemma TravelerArrives(reg: Registry, gen: Hlc.Gen, events: seq<Event>, s: Sys, trip: string, id: string, mutationId: string, n: int)
    requires TravelersFit(reg) && Before(reg, gen, events, s, trip, mutationId, n) && Key(Travelers, id) !in s.db.rows
    ensures After(reg, gen, events, s, trip, NewTraveler(trip, id, mutationId, n), map[TripId := Text(trip), LinkedUserId := Null])
  {
    hide Time, Server, Staged, After, StampOwned, LinksNamed;
    var m := NewTraveler(trip, id, mutationId, n);
    Unstamped(m, false, Server("spare"));
    TravelerNames(reg, s.db.rows, m, trip);
    PlainArrives(reg, gen, events, s, trip, m, n, map[TripId := Text(trip), LinkedUserId := Null]);
  }

  lemma TravelerNames(reg: Registry, rows: Rows, m: Mutation, trip: string)
    requires TravelersFit(reg) && m.table.Travelers? && Names(m, TripId) == Some(trip) && Key(Trips, trip) in rows
    ensures LinksNamed(reg, rows, m)
  {
    forall c | reg.link(Travelers, c).Some? ensures LinkNamed(reg, rows, m, c) { }
  }

  lemma ExcursionArrives(reg: Registry, gen: Hlc.Gen, events: seq<Event>, s: Sys, trip: string, id: string, mutationId: string, n: int)
    requires ExcursionsFit(reg) && Before(reg, gen, events, s, trip, mutationId, n) && Key(Excursions, id) !in s.db.rows
    ensures After(reg, gen, events, s, trip, NewExcursion(trip, id, mutationId, n), map[TripId := Text(trip)])
  {
    hide Time, Server, Staged, After, StampOwned, LinksNamed;
    var m := NewExcursion(trip, id, mutationId, n);
    Unstamped(m, false, Server("spare"));
    ExcursionNames(reg, s.db.rows, m, trip);
    PlainArrives(reg, gen, events, s, trip, m, n, map[TripId := Text(trip)]);
  }

  lemma ExcursionNames(reg: Registry, rows: Rows, m: Mutation, trip: string)
    requires ExcursionsFit(reg) && m.table.Excursions? && m.fields.Keys == {TripId, Name}
    requires Names(m, TripId) == Some(trip) && Key(Trips, trip) in rows
    ensures LinksNamed(reg, rows, m)
  {
    forall c | reg.link(Excursions, c).Some? ensures LinkNamed(reg, rows, m, c) { }
  }

  /** A participant passes whatever excursion and traveler they name. */
  lemma JoinArrives(
    reg: Registry, gen: Hlc.Gen, events: seq<Event>, s: Sys, trip: string, id: string, excursion: string, traveler: string,
    mutationId: string, n: int)
    requires JoinsFit(reg) && Before(reg, gen, events, s, trip, mutationId, n) && Key(ExcursionTravelers, id) !in s.db.rows
    requires Key(Excursions, excursion) in s.db.rows && Key(Travelers, traveler) in s.db.rows
    ensures After(reg, gen, events, s, trip, Join(trip, id, excursion, traveler, mutationId, n),
      map[TripId := Text(trip), TravelerId := Text(traveler)])
  {
    hide Time, Server, Staged, After, StampOwned, LinksNamed;
    var m := Join(trip, id, excursion, traveler, mutationId, n);
    Unstamped(m, false, Server("spare"));
    JoinNames(reg, s.db.rows, m, trip, excursion, traveler);
    PlainArrives(reg, gen, events, s, trip, m, n, map[TripId := Text(trip), TravelerId := Text(traveler)]);
  }

  lemma JoinNames(reg: Registry, rows: Rows, m: Mutation, trip: string, excursion: string, traveler: string)
    requires JoinsFit(reg) && m.table.ExcursionTravelers?
    requires m.fields == map[TripId := Text(trip), ExcursionId := Text(excursion), TravelerId := Text(traveler)]
    requires Key(Trips, trip) in rows && Key(Excursions, excursion) in rows && Key(Travelers, traveler) in rows
    ensures LinksNamed(reg, rows, m)
  {
    forall c | reg.link(ExcursionTravelers, c).Some? ensures LinkNamed(reg, rows, m, c) { }
  }

  lemma ContainerArrives(
    reg: Registry, gen: Hlc.Gen, events: seq<Event>, s: Sys, trip: string, id: string, carrier: string, mutationId: string, n: int)
    requires ContainersFit(reg) && Before(reg, gen, events, s, trip, mutationId, n) && Key(Containers, id) !in s.db.rows
    requires Key(Travelers, carrier) in s.db.rows
    ensures After(reg, gen, events, s, trip, NewContainer(trip, id, carrier, mutationId, n), map[CarrierTravelerId := Text(carrier)])
  {
    hide Time, Server, Staged, After, StampOwned, LinksNamed;
    var m := NewContainer(trip, id, carrier, mutationId, n);
    Unstamped(m, false, Server("spare"));
    ContainerNames(reg, s.db.rows, m, trip, carrier);
    PlainArrives(reg, gen, events, s, trip, m, n, map[CarrierTravelerId := Text(carrier)]);
  }

  lemma ContainerNames(reg: Registry, rows: Rows, m: Mutation, trip: string, carrier: string)
    requires ContainersFit(reg) && m.table.Containers?
    requires m.fields == map[TripId := Text(trip), Name := Text("a bag"), CarrierTravelerId := Text(carrier)]
    requires Key(Trips, trip) in rows && Key(Travelers, carrier) in rows
    ensures LinksNamed(reg, rows, m)
  {
    forall c | reg.link(Containers, c).Some? ensures LinkNamed(reg, rows, m, c) { }
  }

  // ---------------------------------------------------------------------- the run

  ghost function OneTraveler(): seq<Event> {
    TwoTrips() + [Pushed("t1", NewTraveler("t1", "v", "3", 3))]
  }

  /** A traveler of the first trip, linked to nobody. */
  ghost predicate Knows(rows: Rows) {
    && Dated(rows, Key(Travelers, "v"), Time(3)) && Cell(rows, Key(Travelers, "v"), TripId) == Text("t1")
    && Cell(rows, Key(Travelers, "v"), LinkedUserId) == Null
  }

  ghost predicate HasTraveler(reg: Registry, gen: Hlc.Gen, s: Sys) {
    && Staged(reg, gen, OneTraveler(), s) && s.db.rows.Keys == TWO_TRIPS + {Key(Travelers, "v")} && s.db.memo.Keys == {"1", "2", "3"}
    && Knows(s.db.rows)
  }

  lemma TravelerComes(reg: Registry, gen: Hlc.Gen) returns (s: Sys)
    requires Refuses(reg) && Starts(gen)
    ensures HasTraveler(reg, gen, s)
  {
    hide Staged, Next, TwoTrips, Pushed, Time, Lawful, TripsFit, TravelersFit, ExcursionsFit, JoinsFit, ContainersFit;
    var before := TwoTripsArrive(reg, gen);
    TravelerArrives(reg, gen, TwoTrips(), before, "t1", "v", "3", 3);
    s := Next(reg, before, Pushed("t1", NewTraveler("t1", "v", "3", 3)));
    var values := map[TripId := Text("t1"), LinkedUserId := Null];
    assert TripId in values && LinkedUserId in values;
  }

  /** The traveler stays as they were. */
  lemma StillKnows(a: Sys, b: Sys, some: set<Key>, mutationId: string)
    requires Joins(a, b, some, mutationId) && Knows(a.db.rows)
    ensures Knows(b.db.rows)
  {
    StaysAsIs(a, b, some, mutationId, Key(Travelers, "v"));
  }

  ghost function TravelerAndExcursion(): seq<Event> {
    OneTraveler() + [Pushed("t2", NewExcursion("t2", "x", "4", 4))]
  }

  ghost predicate HasExcursion(reg: Registry, gen: Hlc.Gen, s: Sys) {
    && Staged(reg, gen, TravelerAndExcursion(), s) && Knows(s.db.rows)
    && s.db.rows.Keys == TWO_TRIPS + {Key(Travelers, "v"), Key(Excursions, "x")} && s.db.memo.Keys == {"1", "2", "3", "4"}
  }

  lemma ExcursionComes(reg: Registry, gen: Hlc.Gen) returns (s: Sys)
    requires Refuses(reg) && Starts(gen)
    ensures HasExcursion(reg, gen, s)
  {
    hide Staged, Next, OneTraveler, Pushed, Time, Lawful, TripsFit, TravelersFit, ExcursionsFit, JoinsFit, ContainersFit, Knows;
    var m := NewExcursion("t2", "x", "4", 4);
    var before := TravelerComes(reg, gen);
    ExcursionArrives(reg, gen, OneTraveler(), before, "t2", "x", "4", 4);
    s := Next(reg, before, Pushed("t2", m));
    StillKnows(before, s, {KeyOf(m)}, "4");
  }

  ghost function Participant(): seq<Event> {
    TravelerAndExcursion() + [Pushed("t2", Join("t2", "j", "x", "v", "5", 5))]
  }

  /** The traveler takes part in an excursion of the second trip. */
  ghost predicate TakesPart(rows: Rows) {
    Cell(rows, Key(ExcursionTravelers, "j"), TripId) == Text("t2") && Cell(rows, Key(ExcursionTravelers, "j"), TravelerId) == Text("v")
  }

  ghost predicate HasParticipant(reg: Registry, gen: Hlc.Gen, s: Sys) {
    && Staged(reg, gen, Participant(), s) && Knows(s.db.rows) && TakesPart(s.db.rows)
    && s.db.rows.Keys == TWO_TRIPS + {Key(Travelers, "v"), Key(Excursions, "x"), Key(ExcursionTravelers, "j")}
    && s.db.memo.Keys == {"1", "2", "3", "4", "5"}
  }

  lemma ParticipantComes(reg: Registry, gen: Hlc.Gen) returns (s: Sys)
    requires Refuses(reg) && Starts(gen)
    ensures HasParticipant(reg, gen, s)
  {
    hide Staged, Next, TravelerAndExcursion, Pushed, Time, Lawful, TripsFit, TravelersFit, ExcursionsFit, JoinsFit, ContainersFit, Knows;
    var m := Join("t2", "j", "x", "v", "5", 5);
    var before := ExcursionComes(reg, gen);
    JoinArrives(reg, gen, TravelerAndExcursion(), before, "t2", "j", "x", "v", "5", 5);
    s := Next(reg, before, Pushed("t2", m));
    StillKnows(before, s, {KeyOf(m)}, "5");
    var values := map[TripId := Text("t2"), TravelerId := Text("v")];
    assert TripId in values && TravelerId in values;
  }

  /** The traveler of the first trip joins an excursion of the second, and carries a bag. */
  ghost function ForeignParticipant(): seq<Event> {
    Participant() + [Pushed("t1", NewContainer("t1", "b", "v", "6", 6))]
  }

  ghost predicate HasBag(reg: Registry, gen: Hlc.Gen, s: Sys) {
    && Staged(reg, gen, ForeignParticipant(), s) && Knows(s.db.rows) && TakesPart(s.db.rows)
    && s.db.rows.Keys ==
         TWO_TRIPS + {Key(Travelers, "v"), Key(Excursions, "x"), Key(ExcursionTravelers, "j"), Key(Containers, "b")}
    && s.db.memo.Keys == {"1", "2", "3", "4", "5", "6"} && Cell(s.db.rows, Key(Containers, "b"), CarrierTravelerId) == Text("v")
  }

  lemma BagComes(reg: Registry, gen: Hlc.Gen) returns (s: Sys)
    requires Refuses(reg) && Starts(gen)
    ensures HasBag(reg, gen, s)
  {
    hide Staged, Next, Participant, Pushed, Time, Lawful, TripsFit, TravelersFit, ExcursionsFit, JoinsFit, ContainersFit, Knows;
    var m := NewContainer("t1", "b", "v", "6", 6);
    var before := ParticipantComes(reg, gen);
    ContainerArrives(reg, gen, Participant(), before, "t1", "b", "v", "6", 6);
    s := Next(reg, before, Pushed("t1", m));
    StillKnows(before, s, {KeyOf(m)}, "6");
    StaysAsIs(before, s, {KeyOf(m)}, "6", Key(ExcursionTravelers, "j"));
    assert CarrierTravelerId in map[CarrierTravelerId := Text("v")];
  }

  lemma TravelerQueried(reg: Registry, rows: Rows, traveler: Key, k: Key)
    requires TravelersFit(reg) && traveler.table.Travelers? && k in rows && k.table.ExcursionTravelers?
    requires Cell(rows, k, TravelerId) == Text(traveler.id)
    ensures k in Named(reg, rows, traveler)
  {
    InNamed(reg, rows, traveler, Catalog.By(ExcursionTravelers, TravelerId), k);
  }

  lemma TravelerIsBlocked(reg: Registry, rows: Rows, traveler: Key, bag: Key)
    requires TravelersFit(reg) && traveler.table.Travelers? && bag in rows && bag.table.Containers?
    requires Cell(rows, bag, CarrierTravelerId) == Text(traveler.id)
    ensures Blocked(reg, rows, traveler)
  {
    assert Referenced(rows, Reference(Containers, CarrierTravelerId), traveler.id, None);
  }

  lemma StrikePasses(reg: Registry, rows: Rows, w: Env, m: Mutation)
    requires TravelersFit(reg) && m == Strike(Travelers, "v", "7", 7) && Knows(rows)
    ensures Gate(reg, rows, On("t1"), w, m) == Pass(m)
  {
    hide StampOwned, Time, Bare;
    BareIsUnstamped(reg);
    Unstamped(m, true, w);
  }

  lemma BareIsUnstamped(reg: Registry)
    requires Bare(reg, Travelers)
    ensures reg.stamp(Travelers) == NoStamp && reg.side(Travelers) == OnTrip
  {
  }

  /** A run that ends with a row of another trip reported as alive. */
  ghost predicate Revives(reg: Registry, gen: Hlc.Gen, events: seq<Event>, trip: string, other: string, k: Key) {
    var db := Run(reg, Start(gen), events).db;
    Timeline(reg, gen, events) && Key(Trips, trip) in db.rows && trip != other && Cell(db.rows, k, TripId) == Text(other) &&
    !FaithfulAt(db, TripFeed(trip), k)
  }

  lemma RefusalRevivesFor(reg: Registry, gen: Hlc.Gen)
    requires Refuses(reg) && Starts(gen)
    ensures Revives(
      reg, gen, ForeignParticipant() + [Pushed("t1", Strike(Travelers, "v", "7", 7))], "t1", "t2", Key(ExcursionTravelers, "j"))
  {
    hide Staged, ForeignParticipant, Timeline, Run, FaithfulAt, Named, Blocked, Time, Next, Lawful, TripsFit, ExcursionsFit, JoinsFit,
      ContainersFit, Gate, Well, Server, Bare;
    var v, j, m := Key(Travelers, "v"), Key(ExcursionTravelers, "j"), Strike(Travelers, "v", "7", 7);
    var s := BagComes(reg, gen);
    TimePasses(3, 7);
    BareIsUnstamped(reg);
    IsWell(reg, gen, ForeignParticipant(), s, "t1", m, 7);
    StrikePasses(reg, s.db.rows, Server("spare"), m);
    TravelerQueried(reg, s.db.rows, v, j);
    TravelerIsBlocked(reg, s.db.rows, v, Key(Containers, "b"));
    RefusalRevives(reg, gen, ForeignParticipant(), s, On("t1"), Server("spare"), m, m, j);
  }

  /** Of the declared server: the first trip's devices are told of a participant of the second. */
  lemma RefusalRevivesForeign(gen: Hlc.Gen)
    requires Starts(gen)
    ensures Revives(
      Catalog.Declaration(), gen, ForeignParticipant() + [Pushed("t1", Strike(Travelers, "v", "7", 7))], "t1", "t2",
      Key(ExcursionTravelers, "j"))
  {
    hide Catalog.Declaration, Refuses, Revives, ForeignParticipant;
    DeclarationRefuses();
    RefusalRevivesFor(Catalog.Declaration(), gen);
  }
}
