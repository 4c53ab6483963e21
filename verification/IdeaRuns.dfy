// A run in which an idea's state is lost to an edit of its title
// (internal/sync/merge.go, groupClock; internal/store/pipeline.go, insertRow).
module IdeaRuns {
  import opened Values
  import opened Vocabulary
  import opened Merging
  import opened MergeLaws
  import opened Registry
  import opened Database
  import opened Stamping
  import opened Guards
  import opened Pipeline
  import opened System
  import opened Steps
  import opened Effects
  import opened Laws
  import opened Reachable
  import opened Timelines
  import opened Staging
  import opened Arrivals
  import opened IdeaStates
  import Catalog
  import Fittings
  import Hlc
  import opened Feeds
  import Witnesses

  /** What the run asks of a registry. */
  ghost predicate IdeasFit(reg: Registry) {
    && reg.side(Ideas) == OnTrip && reg.guard(Ideas) == Unguarded && reg.stamp(Ideas) == OnInsert(AuthorId)
    && {TripId, Title, State} <= reg.columns(Ideas) && PackedCount !in reg.columns(Ideas)
    && Get(reg.defaults(Ideas), State) == Text("idea")
    && forall c: Column {:trigger reg.link(Ideas, c)} ::
         (reg.link(Ideas, c).Some? ==> c.TripId?) && (c.TripId? ==> Links(reg, Ideas, c, Trips))
  }

  lemma IdeaKey(c: Column)
    ensures Catalog.LinkOf(Ideas, c) == if c.TripId? then Some(Link(Trips, Cascade, true)) else None
  {
  }

  lemma IdeasFitHolds()
    ensures IdeasFit(Catalog.Declaration())
  {
    hide Catalog.LinkOf;
    var reg := Catalog.Declaration();
    ColumnsAre(Ideas);
    forall c: Column ensures (reg.link(Ideas, c).Some? ==> c.TripId?) && (c.TripId? ==> Links(reg, Ideas, c, Trips)) {
      LinkIs(Ideas, c);
      IdeaKey(c);
    }
  }

  // -------------------------------------------------------------------- the pushes

  const IDEA := Key(Ideas, "d")

  function NewIdea(mutationId: string, n: int): Mutation {
    Mutation(mutationId, Insert, Ideas, "d", map[TripId := Text("t1"), Title := Text("a lake")], Time(n))
  }

  function Retitle(mutationId: string, n: int): Mutation {
    Mutation(mutationId, Upsert, Ideas, "d", map[Title := Text("a cold lake")], Time(n))
  }

  function Shortlist(mutationId: string, n: int): Mutation {
    Mutation(mutationId, Upsert, Ideas, "d", map[State := Text("shortlisted")], Time(n))
  }

  function Proposed(m: Mutation): Mutation {
    m.(fields := m.fields[AuthorId := Text(ANN)])
  }

  lemma NewIdeaPasses(reg: Registry, rows: Rows, w: Env, mutationId: string, n: int)
    requires IdeasFit(reg) && IDEA !in rows
    ensures var m := NewIdea(mutationId, n);
      Gate(reg, rows, On("t1"), w, m) == Pass(Proposed(m))
  {
    hide Links, Time;
    var m := NewIdea(mutationId, n);
    assert m.fields - {AuthorId} == m.fields;
  }

  lemma IdeaEditPasses(reg: Registry, rows: Rows, w: Env, m: Mutation)
    requires IdeasFit(reg) && KeyOf(m) == IDEA && m.op.Upsert? && AuthorId !in m.fields && TripId !in m.fields
    requires IDEA in rows && Cell(rows, IDEA, TripId) == Text("t1")
    ensures Gate(reg, rows, On("t1"), w, m) == Pass(m)
  {
    hide Links;
    assert m.fields - {AuthorId} == m.fields;
  }

  lemma IdeaNames(reg: Registry, rows: Rows, m: Mutation)
    requires IdeasFit(reg) && m.table.Ideas? && Key(Trips, "t1") in rows
    requires if TripId in m.fields then m.fields[TripId] == Text("t1") else KeyOf(m) in rows
    ensures LinksNamed(reg, rows, m)
  {
    forall c | reg.link(Ideas, c).Some? ensures LinkNamed(reg, rows, m, c) { }
  }

  // --------------------------------------------------------------------- the clocks

  /** An idea, its state set at this time. */
  predicate StatedAt(rows: Rows, k: Key, at: Clock) {
    k in rows && Uncounted(rows[k]) && ClockOf(rows[k], State) == at
  }

  lemma NewIdeaIsStated(reg: Registry, a: Rows, b: Rows, m: Mutation)
    requires IdeasFit(reg) && m.table.Ideas? && !m.op.Delete? && State !in m.fields && PackedCount !in m.fields
    requires KeyOf(m) !in a && Load(b, KeyOf(m)) == Some(RowAfter(reg, a, m)) && Holding(reg, a, b, m, State)
    ensures StatedAt(b, KeyOf(m), m.hlc)
  {
  }

  lemma EditedIdeaIsStated(reg: Registry, a: Rows, b: Rows, m: Mutation, at: Clock)
    requires StatedAt(a, KeyOf(m), at) && !m.op.Delete? && State !in m.fields && PackedCount !in m.fields
    requires Load(b, KeyOf(m)) == Some(RowAfter(reg, a, m)) && Holding(reg, a, b, m, State)
    ensures StatedAt(b, KeyOf(m), at)
  {
    hide Wins, Lost;
  }

  // ------------------------------------------------------------------------ the run

  /** A new idea, and an edit of its title two ticks later. */
  ghost function RetitledIdea(): seq<Event> {
    TwoTrips() + [Pushed("t1", NewIdea("3", 3))] + [Pushed("t1", Retitle("4", 5))]
  }

  ghost predicate HasIdea(reg: Registry, gen: Hlc.Gen, events: seq<Event>, s: Sys, memo: set<string>, n: int) {
    && Staged(reg, gen, events, s) && s.db.rows.Keys == TWO_TRIPS + {IDEA} && s.db.memo.Keys == memo
    && Dated(s.db.rows, IDEA, Time(n)) && Cell(s.db.rows, IDEA, TripId) == Text("t1") && StatedAt(s.db.rows, IDEA, Time(3))
    && Cell(s.db.rows, IDEA, State) == Text("idea")
  }

  ghost predicate Fits(reg: Registry) {
    Lawful(reg) && TripsFit(reg) && IdeasFit(reg)
  }

  lemma IdeaComes(reg: Registry, gen: Hlc.Gen) returns (s: Sys)
    requires Fits(reg) && Witnesses.Starts(gen)
    ensures HasIdea(reg, gen, TwoTrips() + [Pushed("t1", NewIdea("3", 3))], s, {"1", "2", "3"}, 3)
  {
    hide Staged, Next, TwoTrips, Time, Server, Lawful, TripsFit, IdeasFit, Gate, RowAfter, LinksNamed, Well, StatedAt;
    var m := NewIdea("3", 3);
    var before := TwoTripsArrive(reg, gen);
    IdeaIsValid(reg, m);
    IsWell(reg, gen, TwoTrips(), before, "t1", m, 3);
    NewIdeaPasses(reg, before.db.rows, Server("spare"), "3", 3);
    IdeaNames(reg, before.db.rows, Proposed(m));
    Arrives(reg, gen, TwoTrips(), before, On("t1"), Server("spare"), m, Proposed(m));
    s := Next(reg, before, Pushed("t1", m));
    NewIdeaIsStated(reg, before.db.rows, s.db.rows, Proposed(m));
    assert Holding(reg, before.db.rows, s.db.rows, Proposed(m), TripId) && Holding(reg, before.db.rows, s.db.rows, Proposed(m), State);
    DefaultState(reg);
  }

  lemma DefaultState(reg: Registry)
    requires IdeasFit(reg)
    ensures Get(reg.defaults(Ideas), State) == Text("idea")
  {
  }

  lemma IdeaIsValid(reg: Registry, m: Mutation)
    requires IdeasFit(reg) && m.table.Ideas? && m.fields.Keys <= {TripId, Title, State}
    ensures Valid(reg, m, On("t1"))
  {
  }

  lemma IdeaIsRetitled(reg: Registry, gen: Hlc.Gen) returns (s: Sys)
    requires Fits(reg) && Witnesses.Starts(gen)
    ensures HasIdea(reg, gen, RetitledIdea(), s, {"1", "2", "3", "4"}, 5)
  {
    hide Staged, Next, TwoTrips, Time, Server, Lawful, TripsFit, IdeasFit, Gate, RowAfter, LinksNamed, Well, StatedAt;
    var m, events := Retitle("4", 5), TwoTrips() + [Pushed("t1", NewIdea("3", 3))];
    var before := IdeaComes(reg, gen);
    Witnesses.TimePasses(3, 5);
    IdeaIsValid(reg, m);
    IsWell(reg, gen, events, before, "t1", m, 5);
    IdeaEditPasses(reg, before.db.rows, Server("spare"), m);
    IdeaNames(reg, before.db.rows, m);
    assert Title in m.fields;
    Edits(reg, gen, events, before, On("t1"), Server("spare"), m, m);
    s := Next(reg, before, Pushed("t1", m));
    EditedIdeaIsStated(reg, before.db.rows, s.db.rows, m, Time(3));
    assert Holding(reg, before.db.rows, s.db.rows, m, TripId) && Holding(reg, before.db.rows, s.db.rows, m, State);
  }

  /** A run whose last push sets a state newer than the one that stands, and changes no row. */
  ghost predicate Overlooks(reg: Registry, gen: Hlc.Gen, events: seq<Event>, trip: string, m: Mutation) {
    var a := Run(reg, Start(gen), events).db.rows;
    && Timeline(reg, gen, events + [Pushed(trip, m)])
    && Run(reg, Start(gen), events + [Pushed(trip, m)]).db.rows == a
    && State in m.fields && StatesAnew(a, m)
  }

  predicate StatesAnew(rows: Rows, m: Mutation) {
    KeyOf(m) in rows && Outdated(rows[KeyOf(m)], m) && Get(m.fields, State) != Cell(rows, KeyOf(m), State)
  }

  lemma NothingIsCarried(reg: Registry, db: Db, w: Env, p: Partition, m: Mutation, merged: MergeResult)
    requires Sane(reg, db) && !Changes(db.rows, m, merged)
    ensures Carry(reg, db, w, p, m, merged, false).0.rows == db.rows
  {
    hide SchemaOk, Changes;
    NotedShape(db, db.conflicts, db.rows, p.feed, []);
  }

  /** A push of which nothing wins changes no row. */
  lemma NothingLands(reg: Registry, s: Sys, p: Partition, w: Env, sent: Mutation, m: Mutation)
    requires Sane(reg, s.db) && Well(reg, s, p, w, sent) && !sent.op.Delete? && Gate(reg, s.db.rows, p, w, sent) == Pass(m)
    requires KeyOf(m) in s.db.rows && Resolve(Load(s.db.rows, KeyOf(m)), m).applied == map[]
    ensures var b := Next(reg, s, Event.Push(p, sent, w));
      b.db.rows == s.db.rows && b.gen == s.gen
  {
    hide Sane, Carry, Resolve, Scope, StampOwned, Blocked, Fair;
    GatedAsSent(reg, s.db.rows, p, w, sent, m);
    UpsertNeverDeletes(Load(s.db.rows, KeyOf(m)), m);
    NothingIsCarried(reg, s.db, w, p, m, Resolve(Load(s.db.rows, KeyOf(m)), m));
  }

  lemma NothingWins(row: Row, m: Mutation)
    requires Bounded(row) && Uncounted(row) && Uncounting(m) && m.fields.Keys == {State} && m.hlc <= row.hlc
    ensures Resolve(Some(row), m).applied == map[]
  {
    RowDecides(row, m);
    forall f ensures f !in Resolve(Some(row), m).applied { AppliedExactly(row, m, f); }
    EmptyOrNot(Resolve(Some(row), m).applied);
  }

  lemma StateIsOverlookedFor(reg: Registry, gen: Hlc.Gen)
    requires Fits(reg) && Witnesses.Starts(gen)
    ensures Overlooks(reg, gen, RetitledIdea(), "t1", Shortlist("5", 4))
  {
    hide Staged, Next, RetitledIdea, Time, Server, Lawful, TripsFit, IdeasFit, Gate, Well, Timeline, Run, Resolve, Uncounted, Kept, Ordered;
    var m := Shortlist("5", 4);
    var s := IdeaIsRetitled(reg, gen);
    Witnesses.TimePasses(3, 4);
    Witnesses.TimePasses(4, 5);
    IdeaIsValid(reg, m);
    IsWell(reg, gen, RetitledIdea(), s, "t1", m, 4);
    IdeaEditPasses(reg, s.db.rows, Server("spare"), m);
    StageIsKept(reg, gen, RetitledIdea(), s);
    NothingWins(s.db.rows[IDEA], m);
    NothingLands(reg, s, On("t1"), Server("spare"), m, m);
    AndThen(reg, gen, RetitledIdea(), s, "t1", m);
  }

  /** A push that may be made is the run's next event. */
  lemma AndThen(reg: Registry, gen: Hlc.Gen, events: seq<Event>, s: Sys, trip: string, m: Mutation)
    requires Staged(reg, gen, events, s) && Well(reg, s, On(trip), Server("spare"), m)
    requires Next(reg, s, Pushed(trip, m)).gen == s.gen
    ensures Timeline(reg, gen, events + [Pushed(trip, m)]) && s == Run(reg, Start(gen), events)
    ensures Run(reg, Start(gen), events + [Pushed(trip, m)]) == Next(reg, s, Pushed(trip, m))
  {
    hide Kept, Ordered, Lawful, Runs, Run, Next, AllLive, Well, Server, SchemaOk;
    StageIsKept(reg, gen, events, s);
    PushIsAdmissible(reg, s, On(trip), Server("spare"), m);
    OneMore(reg, gen, events, Pushed(trip, m));
  }

  /** Of the declared server: an idea shortlisted offline is not, when its title was edited since. */
  lemma StateIsOverlooked(gen: Hlc.Gen)
    requires Witnesses.Starts(gen)
    ensures Overlooks(Catalog.Declaration(), gen, RetitledIdea(), "t1", Shortlist("5", 4))
  {
    hide Catalog.Declaration, Overlooks, Lawful, TripsFit, IdeasFit, RetitledIdea;
    DeclarationIsLawful();
    Fittings.TripsFitHolds();
    IdeasFitHolds();
    StateIsOverlookedFor(Catalog.Declaration(), gen);
  }
}
