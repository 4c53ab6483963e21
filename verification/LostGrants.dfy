// A run after which a member is told nothing of the trip: an edit of a
// membership that names another trip, and loses that field but wins the user
// (internal/store/master.go, masterAfterChange and memberTrip).
module LostGrants {
  import opened Values
  import opened Vocabulary
  import opened Merging
  import opened Registry
  import opened Database
  import opened Guards
  import opened Pipeline
  import opened System
  import opened Effects
  import opened Feeds
  import opened Clocks
  import opened Restoring
  import opened Convergence
  import opened Laws
  import opened Reachable
  import opened Timelines
  import opened Staging
  import opened Arrivals
  import opened Witnesses
  import Catalog
  import Fittings
  import Hlc

  const M: Key := Key(TripMembers, "m")

  /** What the run asks of a registry. */
  ghost predicate Grants(reg: Registry) {
    Lawful(reg) && TripsFit(reg) && MembersFit(reg) && reg.visible(Trips) == OfTrip
  }

  lemma DeclarationGrants()
    ensures Grants(Catalog.Declaration())
  {
    hide Lawful, TripsFit, MembersFit;
    DeclarationIsLawful();
    Fittings.TripsFitHolds();
    Fittings.MembersFitHolds();
  }

  /** Bob joins the first trip. */
  function Joining(): Mutation {
    Member(Insert, "m", map[TripId := Text("t1"), UserId := Text("bob")], "3", 3)
  }

  /** A later edit names his trip again. */
  function Naming(): Mutation {
    Member(Upsert, "m", map[TripId := Text("t1")], "4", 5)
  }

  /** And one made before it, arriving after, makes the row Cat's membership of the second trip. */
  function Giving(): Mutation {
    Member(Upsert, "m", map[TripId := Text("t2"), UserId := Text("cat")], "5", 4)
  }

  /** The rows of the run: two trips, their owners, and one more membership. */
  predicate Roster(rows: Rows, user: string) {
    && rows.Keys == TWO_TRIPS + {M} && Belongs(rows, "m", "t1", user, ROLE_EDITOR)
    && Belongs(rows, "m1", "t1", ANN, ROLE_OWNER) && Belongs(rows, "m2", "t2", ANN, ROLE_OWNER)
  }

  /** When the membership's trip and user were last written. */
  predicate LastWritten(rows: Rows, trip: Clock, user: Clock) {
    && M in rows && {TripId, UserId} <= rows[M].clocks.Keys && rows[M].clocks[TripId] == trip && rows[M].clocks[UserId] == user
  }

  ghost function Joined(): seq<Event> {
    TwoTrips() + [Filed(Joining(), "spare")]
  }

  /** The events so far, before the last. */
  ghost function Named(): seq<Event> {
    Joined() + [Filed(Naming(), "spare")]
  }

  ghost function Given(): seq<Event> {
    Named() + [Filed(Giving(), "spare")]
  }

  /** A membership in Ann's trips may be pushed by her. */
  lemma AnnMay(rows: Rows, m: Mutation)
    requires m == Joining() || m == Naming() || m == Giving()
    requires TWO_TRIPS <= rows.Keys && Belongs(rows, "m1", "t1", ANN, ROLE_OWNER) && Belongs(rows, "m2", "t2", ANN, ROLE_OWNER)
    requires M in rows ==> Cell(rows, M, TripId) == Text("t1") && Cell(rows, M, Role) == Text(ROLE_EDITOR)
    ensures MemberPush(rows, m)
  {
    hide Administers, Belongs, Time;
    OwnerAdministers(rows, "m1", "t1", ANN);
    OwnerAdministers(rows, "m2", "t2", ANN);
  }

  /** While the membership is Bob's. */
  lemma AnnMayStill(rows: Rows, m: Mutation)
    requires Roster(rows, "bob") && (m == Naming() || m == Giving())
    ensures MemberPush(rows, m) && M in rows && Key(TripMembers, "spare") !in rows
  {
    hide Time;
    AnnMay(rows, m);
  }

  lemma BelongsAsItDid(a: Rows, b: Rows, id: string, trip: string, user: string, role: string)
    requires Belongs(a, id, trip, user, role) && Load(b, Key(TripMembers, id)) == Load(a, Key(TripMembers, id))
    ensures Belongs(b, id, trip, user, role)
  {
  }

  ghost predicate HasBob(reg: Registry, gen: Hlc.Gen, s: Sys) {
    && Staged(reg, gen, Joined(), s) && Roster(s.db.rows, "bob") && s.db.memo.Keys == {"1", "2", "3"}
    && LastWritten(s.db.rows, Time(3), Time(3)) && Dated(s.db.rows, M, Time(3))
  }

  /** Bob's membership arrives, both its columns as old as the push. */
  lemma BobJoins(reg: Registry, gen: Hlc.Gen) returns (s: Sys)
    requires Grants(reg) && Starts(gen)
    ensures HasBob(reg, gen, s)
  {
    hide Staged, Next, TwoTrips, Time, Proper, RowAfter, Server, Lawful, TripsFit, LastWritten, Belongs;
    var m, w := Joining(), Server("spare");
    var before := TwoTripsArrive(reg, gen);
    AnnMay(before.db.rows, m);
    MemberIsProper(reg, before, m, 3);
    SpareIs();
    Arrives(reg, gen, TwoTrips(), before, OFFICE, w, m, m);
    s := Next(reg, before, Filed(m, "spare"));
    BobsRow(reg, before.db.rows, s.db.rows, w);
  }

  lemma BobsRow(reg: Registry, a: Rows, b: Rows, w: Env)
    requires MembersFit(reg) && Grown(reg, a, b, OFFICE, w, Joining()) && a.Keys == TWO_TRIPS
    requires Belongs(a, "m1", "t1", ANN, ROLE_OWNER) && Belongs(a, "m2", "t2", ANN, ROLE_OWNER)
    ensures Roster(b, "bob") && LastWritten(b, Time(3), Time(3))
  {
    hide Time, RowAfter;
    var m := Joining();
    assert Holding(reg, a, b, m, TripId) && Holding(reg, a, b, m, UserId) && Holding(reg, a, b, m, Role);
    WrittenClock(reg, a, m, TripId);
    WrittenClock(reg, a, m, UserId);
    BelongsAsItDid(a, b, "m1", "t1", ANN, ROLE_OWNER);
    BelongsAsItDid(a, b, "m2", "t2", ANN, ROLE_OWNER);
  }

  lemma SpareIs()
    ensures Server("spare").memberId == "spare"
  {
  }

  ghost predicate HasNamed(reg: Registry, gen: Hlc.Gen, s: Sys) {
    && Staged(reg, gen, Named(), s) && Roster(s.db.rows, "bob") && s.db.memo.Keys == {"1", "2", "3", "4"}
    && LastWritten(s.db.rows, Time(5), Time(3))
  }

  /** The trip is named again: that column alone is newer. */
  lemma TripIsNamed(reg: Registry, gen: Hlc.Gen) returns (s: Sys)
    requires Grants(reg) && Starts(gen)
    ensures HasNamed(reg, gen, s)
  {
    hide Staged, Next, Joined, Time, Proper, RowAfter, Server, Lawful, TripsFit, Wins, LastWritten, Roster, Edited, MemberPush, MembersFit;
    var m, w := Naming(), Server("spare");
    var before := BobJoins(reg, gen);
    TimePasses(3, 5);
    AnnMayStill(before.db.rows, m);
    MemberIsProper(reg, before, m, 5);
    SpareIs();
    assert TripId in m.fields;
    Edits(reg, gen, Joined(), before, OFFICE, w, m, m);
    s := Next(reg, before, Filed(m, "spare"));
    StillBobs(reg, before.db.rows, s.db.rows);
  }

  lemma StillBobs(reg: Registry, a: Rows, b: Rows)
    requires Edited(reg, a, b, Naming()) && Roster(a, "bob") && LastWritten(a, Time(3), Time(3))
    ensures Roster(b, "bob") && LastWritten(b, Time(5), Time(3))
  {
    hide Time, RowAfter, Wins;
    var m := Naming();
    TimePasses(3, 5);
    assert Holding(reg, a, b, m, TripId) && Holding(reg, a, b, m, UserId) && Holding(reg, a, b, m, Role);
    NewerTripWins(a[M], m);
    WrittenClock(reg, a, m, TripId);
    WrittenClock(reg, a, m, UserId);
    BelongsAsItDid(a, b, "m1", "t1", ANN, ROLE_OWNER);
    BelongsAsItDid(a, b, "m2", "t2", ANN, ROLE_OWNER);
  }

  lemma NewerTripWins(row: Row, m: Mutation)
    requires TripId in m.fields && TripId in row.clocks && m.hlc > row.clocks[TripId]
    ensures Wins(row, m, TripId)
  {
  }

  /** The last edit loses the trip and wins the user. */
  lemma GivingSplits(rows: Rows)
    requires LastWritten(rows, Time(5), Time(3))
    ensures !Wins(rows[M], Giving(), TripId) && Wins(rows[M], Giving(), UserId)
  {
    hide Time;
    TimePasses(3, 4);
    TimePasses(4, 5);
  }

  lemma WinsSomething(row: Row, m: Mutation, c: Column)
    requires !m.op.Delete? && c in m.fields && Wins(row, m, c)
    ensures !Merging.Resolve(Some(row), m).deleted && Merging.Resolve(Some(row), m).applied != map[]
  {
    hide Lost, Wins, Stamped;
    assert c in Won(row, m, m.fields.Keys);
  }

  lemma GivingIsAcceptable(reg: Registry, gen: Hlc.Gen, s: Sys)
    requires HasNamed(reg, gen, s) && Proper(reg, s, OFFICE, Server("spare"), Giving(), Giving())
    ensures Acceptable(reg, s, OFFICE, Server("spare"), Giving(), Giving())
  {
    hide Staged, Named, Time, RowAfter, Server, Wins, Gate, Well, SchemaOk, Ordered, Clocked, Lawful, LinksNamed, Kept, Persisted,
      Merging.Resolve, LastWritten;
    StageIsKept(reg, gen, Named(), s);
    SaneIsSound(reg, s.db);
    PutIsSound(reg, s.db.rows, Giving());
    GivingSplits(s.db.rows);
    WinsSomething(s.db.rows[M], Giving(), UserId);
  }

  lemma GivingWrites(reg: Registry, rows: Rows)
    requires Roster(rows, "bob") && LastWritten(rows, Time(5), Time(3))
    ensures var b := Written(reg, rows, OFFICE, Server("spare"), Giving());
      b != rows && Roster(b, "cat")
  {
    hide Time, RowAfter, Server, Wins, Written, LastWritten;
    var m, w := Giving(), Server("spare");
    var b := Written(reg, rows, OFFICE, w, m);
    forall j ensures (j in b <==> j in rows) && (j in rows && j != M ==> b[j] == rows[j]) { WrittenRows(reg, rows, OFFICE, w, m, j); }
    GivingSplits(rows);
    WrittenRows(reg, rows, OFFICE, w, m, M);
    WrittenCell(reg, rows, m, TripId);
    WrittenCell(reg, rows, m, UserId);
    WrittenCell(reg, rows, m, Role);
    BelongsAsItDid(rows, b, "m1", "t1", ANN, ROLE_OWNER);
    BelongsAsItDid(rows, b, "m2", "t2", ANN, ROLE_OWNER);
    assert Cell(b, M, UserId) == Text("cat") != Cell(rows, M, UserId);
  }

  /** What the last edit tells: the membership, and the second trip. */
  ghost function Told(): seq<Note> {
    [Note(M, false, Time(4)), Note(Key(Trips, "t2"), false, Time(4))]
  }

  lemma GivingEntries(reg: Registry, rows: Rows)
    requires Roster(rows, "bob")
    ensures Entries(reg, rows, OFFICE, Server("spare"), Giving()) == Told()
  {
    hide Time, Written, Server;
  }

  /** It is written all the same: the membership of the first trip is Cat's, and the second trip is what resurfaces. */
  ghost predicate Gives(reg: Registry, gen: Hlc.Gen, s: Sys, b: Sys) {
    && HasNamed(reg, gen, s) && b == Next(reg, s, Filed(Giving(), "spare"))
    && Staged(reg, gen, Given(), b) && Roster(b.db.rows, "cat")
    && LogOf(b.db, MasterFeed) == LogOf(s.db, MasterFeed) + Numbered(Told(), s.db.head)
  }

  lemma CatIsGiven(reg: Registry, gen: Hlc.Gen) returns (s: Sys, b: Sys)
    requires Grants(reg) && Starts(gen)
    ensures Gives(reg, gen, s, b)
  {
    hide Staged, Next, Named, Time, Proper, RowAfter, Server, Written, Wins, Acceptable, Lawful, TripsFit, LastWritten, Roster,
      MemberPush, MembersFit;
    var m, w := Giving(), Server("spare");
    s := TripIsNamed(reg, gen);
    SpareIs();
    AnnMayStill(s.db.rows, m);
    MemberIsProper(reg, s, m, 4);
    GivingIsAcceptable(reg, gen, s);
    GivingWrites(reg, s.db.rows);
    Lands(reg, gen, Named(), s, OFFICE, w, m, m);
    GivingEntries(reg, s.db.rows);
    b := Next(reg, s, Filed(m, "spare"));
  }

  // ------------------------------------------------------------- what Cat's device has

  /** Cat is no member of anything. */
  lemma CatSeesNothing(rows: Rows, k: Key)
    requires Roster(rows, "bob") && k.table.Trips?
    ensures !IsMember(rows, k.id, "cat")
  {
    forall j | j in rows ensures !Membership(rows, j, k.id, "cat") {
      assert j.table.Trips? || j == M || j == Key(TripMembers, "m1") || j == Key(TripMembers, "m2");
    }
  }

  lemma CatSeesTrip(rows: Rows)
    requires Roster(rows, "cat")
    ensures IsMember(rows, "t1", "cat") && Key(Trips, "t1") in rows
  {
    assert Membership(rows, M, "t1", "cat");
  }

  lemma TripsAreSeenByMembers(reg: Registry, rows: Rows, user: string, k: Key)
    requires k.table.Trips? && reg.visible(Trips) == OfTrip
    ensures Visible(reg, rows, user, k) <==> k in rows && IsMember(rows, k.id, user)
  {
    hide IsMember;
  }

  /** A device of Cat's that pulled everything before the last edit. */
  function Fresh(s: Sys): Replica {
    Replica(s.db.head, map[])
  }

  lemma HadEverything(reg: Registry, s: Sys)
    requires Roster(s.db.rows, "bob") && reg.visible(Trips) == OfTrip
    ensures Converging(reg, Fresh(s), s.db, MasterFeed, {Trips}, "cat")
  {
    hide Roster, Visible, IsMember;
    forall k: Key | k.table.Trips? ensures Right(reg, map[], s.db, MasterFeed, "cat", k) {
      CatSeesNothing(s.db.rows, k);
      TripsAreSeenByMembers(reg, s.db.rows, "cat", k);
    }
  }

  lemma HasNothingToPull(reg: Registry, gen: Hlc.Gen, s: Sys, b: Sys)
    requires Gives(reg, gen, s, b) && reg.visible(Trips) == OfTrip
    ensures !UpToDate(reg, Fresh(s), b.db, MasterFeed, "cat", Key(Trips, "t1"))
  {
    hide Roster, Visible, IsMember, Staged, Time, Ordered, Clocked, Lawful, Next, Kept;
    StageIsKept(reg, gen, Named(), s);
    KeptIsInOrder(reg, s, MasterFeed);
    CatSeesTrip(b.db.rows);
    TripsAreSeenByMembers(reg, b.db.rows, "cat", Key(Trips, "t1"));
    assert forall e | e in LogOf(b.db, MasterFeed) && e.key == Key(Trips, "t1") :: e.at <= s.db.head;
  }

  /** A run in which a device that had everything is left without a trip its user came to see, with nothing to pull. */
  ghost predicate Withholds(
    reg: Registry, gen: Hlc.Gen, events: seq<Event>, e: Event, r: Replica, user: string, trip: string)
  {
    var a, b := Run(reg, Start(gen), events).db, Run(reg, Start(gen), events + [e]).db;
    && Timeline(reg, gen, events + [e]) && Converging(reg, r, a, MasterFeed, {Trips}, user)
    && IsMember(b.rows, trip, user) && !UpToDate(reg, r, b, MasterFeed, user, Key(Trips, trip))
  }

  lemma GrantIsLostFor(reg: Registry, gen: Hlc.Gen) returns (r: Replica)
    requires Grants(reg) && Starts(gen)
    ensures Withholds(reg, gen, Named(), Filed(Giving(), "spare"), r, "cat", "t1")
  {
    hide Next, Named, Roster, Timeline, Run, Visible, IsMember, Numbered, Lawful, TripsFit, MembersFit, Converging, UpToDate,
      LastWritten, Time;
    var s, b := CatIsGiven(reg, gen);
    r := Fresh(s);
    CatSeesTrip(b.db.rows);
    HadEverything(reg, s);
    HasNothingToPull(reg, gen, s, b);
  }

  /** Of the declared server: Cat comes to see the first trip and is never told of it. */
  lemma GrantIsLost(gen: Hlc.Gen) returns (r: Replica)
    requires Starts(gen)
    ensures Withholds(Catalog.Declaration(), gen, Named(), Filed(Giving(), "spare"), r, "cat", "t1")
  {
    hide Catalog.Declaration, Grants, Withholds, Named;
    DeclarationGrants();
    r := GrantIsLostFor(Catalog.Declaration(), gen);
  }
}
