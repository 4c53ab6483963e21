// What one of Ann's pushes does: the new trips, notes, replies, ticks, items and
// memberships the witnesses are made of, each passing its gate
// (internal/store/tables_registry.go, notethreads.go, stamp.go).
module Arrivals {
  import opened Values
  import opened Vocabulary
  import opened Merging
  import opened Registry
  import opened Database
  import opened Stamping
  import opened Guards
  import opened Pipeline
  import opened System
  import opened Effects
  import opened Laws
  import opened Staging
  import Hlc

  const ANN := "ann"

  const OFFICE := Partition(MasterFeed, ANN, false)

  /** Ann at a trip's endpoint. */
  function On(trip: string): Partition {
    Partition(TripFeed(trip), ANN, false)
  }

  // -------------------------------------------------------------------- the pushes

  function NewTrip(id: string, mutationId: string, n: int): Mutation {
    Mutation(mutationId, Insert, Trips, id, map[Name := Text(id), Plain("year") := Number(2026.0)], Time(n))
  }

  function NewNote(trip: string, id: string, mutationId: string, n: int): Mutation {
    Mutation(mutationId, Insert, Comments, id, map[TripId := Text(trip), Body := Text("a note")], Time(n))
  }

  function NewReply(trip: string, id: string, parent: string, mutationId: string, n: int): Mutation {
    Mutation(mutationId, Insert, Comments, id,
      map[TripId := Text(trip), Body := Text("a reply"), ParentId := Text(parent)], Time(n))
  }

  function NewTick(trip: string, id: string, note: string, mutationId: string, n: int): Mutation {
    Mutation(mutationId, Insert, NoteAcks, id, map[TripId := Text(trip), CommentId := Text(note)], Time(n))
  }

  function NewItem(trip: string, id: string, mutationId: string, n: int): Mutation {
    Mutation(mutationId, Insert, TripItems, id, map[TripId := Text(trip), Name := Text("an item")], Time(n))
  }

  /** The edit that hangs a note on an item. */
  function HangOn(note: string, item: string, mutationId: string, n: int): Mutation {
    Mutation(mutationId, Upsert, Comments, note, map[TripItemId := Text(item)], Time(n))
  }

  function Strike(t: Table, id: string, mutationId: string, n: int): Mutation {
    Mutation(mutationId, Delete, t, id, map[], Time(n))
  }

  function Member(op: Op, id: string, fields: Fields, mutationId: string, n: int): Mutation {
    Mutation(mutationId, op, TripMembers, id, fields, Time(n))
  }

  /** Ann pushes to a trip's endpoint. */
  ghost function Pushed(trip: string, m: Mutation): Event {
    Event.Push(On(trip), m, Server("spare"))
  }

  /** Ann pushes to the master partition. */
  ghost function Filed(m: Mutation, memberId: string): Event {
    Event.Push(OFFICE, m, Server(memberId))
  }

  // -------------------------------------------------------- what the registry says

  /** A column with no foreign key, or one that may be NULL and is by default. */
  predicate Loose(reg: Registry, t: Table, c: Column) {
    reg.link(t, c).Some? ==> !reg.link(t, c).value.mandatory && Get(reg.defaults(t), c) == Null
  }

  predicate Links(reg: Registry, t: Table, c: Column, parent: Table) {
    reg.link(t, c).Some? ==> reg.link(t, c).value.parent == parent
  }

  ghost predicate TripsFit(reg: Registry) {
    && reg.side(Trips) == OnMaster && reg.guard(Trips) == TripMembership && reg.stamp(Trips) == OnCreate(CreatedBy)
    && {Name, Plain("year")} <= reg.columns(Trips)
    && forall c: Column {:trigger reg.link(Trips, c)} :: Loose(reg, Trips, c) && (reg.link(Trips, c).Some? ==> c.SeriesId?)
  }

  ghost predicate CommentsFit(reg: Registry) {
    && reg.side(Comments) == OnTrip && reg.guard(Comments) == CommentRules && reg.stamp(Comments) == OfComment
    && {TripId, Body, ParentId, TripItemId} <= reg.columns(Comments) && reg.blockers(Comments) == []
    && Get(reg.defaults(Comments), ParentId) == Get(reg.defaults(Comments), TripItemId) == Null
    && Get(reg.defaults(Comments), IsTask) == Number(0.0)
    && forall c: Column {:trigger reg.link(Comments, c)} ::
         && (!c.TripId? ==> Loose(reg, Comments, c)) && (c.Body? || c.AuthorId? ==> reg.link(Comments, c).None?)
         && (c.TripId? ==> Links(reg, Comments, c, Trips)) && (c.ParentId? ==> Links(reg, Comments, c, Comments))
         && (c.TripItemId? ==> Links(reg, Comments, c, TripItems))
  }

  ghost predicate TicksFit(reg: Registry) {
    && reg.side(NoteAcks) == OnTrip && reg.guard(NoteAcks) == Unguarded && reg.stamp(NoteAcks) == OnInsert(UserId)
    && {TripId, CommentId} <= reg.columns(NoteAcks)
    && forall c: Column {:trigger reg.link(NoteAcks, c)} ::
         && (reg.link(NoteAcks, c).Some? ==> c.TripId? || c.CommentId?)
         && (c.TripId? ==> Links(reg, NoteAcks, c, Trips)) && (c.CommentId? ==> Links(reg, NoteAcks, c, Comments))
  }

  ghost predicate ItemsFit(reg: Registry) {
    && reg.side(TripItems) == OnTrip && reg.guard(TripItems) == Unguarded && reg.stamp(TripItems) == OfTripItem
    && {TripId, Name} <= reg.columns(TripItems) && reg.blockers(TripItems) == []
    && Get(reg.defaults(TripItems), State) == Text("open")
    && forall c: Column {:trigger reg.link(TripItems, c)} ::
         && (!c.TripId? ==> Loose(reg, TripItems, c)) && (c.Name? ==> reg.link(TripItems, c).None?)
         && (c.TripId? ==> Links(reg, TripItems, c, Trips))
  }

  ghost predicate MembersFit(reg: Registry) {
    && reg.side(TripMembers) == OnMaster && reg.guard(TripMembers) == MemberAdministration && reg.stamp(TripMembers) == NoStamp
    && {TripId, UserId, Role} <= reg.columns(TripMembers) && Get(reg.defaults(TripMembers), Role) == Text(ROLE_EDITOR)
    && forall c: Column {:trigger reg.link(TripMembers, c)} ::
         (reg.link(TripMembers, c).Some? ==> c.TripId?) && (c.TripId? ==> Links(reg, TripMembers, c, Trips))
  }

  // ------------------------------------------------------------------ two trips

  /** A new trip passes, stamped with its creator. */
  lemma TripPasses(reg: Registry, rows: Rows, w: Env, m: Mutation)
    requires TripsFit(reg) && m.table.Trips? && m.op.Insert? && KeyOf(m) !in rows && CreatedBy !in m.fields
    ensures Gate(reg, rows, OFFICE, w, m) == Pass(m.(fields := m.fields[CreatedBy := Text(ANN)]))
  {
    assert m.fields - {CreatedBy} == m.fields;
  }

  /** A new trip is free to arrive. */
  ghost predicate Unused(s: Sys, k: Key, mutationId: string, memberId: string, n: int) {
    k !in s.db.rows && mutationId !in s.db.memo && Key(TripMembers, memberId) !in s.db.rows && n < 1000
  }

  lemma TripIsProper(reg: Registry, s: Sys, id: string, mutationId: string, memberId: string, n: int)
    requires TripsFit(reg) && Unused(s, Key(Trips, id), mutationId, memberId, n)
    ensures var m := NewTrip(id, mutationId, n);
      Proper(reg, s, OFFICE, Server(memberId), m, m.(fields := m.fields[CreatedBy := Text(ANN)]))
  {
    hide Time, Server, RowAfter, Gate;
    var m := NewTrip(id, mutationId, n);
    TimeIsClock(n);
    ServerIsFair(memberId);
    TripPasses(reg, s.db.rows, Server(memberId), m);
    forall c | reg.link(Trips, c).Some? ensures Loose(reg, Trips, c) && c !in m.fields[CreatedBy := Text(ANN)] { }
  }

  /** Whose membership a row is. */
  predicate Belongs(rows: Rows, id: string, trip: string, user: string, role: string) {
    && Cell(rows, Key(TripMembers, id), TripId) == Text(trip) && Cell(rows, Key(TripMembers, id), UserId) == Text(user)
    && Cell(rows, Key(TripMembers, id), Role) == Text(role)
  }

  /** The tables after a push, with some keys more and every row as it was. */
  predicate Joins(a: Sys, b: Sys, some: set<Key>, mutationId: string) {
    && b.db.rows.Keys == a.db.rows.Keys + some && (forall j | j in a.db.rows :: Load(b.db.rows, j) == Load(a.db.rows, j))
    && b.db.memo.Keys == a.db.memo.Keys + {mutationId}
  }

  /** A new trip arrived with its founder. */
  ghost predicate Opened(
    reg: Registry, gen: Hlc.Gen, events: seq<Event>, s: Sys, id: string, mutationId: string, memberId: string, n: int)
  {
    var e := Filed(NewTrip(id, mutationId, n), memberId);
    var b := Next(reg, s, e);
    && Staged(reg, gen, events + [e], b) && Joins(s, b, {Key(Trips, id), Key(TripMembers, memberId)}, mutationId)
    && Belongs(b.db.rows, memberId, id, ANN, ROLE_OWNER)
  }

  lemma TripArrives(reg: Registry, gen: Hlc.Gen, events: seq<Event>, s: Sys, id: string, mutationId: string, memberId: string, n: int)
    requires TripsFit(reg) && Staged(reg, gen, events, s) && Unused(s, Key(Trips, id), mutationId, memberId, n)
    ensures Opened(reg, gen, events, s, id, mutationId, memberId, n)
  {
    hide Staged, Next, Proper, Time, RowAfter, TripsFit;
    var m, w := NewTrip(id, mutationId, n), Server(memberId);
    ServerIsFair(memberId);
    TripIsProper(reg, s, id, mutationId, memberId, n);
    var made := m.(fields := m.fields[CreatedBy := Text(ANN)]);
    Arrives(reg, gen, events, s, OFFICE, w, m, made);
    assert Key(TripMembers, memberId) in Founding(OFFICE, w, made);
  }

  ghost function TwoTrips(): seq<Event> {
    [Filed(NewTrip("t1", "1", 1), "m1"), Filed(NewTrip("t2", "2", 2), "m2")]
  }

  const TWO_TRIPS: set<Key> := {Key(Trips, "t1"), Key(TripMembers, "m1"), Key(Trips, "t2"), Key(TripMembers, "m2")}

  /** Two trips, each with Ann for its owner. */
  ghost predicate HasTwoTrips(reg: Registry, gen: Hlc.Gen, s: Sys) {
    && Staged(reg, gen, TwoTrips(), s) && s.db.rows.Keys == TWO_TRIPS && s.db.memo.Keys == {"1", "2"}
    && Belongs(s.db.rows, "m1", "t1", ANN, ROLE_OWNER) && Belongs(s.db.rows, "m2", "t2", ANN, ROLE_OWNER)
  }

  lemma TwoTripsArrive(reg: Registry, gen: Hlc.Gen) returns (s: Sys)
    requires Lawful(reg) && TripsFit(reg) && gen.WellFormed() && gen.lastMillis < Hlc.MILLIS_LIMIT
    ensures HasTwoTrips(reg, gen, s)
  {
    hide Staged, Next, Filed, Lawful, TripsFit;
    StageIsEmpty(reg, gen);
    var first, second := Filed(NewTrip("t1", "1", 1), "m1"), Filed(NewTrip("t2", "2", 2), "m2");
    TripArrives(reg, gen, [], Start(gen), "t1", "1", "m1", 1);
    assert [] + [first] == [first];
    TripArrives(reg, gen, [first], Next(reg, Start(gen), first), "t2", "2", "m2", 2);
    assert [first] + [second] == TwoTrips();
    s := Next(reg, Next(reg, Start(gen), first), second);
  }

  // -------------------------------------------------------- notes, ticks and items

  /** The state before one of Ann's pushes to a trip's endpoint. */
  ghost predicate Before(reg: Registry, gen: Hlc.Gen, events: seq<Event>, s: Sys, trip: string, mutationId: string, n: int) {
    && Staged(reg, gen, events, s) && Key(Trips, trip) in s.db.rows
    && Key(TripMembers, "spare") !in s.db.rows && mutationId !in s.db.memo && n < 1000
  }

  /** The columns asked about have these values. */
  predicate Reads(rows: Rows, k: Key, values: Fields) {
    forall c | c in values :: Cell(rows, k, c) == Get(values, c)
  }

  /** And after an insert: one row more, with these values in the columns asked about. */
  ghost predicate After(reg: Registry, gen: Hlc.Gen, events: seq<Event>, s: Sys, trip: string, m: Mutation, values: Fields) {
    var b := Next(reg, s, Pushed(trip, m));
    && Staged(reg, gen, events + [Pushed(trip, m)], b) && Joins(s, b, {KeyOf(m)}, m.mutationId)
    && Dated(b.db.rows, KeyOf(m), m.hlc) && Reads(b.db.rows, KeyOf(m), values)
  }

  /** What a row inserted by `m` reads as. */
  predicate Gives(reg: Registry, m: Mutation, values: Fields) {
    forall c | c in values :: Get(values, c) == if c in m.fields then Stored(m.fields[c]) else Get(reg.defaults(m.table), c)
  }

  /** A proper push of a new row to a trip's endpoint. */
  lemma ArrivesAs(reg: Registry, gen: Hlc.Gen, events: seq<Event>, s: Sys, trip: string, sent: Mutation, m: Mutation, values: Fields)
    requires Staged(reg, gen, events, s) && Proper(reg, s, On(trip), Server("spare"), sent, m) && KeyOf(sent) !in s.db.rows
    requires Gives(reg, m, values)
    ensures After(reg, gen, events, s, trip, sent, values)
  {
    hide Staged, Next, Well, Gate, LinksNamed, RowAfter, Time, Server;
    GatedAsSent(reg, s.db.rows, On(trip), Server("spare"), sent, m);
    Arrives(reg, gen, events, s, On(trip), Server("spare"), sent, m);
    var b := Next(reg, s, Pushed(trip, sent));
    forall c | c in values ensures Cell(b.db.rows, KeyOf(sent), c) == Get(values, c) {
      assert Holding(reg, s.db.rows, b.db.rows, m, c);
    }
  }

  /** The push is new and its world is the spare one. */
  lemma IsWell(reg: Registry, gen: Hlc.Gen, events: seq<Event>, s: Sys, trip: string, m: Mutation, n: int)
    requires Before(reg, gen, events, s, trip, m.mutationId, n) && m.hlc == Time(n) && Valid(reg, m, On(trip))
    ensures Well(reg, s, On(trip), Server("spare"), m) && Key(Trips, trip) in s.db.rows
  {
    hide Staged, Time, Server, Valid;
    TimeIsClock(n);
    ServerIsFair("spare");
  }

  /** A comment's stamp writes its author and nothing else. */
  lemma CommentStamped(m: Mutation, w: Env)
    requires m.op.Insert? && m.fields.Keys <= {TripId, Body, ParentId}
    ensures StampOwned(OfComment, m, false, ANN, w) == m.(fields := m.fields[AuthorId := Text(ANN)])
  {
    assert m.fields - Owned(OfComment) == m.fields;
  }

  /** A new comment passes when it names no parent, the empty id, or a first note of the trip. */
  lemma CommentJudgedNew(rows: Rows, m: Mutation, p: Partition)
    requires !m.op.Delete? && KeyOf(m) !in rows && m.fields.Keys <= {TripId, Body, ParentId, AuthorId}
    requires var parent := AsText(Get(m.fields, ParentId));
      parent == "" || FirstNote(rows, p.Trip(), parent)
    ensures JudgeComment(rows, m, p) == Pass(m)
  {
    hide FirstNote;
    assert Drop(Drop(m, Title), ExcursionId) == m && IsNote(m.fields);
    assert JudgeThread(rows, m, p) == Pass(m);
  }

  /** An insert of a comment that names a parent it may: none, the empty id, or a first note of the trip. */
  predicate CommentPush(rows: Rows, m: Mutation, trip: string) {
    && m.table.Comments? && m.op.Insert? && KeyOf(m) !in rows
    && m.fields.Keys <= {TripId, Body, ParentId} && Names(m, TripId) == Some(trip)
    && (AsText(Get(m.fields, ParentId)) == "" || FirstNote(rows, trip, AsText(Get(m.fields, ParentId))))
    && (ParentId in m.fields ==> Names(m, ParentId).Some? && Key(Comments, Names(m, ParentId).value) in rows)
  }

  function Authored(m: Mutation): Mutation {
    m.(fields := m.fields[AuthorId := Text(ANN)])
  }

  lemma CommentPasses(reg: Registry, rows: Rows, w: Env, m: Mutation, trip: string)
    requires CommentsFit(reg) && CommentPush(rows, m, trip)
    ensures Gate(reg, rows, On(trip), w, m) == Pass(Authored(m))
  {
    hide JudgeComment, FirstNote, StampOwned, Loose, Links;
    CommentStamped(m, w);
    CommentJudgedNew(rows, Authored(m), On(trip));
  }

  lemma CommentNames(reg: Registry, rows: Rows, m: Mutation, trip: string)
    requires CommentsFit(reg) && CommentPush(rows, m, trip) && Key(Trips, trip) in rows
    ensures LinksNamed(reg, rows, Authored(m))
  {
    hide FirstNote;
    forall c | reg.link(Comments, c).Some? ensures LinkNamed(reg, rows, Authored(m), c) { }
  }

  /** A new comment arrives, hanging on no item. */
  lemma CommentArrives(reg: Registry, gen: Hlc.Gen, events: seq<Event>, s: Sys, trip: string, m: Mutation, n: int)
    requires CommentsFit(reg) && CommentPush(s.db.rows, m, trip) && m.hlc == Time(n)
    requires Before(reg, gen, events, s, trip, m.mutationId, n)
    ensures After(reg, gen, events, s, trip, m,
      map[TripId := Text(trip), ParentId := Get(m.fields, ParentId), TripItemId := Null, IsTask := Number(0.0)])
  {
    hide FirstNote, Time, Server, Gate, Staged, After, RowAfter, LinksNamed, Well, Loose, Links;
    IsWell(reg, gen, events, s, trip, m, n);
    CommentPasses(reg, s.db.rows, Server("spare"), m, trip);
    CommentNames(reg, s.db.rows, m, trip);
    ArrivesAs(reg, gen, events, s, trip, m, Authored(m),
      map[TripId := Text(trip), ParentId := Get(m.fields, ParentId), TripItemId := Null, IsTask := Number(0.0)]);
  }

  lemma NoteArrives(reg: Registry, gen: Hlc.Gen, events: seq<Event>, s: Sys, trip: string, id: string, mutationId: string, n: int)
    requires CommentsFit(reg) && Before(reg, gen, events, s, trip, mutationId, n) && Key(Comments, id) !in s.db.rows
    ensures After(reg, gen, events, s, trip, NewNote(trip, id, mutationId, n),
      map[TripId := Text(trip), ParentId := Null, TripItemId := Null, IsTask := Number(0.0)])
  {
    hide Time, After, Staged, FirstNote, CommentsFit;
    CommentArrives(reg, gen, events, s, trip, NewNote(trip, id, mutationId, n), n);
  }

  lemma ReplyArrives(
    reg: Registry, gen: Hlc.Gen, events: seq<Event>, s: Sys, trip: string, id: string, parent: string, mutationId: string, n: int)
    requires CommentsFit(reg) && Before(reg, gen, events, s, trip, mutationId, n) && Key(Comments, id) !in s.db.rows
    requires Key(Comments, parent) in s.db.rows && (parent == "" || FirstNote(s.db.rows, trip, parent))
    ensures After(reg, gen, events, s, trip, NewReply(trip, id, parent, mutationId, n),
      map[TripId := Text(trip), ParentId := Text(parent), TripItemId := Null, IsTask := Number(0.0)])
  {
    hide Time, After, Staged, FirstNote, CommentsFit;
    CommentArrives(reg, gen, events, s, trip, NewReply(trip, id, parent, mutationId, n), n);
  }

  /** A tick passes whatever comment it names, and arrives when the comment is there. */
  lemma TickArrives(
    reg: Registry, gen: Hlc.Gen, events: seq<Event>, s: Sys, trip: string, id: string, note: string, mutationId: string, n: int)
    requires TicksFit(reg) && Before(reg, gen, events, s, trip, mutationId, n) && Key(NoteAcks, id) !in s.db.rows
    requires Key(Comments, note) in s.db.rows
    ensures After(reg, gen, events, s, trip, NewTick(trip, id, note, mutationId, n), map[TripId := Text(trip), CommentId := Text(note)])
  {
    hide Time, Server, Gate, Staged, After, RowAfter, LinksNamed, Well;
    var m := NewTick(trip, id, note, mutationId, n);
    IsWell(reg, gen, events, s, trip, m, n);
    TickPasses(reg, s.db.rows, Server("spare"), m, trip);
    TickNames(reg, s.db.rows, m, trip, note);
    ArrivesAs(reg, gen, events, s, trip, m, Ticking(m), map[TripId := Text(trip), CommentId := Text(note)]);
  }

  function Ticking(m: Mutation): Mutation {
    m.(fields := m.fields[UserId := Text(ANN)])
  }

  lemma TickPasses(reg: Registry, rows: Rows, w: Env, m: Mutation, trip: string)
    requires TicksFit(reg) && m.table.NoteAcks? && m.op.Insert? && m.fields.Keys == {TripId, CommentId} && KeyOf(m) !in rows
    requires Names(m, TripId) == Some(trip)
    ensures Gate(reg, rows, On(trip), w, m) == Pass(Ticking(m))
  {
    hide Links;
    assert m.fields - {UserId} == m.fields;
  }

  lemma TickNames(reg: Registry, rows: Rows, m: Mutation, trip: string, note: string)
    requires TicksFit(reg) && m.table.NoteAcks? && m.fields == map[TripId := Text(trip), CommentId := Text(note)]
    requires Key(Trips, trip) in rows && Key(Comments, note) in rows
    ensures LinksNamed(reg, rows, Ticking(m))
  {
  }

  /** An item passes whatever it names, and arrives. */
  lemma ItemArrives(reg: Registry, gen: Hlc.Gen, events: seq<Event>, s: Sys, trip: string, id: string, mutationId: string, n: int)
    requires ItemsFit(reg) && Before(reg, gen, events, s, trip, mutationId, n) && Key(TripItems, id) !in s.db.rows
    ensures After(reg, gen, events, s, trip, NewItem(trip, id, mutationId, n), map[TripId := Text(trip)])
  {
    hide Time, Server, Gate, Staged, After, RowAfter, LinksNamed, Well, Loose, Links;
    var m := NewItem(trip, id, mutationId, n);
    IsWell(reg, gen, events, s, trip, m, n);
    ItemPasses(reg, s.db.rows, Server("spare"), m, trip);
    WrittenCell(reg, s.db.rows, m, State);
    ItemNames(reg, s.db.rows, m, trip);
    ArrivesAs(reg, gen, events, s, trip, m, m, map[TripId := Text(trip)]);
  }

  lemma ItemPasses(reg: Registry, rows: Rows, w: Env, m: Mutation, trip: string)
    requires ItemsFit(reg) && m.table.TripItems? && m.op.Insert? && m.fields.Keys == {TripId, Name} && KeyOf(m) !in rows
    requires Names(m, TripId) == Some(trip)
    ensures Gate(reg, rows, On(trip), w, m) == Pass(m)
  {
    hide Links, Loose;
    assert m.fields - Owned(OfTripItem) == m.fields;
  }

  lemma ItemNames(reg: Registry, rows: Rows, m: Mutation, trip: string)
    requires ItemsFit(reg) && m.table.TripItems? && m.fields == map[TripId := Text(trip), Name := Text("an item")]
    requires Key(Trips, trip) in rows
    ensures LinksNamed(reg, rows, m)
  {
    forall c | reg.link(TripItems, c).Some? ensures LinkNamed(reg, rows, m, c) { }
  }

  // ------------------------------------------------------------ edits and deletes

  /** An edit may hang a trip-level note, replies and all, on an item. */
  lemma EditPasses(reg: Registry, rows: Rows, w: Env, m: Mutation, trip: string)
    requires CommentsFit(reg) && m.table.Comments? && m.op.Upsert? && m.fields.Keys == {TripItemId}
    requires KeyOf(m) in rows && TripOf(rows, KeyOf(m)) == Text(trip)
    ensures Gate(reg, rows, On(trip), w, m) == Pass(m)
  {
    hide Links, Loose;
    assert m.fields - Owned(OfComment) == m.fields;
    EditJudged(rows, m, On(trip));
  }

  lemma EditJudged(rows: Rows, m: Mutation, p: Partition)
    requires m.op.Upsert? && m.fields.Keys == {TripItemId} && KeyOf(m) in rows && m.table.Comments?
    ensures JudgeComment(rows, m, p) == Pass(m)
  {
    assert Drop(m, ParentId) == m && Drop(m, Title) == m && Drop(m, ExcursionId) == m;
    assert JudgeThread(rows, m, p) == Pass(m);
  }

  /** The note hangs on the item, and no other row changed. */
  ghost predicate Hung(reg: Registry, gen: Hlc.Gen, events: seq<Event>, s: Sys, trip: string, note: string, m: Mutation) {
    var b := Next(reg, s, Pushed(trip, m));
    && Staged(reg, gen, events + [Pushed(trip, m)], b) && b.db.rows.Keys == s.db.rows.Keys
    && (forall j | j in s.db.rows && j != Key(Comments, note) :: Load(b.db.rows, j) == Load(s.db.rows, j))
    && b.db.memo.Keys == s.db.memo.Keys + {m.mutationId}
    && Cell(b.db.rows, Key(Comments, note), TripItemId) == Get(m.fields, TripItemId)
  }

  lemma NoteHangs(
    reg: Registry, gen: Hlc.Gen, events: seq<Event>, s: Sys, trip: string, note: string, item: string, mutationId: string, n: int)
    requires CommentsFit(reg) && Before(reg, gen, events, s, trip, mutationId, n)
    requires TripOf(s.db.rows, Key(Comments, note)) == Text(trip) && Key(TripItems, item) in s.db.rows
    requires Older(s.db.rows, Key(Comments, note), Time(n))
    ensures Hung(reg, gen, events, s, trip, note, HangOn(note, item, mutationId, n))
  {
    hide Time, Server, Staged, Next, Gate, RowAfter, Well, LinksNamed, Loose, Links;
    var m := HangOn(note, item, mutationId, n);
    IsWell(reg, gen, events, s, trip, m, n);
    EditPasses(reg, s.db.rows, Server("spare"), m, trip);
    EditNames(reg, s.db.rows, m, item);
    assert TripItemId in m.fields;
    Edits(reg, gen, events, s, On(trip), Server("spare"), m, m);
    assert Holding(reg, s.db.rows, Next(reg, s, Pushed(trip, m)).db.rows, m, TripItemId);
  }

  lemma EditNames(reg: Registry, rows: Rows, m: Mutation, item: string)
    requires CommentsFit(reg) && m.table.Comments? && m.fields == map[TripItemId := Text(item)]
    requires KeyOf(m) in rows && Key(TripItems, item) in rows
    ensures LinksNamed(reg, rows, m)
  {
    forall c | reg.link(Comments, c).Some? ensures LinkNamed(reg, rows, m, c) { }
  }

  /** A delete Ann pushes for a row of the trip strikes it. */
  lemma StrikeIsStriking(
    reg: Registry, gen: Hlc.Gen, events: seq<Event>, s: Sys, trip: string, t: Table, id: string, mutationId: string, n: int)
    requires CommentsFit(reg) && ItemsFit(reg) && (t.Comments? || t.TripItems?)
    requires Before(reg, gen, events, s, trip, mutationId, n)
    requires TripOf(s.db.rows, Key(t, id)) == Text(trip) && Older(s.db.rows, Key(t, id), Time(n))
    ensures var m := Strike(t, id, mutationId, n);
      Striking(reg, s, On(trip), Server("spare"), m, m) && !Blocked(reg, s.db.rows, KeyOf(m))
  {
    hide Time, Server, Staged, Gate, Well, Loose, Links;
    var m := Strike(t, id, mutationId, n);
    IsWell(reg, gen, events, s, trip, m, n);
    StrikePasses(reg, s.db.rows, Server("spare"), m, trip);
  }

  lemma StrikePasses(reg: Registry, rows: Rows, w: Env, m: Mutation, trip: string)
    requires CommentsFit(reg) && ItemsFit(reg) && (m.table.Comments? || m.table.TripItems?)
    requires m.op.Delete? && m.fields == map[] && TripOf(rows, KeyOf(m)) == Text(trip)
    ensures Gate(reg, rows, On(trip), w, m) == Pass(m)
  {
    hide Links, Loose;
    assert m.fields - Owned(OfComment) == m.fields == m.fields - Owned(OfTripItem);
  }

  // ------------------------------------------------------------------ memberships

  /** An owner administers the trip. */
  lemma OwnerAdministers(rows: Rows, id: string, trip: string, user: string)
    requires Key(TripMembers, id) in rows && Belongs(rows, id, trip, user, ROLE_OWNER)
    ensures Administers(rows, trip, user)
  {
    assert Membership(rows, Key(TripMembers, id), trip, user);
  }

  /** A membership of trips Ann administers, no owner's. */
  predicate MemberPush(rows: Rows, m: Mutation) {
    && m.table.TripMembers? && !m.op.Delete? && m.fields.Keys <= {TripId, UserId}
    && Names(m, TripId).Some? && Key(Trips, Names(m, TripId).value) in rows && Administers(rows, Names(m, TripId).value, ANN)
    && (KeyOf(m) in rows ==> Cell(rows, KeyOf(m), Role) == Text(ROLE_EDITOR))
    && (Cell(rows, KeyOf(m), TripId).Text? ==> Administers(rows, Cell(rows, KeyOf(m), TripId).text, ANN))
  }

  lemma MemberPasses(reg: Registry, rows: Rows, w: Env, m: Mutation)
    requires MembersFit(reg) && MemberPush(rows, m)
    ensures Gate(reg, rows, OFFICE, w, m) == Pass(m)
  {
    hide Administers, Links;
    assert m.fields - {} == m.fields;
  }

  lemma MemberIsProper(reg: Registry, s: Sys, m: Mutation, n: int)
    requires MembersFit(reg) && MemberPush(s.db.rows, m) && m.hlc == Time(n) && n < 1000
    requires m.mutationId !in s.db.memo && Key(TripMembers, "spare") !in s.db.rows
    ensures Proper(reg, s, OFFICE, Server("spare"), m, m)
  {
    hide Time, Server, RowAfter, Gate, Administers;
    TimeIsClock(n);
    ServerIsFair("spare");
    MemberPasses(reg, s.db.rows, Server("spare"), m);
    WrittenCell(reg, s.db.rows, m, Role);
  }
}
