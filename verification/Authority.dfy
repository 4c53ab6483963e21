// Who may write what: each table's rule of authority, read off the rows, and what
// it comes to once a write lands (internal/store/master.go, planner.go,
// notethreads.go, travelers.go).
module Authority {
  import opened Values
  import opened Vocabulary
  import opened Merging
  import opened Registry
  import opened Database
  import opened Stamping
  import opened Guards
  import opened Pipeline
  import opened System
  import opened Effects
  import opened Sights

  // --------------------------------------------------------------- what is allowed

  /** The row names the parent, or would. */
  predicate Linked(rows: Rows, m: Mutation, c: Column, id: string) {
    Cell(rows, KeyOf(m), c) == Text(id) || Get(m.fields, c) == Text(id)
  }

  /** A membership row has the user on the trip as its owner or an admin. */
  ghost predicate RunsTrip(rows: Rows, user: string, trip: string) {
    exists k | k in rows && k.table.TripMembers? :: Runs(rows, k, user, trip)
  }

  predicate Runs(rows: Rows, k: Key, user: string, trip: string) {
    && Cell(rows, k, TripId) == Text(trip) && Cell(rows, k, UserId) == Text(user)
    && (Cell(rows, k, Role) == Text(ROLE_OWNER) || Cell(rows, k, Role) == Text(ROLE_ADMIN))
  }

  /** Who a participant stands for once the mutation is through. */
  function LinkedUser(rows: Rows, m: Mutation): Value {
    if LinkedUserId in m.fields then m.fields[LinkedUserId] else Cell(rows, KeyOf(m), LinkedUserId)
  }

  /** What a table's rule asks of the actor: of the row as it is, and of every parent it has or would get. */
  ghost predicate Allowed(g: Guard, rows: Rows, m: Mutation, actor: string, trip: string) {
    var k := KeyOf(m);
    match g
    case SeriesOwned => k in rows ==> OwnsSeries(rows, actor, k.id)
    case ProfileOwned =>
      (exists id :: Linked(rows, m, SeriesId, id)) && forall id | Linked(rows, m, SeriesId, id) :: OwnsSeries(rows, actor, id)
    case ChecklistOwned =>
      (exists id :: Linked(rows, m, ProfileId, id)) && forall id | Linked(rows, m, ProfileId, id) :: OwnsProfile(rows, actor, id)
    case TripMembership =>
      k in rows ==> OnTheTrip(rows, actor, k.id) && (m.op.Delete? ==> RunsTrip(rows, actor, k.id))
    case TripEditor =>
      (exists id :: Linked(rows, m, TripId, id)) && forall id | Linked(rows, m, TripId, id) :: OnTheTrip(rows, actor, id)
    case MemberAdministration =>
      && (exists id :: Linked(rows, m, TripId, id)) && (forall id | Linked(rows, m, TripId, id) :: RunsTrip(rows, actor, id))
      && !Linked(rows, m, Role, ROLE_OWNER)
    case IdeaVote => k in rows ==> AsText(Cell(rows, k, UserId)) == actor
    case IdeaComment =>
      k in rows && !m.op.Delete? && (Body in m.fields || EditedAt in m.fields) ==> AsText(Cell(rows, k, AuthorId)) == actor
    case IdeaImage => m.op.Delete? || (k in rows && m.fields.Keys <= {Position})
    case Track => m.op.Delete? || (k in rows && m.fields.Keys <= {Name, Kind, WithKid, PauseMin, Position})
    case TravelerLink => AsText(LinkedUser(rows, m)) == "" || OnTheTrip(rows, AsText(LinkedUser(rows, m)), trip)
    case _ => true
  }

  /** The rules that are about who is writing, or about whom. */
  predicate Personal(g: Guard) {
    g.SeriesOwned? || g.ProfileOwned? || g.ChecklistOwned? || g.TripMembership? || g.TripEditor? || g.MemberAdministration? ||
    g.IdeaVote? || g.IdeaComment? || g.IdeaImage? || g.Track? || g.TravelerLink?
  }

  lemma ParentsExactly(rows: Rows, m: Mutation, c: Column, id: string)
    ensures id in Parents(rows, m, c) <==> Linked(rows, m, c, id)
  {
  }

  lemma SomeParent(rows: Rows, m: Mutation, c: Column)
    ensures Parents(rows, m, c) != {} <==> exists id :: Linked(rows, m, c, id)
  {
    hide Parents, Linked;
    if id :| id in Parents(rows, m, c) { ParentsExactly(rows, m, c, id); }
    if id :| Linked(rows, m, c, id) { ParentsExactly(rows, m, c, id); }
  }

  lemma RunsExactly(rows: Rows, user: string, trip: string)
    ensures Administers(rows, trip, user) <==> RunsTrip(rows, user, trip)
  {
    if k :| k in rows && k.table.TripMembers? && Runs(rows, k, user, trip) {
      assert Membership(rows, k, trip, user) && Cell(rows, k, Role) in Roles(rows, trip, user);
    }
  }

  /** What a rule of ownership comes to. */
  lemma OwnershipExactly(rows: Rows, m: Mutation, actor: string, c: Column)
    requires c.SeriesId? || c.ProfileId?
    ensures var parents := Parents(rows, m, c);
      (parents != {} && forall id | id in parents ::
        (if c.SeriesId? then SeriesOwner(rows, id) else ProfileOwner(rows, id)) == Text(actor)) <==>
      (exists id :: Linked(rows, m, c, id)) && forall id | Linked(rows, m, c, id) ::
        if c.SeriesId? then OwnsSeries(rows, actor, id) else OwnsProfile(rows, actor, id)
  {
    hide Parents, Linked, ProfileOwner, OwnsProfile;
    SomeParent(rows, m, c);
    forall id ensures id in Parents(rows, m, c) <==> Linked(rows, m, c, id) { ParentsExactly(rows, m, c, id); }
    forall id ensures ProfileOwner(rows, id) == Text(actor) <==> OwnsProfile(rows, actor, id) { ProfileSeenExactly(rows, actor, id); }
  }

  /** And one of membership or administration. */
  lemma RostersExactly(rows: Rows, m: Mutation, actor: string)
    ensures MayEditTrips(rows, Parents(rows, m, TripId), actor) <==>
      (exists id :: Linked(rows, m, TripId, id)) && forall id | Linked(rows, m, TripId, id) :: OnTheTrip(rows, actor, id)
    ensures MayAdminister(rows, Parents(rows, m, TripId), actor) <==>
      (exists id :: Linked(rows, m, TripId, id)) && forall id | Linked(rows, m, TripId, id) :: RunsTrip(rows, actor, id)
  {
    hide Parents, Linked, IsMember, Administers, OnTheTrip, RunsTrip;
    SomeParent(rows, m, TripId);
    forall id ensures id in Parents(rows, m, TripId) <==> Linked(rows, m, TripId, id) { ParentsExactly(rows, m, TripId, id); }
    forall id ensures IsMember(rows, id, actor) <==> OnTheTrip(rows, actor, id) { MemberExactly(rows, actor, id); }
    forall id ensures Administers(rows, id, actor) <==> RunsTrip(rows, actor, id) { RunsExactly(rows, actor, id); }
  }

  /** A rule lets a mutation through as it is exactly when it is allowed, and refuses it otherwise. */
  lemma JudgedExactly(reg: Registry, rows: Rows, m: Mutation, p: Partition)
    requires Personal(reg.guard(m.table)) && (reg.guard(m.table).SeriesOwned? ==> m.table.TripSeries?)
    requires reg.guard(m.table).TripMembership? ==> m.table.Trips?
    ensures Judge(reg, rows, m, p) ==
      if Allowed(reg.guard(m.table), rows, m, p.actor, p.Trip()) then Pass(m)
      else Refuse(if reg.guard(m.table).TravelerLink? then NotATripMember else NotAuthorized)
  {
    hide Parents, Linked, IsMember, Administers, OnTheTrip, RunsTrip, OwnsProfile, ProfileOwner, MayEditTrips, MayAdminister;
    match reg.guard(m.table)
    case ProfileOwned => OwnershipExactly(rows, m, p.actor, SeriesId);
    case ChecklistOwned => OwnershipExactly(rows, m, p.actor, ProfileId);
    case TripMembership =>
      MemberExactly(rows, p.actor, m.id);
      RunsExactly(rows, p.actor, m.id);
    case TripEditor => RostersExactly(rows, m, p.actor);
    case MemberAdministration =>
      RostersExactly(rows, m, p.actor);
      OwnerNamed(rows, m);
    case TravelerLink => MemberExactly(rows, AsText(LinkedUser(rows, m)), p.Trip());
    case IdeaComment => NamesNeither(m);
    case _ =>
  }

  lemma NamesNeither(m: Mutation)
    ensures {Body, EditedAt} * m.fields.Keys == {} <==> Body !in m.fields && EditedAt !in m.fields
  {
    var both := {Body, EditedAt} * m.fields.Keys;
    if both == {} { assert Body !in both && EditedAt !in both; }
  }

  lemma OwnerNamed(rows: Rows, m: Mutation)
    ensures Names(m, Role) == Some(ROLE_OWNER) || Cell(rows, KeyOf(m), Role) == Text(ROLE_OWNER) <==> Linked(rows, m, Role, ROLE_OWNER)
  {
  }

  // ------------------------------------------------------------------------ links

  /** A row of another trip is named. */
  predicate Foreign(rows: Rows, v: Value, t: Table, trip: string) {
    v.Text? && v.text != "" && Key(t, v.text) in rows && Cell(rows, Key(t, v.text), TripId) != Text(trip)
  }

  /** A row that is gone is named. */
  predicate Dangling(rows: Rows, v: Value, t: Table) {
    v.Text? && v.text != "" && Key(t, v.text) !in rows
  }

  /** A link to another trip is refused; one to a row that is gone is dropped; nothing else is touched. */
  lemma LinkExactly(rows: Rows, m: Mutation, c: Column, t: Table, trip: string)
    ensures JudgeLink(rows, m, c, t, trip) ==
      if Foreign(rows, Get(m.fields, c), t, trip) then Refuse(ConstraintViolated)
      else Pass(if Dangling(rows, Get(m.fields, c), t) then m.(fields := m.fields - {c}) else m)
  {
  }

  /** A parent is named that the trip does not have. */
  predicate Orphaned(rows: Rows, v: Value, t: Table, trip: string) {
    v.Text? && Cell(rows, Key(t, v.text), TripId) != Text(trip)
  }

  /** An end of an include, once the mutation is through, is a template of the kind. */
  predicate EndsIn(rows: Rows, m: Mutation, c: Column, kind: string) {
    var end := if Get(m.fields, c).Text? then Get(m.fields, c) else Cell(rows, KeyOf(m), c);
    end.Text? && end.text != "" && Cell(rows, Key(Templates, end.text), Kind) == Text(kind)
  }

  /** An include names the template at an end that its new kind does not allow. */
  ghost predicate Clashes(rows: Rows, id: string, kind: string) {
    exists k | k in rows && k.table.TemplateIncludes? ::
      Cell(rows, k, if kind == KIND_GROUP then TemplateId else IncludedTemplateId) == Text(id)
  }

  /** What the rules refuse that ask what a row hangs on. */
  ghost predicate Misfits(g: Guard, rows: Rows, m: Mutation, trip: string) {
    match g
    case NoteExcursion => Foreign(rows, Get(m.fields, ExcursionId), Excursions, trip)
    case IdeaResult => Foreign(rows, Get(m.fields, IdeaId), Ideas, trip)
    case IdeaLink => Orphaned(rows, Get(m.fields, IdeaId), Ideas, trip)
    case DayEntryTraveler =>
      Orphaned(rows, Get(m.fields, DayEntryId), DayEntries, trip) || Orphaned(rows, Get(m.fields, TravelerId), Travelers, trip)
    case IngredientMeal => Orphaned(rows, Get(m.fields, MealId), Meals, trip)
    case ValidInclude =>
      !m.op.Delete? && !(EndsIn(rows, m, TemplateId, KIND_TEMPLATE) && EndsIn(rows, m, IncludedTemplateId, KIND_GROUP))
    case ValidKindSwitch =>
      && KeyOf(m) in rows && !m.op.Delete? && Get(m.fields, Kind).Text? && Get(m.fields, Kind) != Cell(rows, KeyOf(m), Kind)
      && Clashes(rows, m.id, Get(m.fields, Kind).text)
    case _ => false
  }

  /** The column a rule drops where the row it names is gone. */
  function Unhooked(g: Guard, rows: Rows, m: Mutation): set<Column> {
    if g.NoteExcursion? && Dangling(rows, Get(m.fields, ExcursionId), Excursions) then {ExcursionId}
    else if g.IdeaResult? && Dangling(rows, Get(m.fields, IdeaId), Ideas) then {IdeaId}
    else {}
  }

  /** Those rules refuse exactly that, and drop a link to a row that is gone where a row may do without it. */
  lemma FittedExactly(reg: Registry, rows: Rows, m: Mutation, p: Partition)
    requires !Personal(reg.guard(m.table)) && !reg.guard(m.table).CommentRules?
    ensures var g := reg.guard(m.table);
      Judge(reg, rows, m, p) ==
        if Misfits(g, rows, m, p.Trip()) then Refuse(if g.ValidInclude? || g.ValidKindSwitch? then TemplateScope else ConstraintViolated)
        else Pass(m.(fields := m.fields - Unhooked(g, rows, m)))
  {
    hide Foreign, Dangling, JudgeLink, JudgeKindSwitch;
    match reg.guard(m.table)
    case NoteExcursion => LinkExactly(rows, m, ExcursionId, Excursions, p.Trip());
    case IdeaResult => LinkExactly(rows, m, IdeaId, Ideas, p.Trip());
    case ValidKindSwitch => SwitchExactly(rows, m);
    case _ =>
  }

  lemma SwitchExactly(rows: Rows, m: Mutation)
    ensures JudgeKindSwitch(rows, m) ==
      if KeyOf(m) in rows && !m.op.Delete? && Get(m.fields, Kind).Text? && Get(m.fields, Kind) != Cell(rows, KeyOf(m), Kind) &&
        Clashes(rows, m.id, Get(m.fields, Kind).text) then Refuse(TemplateScope) else Pass(m)
  {
  }

  // --------------------------------------------------------------------- comments

  /** On no packing row, and no task. */
  predicate ANote(fields: Fields) {
    (!Get(fields, TripItemId).Text? || Get(fields, TripItemId).text == "") && !Truthy(Get(fields, IsTask))
  }

  /** It answers another comment, or would. */
  predicate AReply(fields: Fields) {
    Get(fields, ParentId).Text? && Get(fields, ParentId).text != ""
  }

  /** The columns of a comment that hang on something else of the trip. */
  function LinkTable(c: Column): Option<Table> {
    match c
    case ExcursionId => Some(Excursions)
    case IdeaId => Some(Ideas)
    case DayEntryId => Some(DayEntries)
    case _ => None
  }

  /** A comment's thread is fixed once it is there; only a first note has a title and an excursion, and only a note an
      excursion at all. */
  predicate Keeps(rows: Rows, m: Mutation, c: Column) {
    var fields := if KeyOf(m) in rows then rows[KeyOf(m)].fields else m.fields;
    m.op.Delete? ||
      (&& (c.ParentId? ==> KeyOf(m) !in rows)
       && (c.Title? ==> !AReply(fields))
       && (c.ExcursionId? ==> !AReply(fields) && ANote(fields)))
  }

  /** What a comment's rules refuse: a task for a reply, another's words, an answer to what is no first note of the trip. */
  predicate Misplaced(rows: Rows, m: Mutation, trip: string) {
    !m.op.Delete? &&
    if KeyOf(m) in rows then AReply(rows[KeyOf(m)].fields) && Truthy(Get(m.fields, IsTask))
    else AReply(m.fields) && !(ANote(m.fields) && OpensThread(rows, Get(m.fields, ParentId).text, trip))
  }

  /** A comment of the trip, on no packing row, no task and no reply. */
  predicate OpensThread(rows: Rows, id: string, trip: string) {
    var k := Key(Comments, id);
    k in rows && Cell(rows, k, TripId) == Text(trip) && Cell(rows, k, TripItemId) == Null && Cell(rows, k, ParentId) == Null &&
    !Truthy(Cell(rows, k, IsTask))
  }

  predicate SpeaksForAnother(rows: Rows, m: Mutation, actor: string) {
    !m.op.Delete? && KeyOf(m) in rows && ANote(rows[KeyOf(m)].fields) && AsText(Cell(rows, KeyOf(m), AuthorId)) != actor &&
    exists c | c in m.fields && Keeps(rows, m, c) :: c in {Body, Title, EditedAt, ExcursionId}
  }

  /** The excursion counts for a note that opens a thread; on a delete nothing of it is asked. */
  predicate LinksAbroad(rows: Rows, m: Mutation, trip: string) {
    || (!m.op.Delete? && Keeps(rows, m, ExcursionId) && Foreign(rows, Get(m.fields, ExcursionId), Excursions, trip))
    || Foreign(rows, Get(m.fields, IdeaId), Ideas, trip) || Foreign(rows, Get(m.fields, DayEntryId), DayEntries, trip)
  }

  /** The columns the rules let through: kept by the thread, and hanging on nothing that is gone. */
  predicate Remains(rows: Rows, m: Mutation, c: Column) {
    && c in m.fields && Keeps(rows, m, c)
    && (LinkTable(c).Some? && !(m.op.Delete? && c.ExcursionId?) ==> !Dangling(rows, Get(m.fields, c), LinkTable(c).value))
  }

  /** What is left of an edit once the thread has stripped it. */
  function Stripped(m: Mutation, row: Row): Mutation {
    var m1 := Drop(m, ParentId);
    var m2 := if AReply(row.fields) then Drop(Drop(m1, Title), ExcursionId) else m1;
    if ANote(row.fields) then m2 else Drop(m2, ExcursionId)
  }

  lemma StrippedExactly(rows: Rows, m: Mutation, c: Column)
    requires KeyOf(m) in rows && !m.op.Delete?
    ensures c in Stripped(m, rows[KeyOf(m)]).fields <==> c in m.fields && Keeps(rows, m, c)
    ensures Get(Stripped(m, rows[KeyOf(m)]).fields, c) == if Keeps(rows, m, c) then Get(m.fields, c) else Null
    ensures KeyOf(Stripped(m, rows[KeyOf(m)])) == KeyOf(m)
  {
  }

  lemma TouchesExactly(some: set<Column>, fields: Fields)
    ensures some * fields.Keys != {} <==> exists c :: c in fields && c in some
  {
    if c :| c in fields && c in some { assert c in some * fields.Keys; }
  }

  /** The thread's rule on an edit: what it refuses, and what it strips. */
  lemma EditExactly(rows: Rows, m: Mutation, p: Partition)
    requires KeyOf(m) in rows && !m.op.Delete?
    ensures JudgeThread(rows, m, p).Refuse? <==>
      Misplaced(rows, m, p.Trip()) || SpeaksForAnother(rows, m, p.actor) ||
      (Keeps(rows, m, ExcursionId) && Foreign(rows, Get(m.fields, ExcursionId), Excursions, p.Trip()))
    ensures JudgeThread(rows, m, p).Pass? ==> forall c :: c in JudgeThread(rows, m, p).m.fields <==>
      c in m.fields && Keeps(rows, m, c) && (c.ExcursionId? ==> !Dangling(rows, Get(m.fields, c), Excursions))
  {
    hide Stripped, Keeps, Foreign, Dangling;
    var left := Stripped(m, rows[KeyOf(m)]);
    forall c ensures c in left.fields <==> c in m.fields && Keeps(rows, m, c) { StrippedExactly(rows, m, c); }
    StrippedExactly(rows, m, ExcursionId);
    TouchesExactly({Body, Title, EditedAt, ExcursionId}, left.fields);
    LinkExactly(rows, left, ExcursionId, Excursions, p.Trip());
    EditIsStripped(rows, m, p);
  }

  /** The rule spelled out over what is left. */
  lemma EditIsStripped(rows: Rows, m: Mutation, p: Partition)
    requires KeyOf(m) in rows && !m.op.Delete?
    ensures var row, left := rows[KeyOf(m)], Stripped(m, rows[KeyOf(m)]);
      JudgeThread(rows, m, p) ==
        if AReply(row.fields) && Truthy(Get(m.fields, IsTask)) then Refuse(ConstraintViolated)
        else if ANote(row.fields) && {Body, Title, EditedAt, ExcursionId} * left.fields.Keys != {} &&
          AsText(Get(row.fields, AuthorId)) != p.actor then Refuse(NotAuthorized)
        else JudgeLink(rows, left, ExcursionId, Excursions, p.Trip())
  {
    hide JudgeLink, Truthy;
    assert Get(Drop(Drop(Drop(m, ParentId), Title), ExcursionId).fields, IsTask) == Get(m.fields, IsTask);
  }

  /** The thread's rule on a new comment. */
  lemma NewExactly(rows: Rows, m: Mutation, p: Partition)
    requires KeyOf(m) !in rows && !m.op.Delete?
    ensures JudgeThread(rows, m, p).Refuse? <==>
      Misplaced(rows, m, p.Trip()) || (Keeps(rows, m, ExcursionId) && Foreign(rows, Get(m.fields, ExcursionId), Excursions, p.Trip()))
    ensures JudgeThread(rows, m, p).Pass? ==> forall c :: c in JudgeThread(rows, m, p).m.fields <==>
      c in m.fields && Keeps(rows, m, c) && (c.ExcursionId? ==> !Dangling(rows, Get(m.fields, c), Excursions))
  {
    hide Foreign, Dangling, Truthy;
    LinkExactly(rows, if ANote(m.fields) then m else Drop(m, ExcursionId), ExcursionId, Excursions, p.Trip());
    NoteExactly(rows, m, p.Trip());
  }

  lemma NoteExactly(rows: Rows, m: Mutation, trip: string)
    ensures IsNote(m.fields) <==> ANote(m.fields)
    ensures IsNote(Drop(Drop(m, Title), ExcursionId).fields) <==> ANote(m.fields)
    ensures FirstNote(rows, trip, AsText(Get(m.fields, ParentId))) <==> OpensThread(rows, AsText(Get(m.fields, ParentId)), trip)
  {
    hide Truthy;
    var less := Drop(Drop(m, Title), ExcursionId).fields;
    assert Get(less, TripItemId) == Get(m.fields, TripItemId) && Get(less, IsTask) == Get(m.fields, IsTask);
  }

  lemma ThreadExactly(rows: Rows, m: Mutation, p: Partition)
    ensures JudgeThread(rows, m, p).Refuse? <==>
      Misplaced(rows, m, p.Trip()) || SpeaksForAnother(rows, m, p.actor) ||
      (!m.op.Delete? && Keeps(rows, m, ExcursionId) && Foreign(rows, Get(m.fields, ExcursionId), Excursions, p.Trip()))
    ensures JudgeThread(rows, m, p).Pass? ==> forall c :: c in JudgeThread(rows, m, p).m.fields <==>
      c in m.fields && Keeps(rows, m, c) && (c.ExcursionId? && !m.op.Delete? ==> !Dangling(rows, Get(m.fields, c), Excursions))
  {
    hide Keeps, Foreign, Dangling, Misplaced, SpeaksForAnother, JudgeThread;
    if m.op.Delete? {
      DeletePasses(rows, m, p);
    } else if KeyOf(m) in rows {
      EditExactly(rows, m, p);
    } else {
      NewExactly(rows, m, p);
      SpeaksOfARow(rows, m, p.actor);
    }
  }

  lemma DeletePasses(rows: Rows, m: Mutation, p: Partition)
    requires m.op.Delete?
    ensures JudgeThread(rows, m, p) == Pass(m) && !Misplaced(rows, m, p.Trip()) && !SpeaksForAnother(rows, m, p.actor)
    ensures forall c: Column :: Keeps(rows, m, c)
  {
  }

  lemma SpeaksOfARow(rows: Rows, m: Mutation, actor: string)
    requires KeyOf(m) !in rows
    ensures !SpeaksForAnother(rows, m, actor)
  {
  }

  /** The two links judged after the thread, one after the other. */
  lemma TwoLinksExactly(rows: Rows, n: Mutation, trip: string)
    ensures var w := JudgeLink(rows, n, IdeaId, Ideas, trip);
      var v := if w.Refuse? then w else JudgeLink(rows, w.m, DayEntryId, DayEntries, trip);
      && (v.Refuse? <==> Foreign(rows, Get(n.fields, IdeaId), Ideas, trip) || Foreign(rows, Get(n.fields, DayEntryId), DayEntries, trip))
      && (v.Pass? ==> forall c :: c in v.m.fields <==>
           && c in n.fields && (c.IdeaId? ==> !Dangling(rows, Get(n.fields, c), Ideas))
           && (c.DayEntryId? ==> !Dangling(rows, Get(n.fields, c), DayEntries)))
  {
    hide Foreign, Dangling, JudgeLink;
    LinkExactly(rows, n, IdeaId, Ideas, trip);
    var w := JudgeLink(rows, n, IdeaId, Ideas, trip);
    if w.Pass? { LinkExactly(rows, w.m, DayEntryId, DayEntries, trip); }
  }

  /** A comment is refused exactly for one of three reasons, and otherwise loses exactly what its thread does not keep and
      what hangs on a row that is gone. */
  lemma CommentExactly(rows: Rows, m: Mutation, p: Partition)
    ensures JudgeComment(rows, m, p).Refuse? <==>
      Misplaced(rows, m, p.Trip()) || SpeaksForAnother(rows, m, p.actor) || LinksAbroad(rows, m, p.Trip())
    ensures JudgeComment(rows, m, p).Pass? ==> forall c ::
      c in JudgeComment(rows, m, p).m.fields <==> Remains(rows, m, c)
  {
    hide Foreign, Dangling, Misplaced, SpeaksForAnother, JudgeThread, JudgeLink, Keeps, Remains;
    ThreadExactly(rows, m, p);
    AlwaysKept(rows, m);
    if JudgeThread(rows, m, p).Pass? {
      var n := JudgeThread(rows, m, p).m;
      ThreadIsSound(rows, m, p);
      assert Get(n.fields, IdeaId) == Get(m.fields, IdeaId) && Get(n.fields, DayEntryId) == Get(m.fields, DayEntryId);
      TwoLinksExactly(rows, n, p.Trip());
      forall c: Column
        ensures Remains(rows, m, c) <==>
          && c in n.fields && (c.IdeaId? ==> !Dangling(rows, Get(n.fields, c), Ideas))
          && (c.DayEntryId? ==> !Dangling(rows, Get(n.fields, c), DayEntries))
      {
        RemainsExactly(rows, m, n, c);
      }
    }
  }

  lemma RemainsExactly(rows: Rows, m: Mutation, n: Mutation, c: Column)
    requires c in n.fields ==> c in m.fields && n.fields[c] == m.fields[c]
    requires c in n.fields <==>
      c in m.fields && Keeps(rows, m, c) && (c.ExcursionId? && !m.op.Delete? ==> !Dangling(rows, Get(m.fields, c), Excursions))
    ensures Remains(rows, m, c) <==>
      && c in n.fields && (c.IdeaId? ==> !Dangling(rows, Get(n.fields, c), Ideas))
      && (c.DayEntryId? ==> !Dangling(rows, Get(n.fields, c), DayEntries))
  {
    hide Keeps, Dangling;
  }

  lemma AlwaysKept(rows: Rows, m: Mutation)
    ensures forall c: Column | !c.ParentId? && !c.Title? && !c.ExcursionId? :: Keeps(rows, m, c)
  {
  }

  // ------------------------------------------------------------ the partition's gate

  /** A mutation that is no business of the trip it is pushed to: its row is another's, it names another, or it is new and
      names none. */
  predicate Strays(rows: Rows, m: Mutation, trip: string) {
    || (KeyOf(m) in rows && AsText(Cell(rows, KeyOf(m), TripId)) != trip)
    || (Get(m.fields, TripId).Text? && Get(m.fields, TripId) != Text(trip))
    || (KeyOf(m) !in rows && !m.op.Delete? && !Get(m.fields, TripId).Text?)
  }

  /** Some row uses the item: one that a delete would be refused for, or a dependency on another item. */
  predicate Used(reg: Registry, rows: Rows, id: string) {
    exists k | k in rows ::
      || (exists r | r in reg.blockers(Items) :: k.table == r.table && Cell(rows, k, r.column) == Text(id))
      || (k.table.ItemDependencies? && Cell(rows, k, ItemId) == Text(id) &&
           Cell(rows, k, DependsOnItemId).Text? && Cell(rows, k, DependsOnItemId).text != id)
  }

  lemma UsedExactly(reg: Registry, rows: Rows, id: string)
    ensures ItemInUse(reg, rows, id) <==> Used(reg, rows, id)
  {
    if ItemInUse(reg, rows, id) {
      if r :| r in reg.blockers(Items) && Referenced(rows, r, id, None) {
        var k :| k in rows && k.table == r.table && Cell(rows, k, r.column) == Text(id);
      }
    }
    if k :| k in rows && exists r | r in reg.blockers(Items) :: k.table == r.table && Cell(rows, k, r.column) == Text(id) {
      var r :| r in reg.blockers(Items) && k.table == r.table && Cell(rows, k, r.column) == Text(id);
      assert Referenced(rows, r, id, None);
    }
  }

  /** The gate asks where the mutation belongs, then the table's rule, and of a prune whether anything uses the item. */
  lemma ScopedExactly(reg: Registry, rows: Rows, m: Mutation, p: Partition)
    ensures Scope(reg, rows, m, p) ==
      if p.feed.TripFeed? && Strays(rows, m, p.feed.trip) then Refuse(OutOfScope)
      else if Judge(reg, rows, m, p).Pass? && p.prune && Used(reg, rows, m.id) then Refuse(StillReferenced)
      else Judge(reg, rows, m, p)
  {
    hide Judge, ItemInUse, Used;
    JudgeIsSound(reg, rows, m, p);
    UsedExactly(reg, rows, m.id);
  }

  // ------------------------------------------------------------------ once it lands

  /** A column is as it was. */
  predicate Unmoved(a: Rows, b: Rows, k: Key, c: Column) {
    Cell(b, k, c) == Cell(a, k, c)
  }

  /** The row hung on the parent before, or does now. */
  predicate Hung(a: Rows, b: Rows, k: Key, c: Column, id: string) {
    Cell(a, k, c) == Text(id) || Cell(b, k, c) == Text(id)
  }

  /** What the tables show of a rule that was kept: whose a row was that a step wrote or took, what it hung on before and
      hangs on now, and what of it no other than its author may move. */
  ghost predicate Rightful(g: Guard, a: Rows, b: Rows, k: Key, actor: string, trip: string) {
    match g
    case SeriesOwned => k in a ==> OwnsSeries(a, actor, k.id)
    case ProfileOwned => forall id | Hung(a, b, k, SeriesId, id) :: OwnsSeries(a, actor, id)
    case ChecklistOwned => forall id | Hung(a, b, k, ProfileId, id) :: OwnsProfile(a, actor, id)
    case TripMembership => k in a ==> OnTheTrip(a, actor, k.id) && (k !in b ==> RunsTrip(a, actor, k.id))
    case TripEditor => forall id | Hung(a, b, k, TripId, id) :: OnTheTrip(a, actor, id)
    case MemberAdministration =>
      (forall id | Hung(a, b, k, TripId, id) :: RunsTrip(a, actor, id)) && !Hung(a, b, k, Role, ROLE_OWNER)
    case IdeaVote => k in a ==> AsText(Cell(a, k, UserId)) == actor
    case IdeaComment =>
      k in a && k in b && AsText(Cell(a, k, AuthorId)) != actor ==> Unmoved(a, b, k, Body) && Unmoved(a, b, k, EditedAt)
    case IdeaImage => k in b ==> k in a && forall c | c != Position :: Unmoved(a, b, k, c)
    case Track =>
      k in b ==> k in a && forall c | c !in {Name, Kind, WithKid, PauseMin, Position} :: Unmoved(a, b, k, c)
    case TravelerLink =>
      k in b && k in a && !Unmoved(a, b, k, LinkedUserId) && AsText(Cell(b, k, LinkedUserId)) != "" ==>
        OnTheTrip(a, AsText(Cell(b, k, LinkedUserId)), trip)
    case CommentRules =>
      k in a && k in b ==>
        && Unmoved(a, b, k, ParentId)
        && (AReply(a[k].fields) ==> Unmoved(a, b, k, Title) && Unmoved(a, b, k, ExcursionId))
        && (ANote(a[k].fields) && AsText(Cell(a, k, AuthorId)) != actor ==>
             Unmoved(a, b, k, Body) && Unmoved(a, b, k, Title) && Unmoved(a, b, k, EditedAt) && Unmoved(a, b, k, ExcursionId))
    case _ => true
  }

  /** What the gate was asked about: the stamped mutation, and that its rule let `m` through. */
  lemma RuleLets(reg: Registry, a: Rows, p: Partition, w: Env, sent: Mutation, m: Mutation) returns (m1: Mutation)
    requires PassedGate(reg, a, p, w, sent, m)
    ensures KeyOf(m1) == KeyOf(m) && m1.op == m.op
    ensures Judge(reg, a, m1, p).Pass? && Judge(reg, a, m1, p).m == m.(hlc := m1.hlc)
    ensures m.fields.Keys <= m1.fields.Keys && forall c | c in m.fields :: m.fields[c] == m1.fields[c]
  {
    hide Judge, StampOwned;
    m1 := StampOwned(reg.stamp(sent.table), sent, KeyOf(sent) in a, p.actor, w);
    GateLets(reg, a, p, w, sent, m);
    StampKeeps(reg.stamp(sent.table), sent, KeyOf(sent) in a, p.actor, w);
  }

  /** A column of the row a step wrote, or took: gone, as it was, what the mutation names, or a new row's default. */
  predicate LeavesAt(reg: Registry, a: Rows, b: Rows, m: Mutation, c: Column) {
    || KeyOf(m) !in b
    || (KeyOf(m) in a && Unmoved(a, b, KeyOf(m), c))
    || (c in m.fields && Cell(b, KeyOf(m), c) == Stored(m.fields[c]))
    || (KeyOf(m) !in a && c !in m.fields && Cell(b, KeyOf(m), c) == Get(reg.defaults(m.table), c))
  }

  ghost predicate Leaves(reg: Registry, a: Rows, b: Rows, m: Mutation) {
    && (m.op.Delete? ==> KeyOf(m) !in b)
    && forall c {:trigger LeavesAt(reg, a, b, m, c)} {:trigger Cell(b, KeyOf(m), c)} :: LeavesAt(reg, a, b, m, c)
  }

  lemma WriteLeaves(reg: Registry, a: Rows, p: Partition, w: Env, m: Mutation)
    requires !m.op.Delete?
    ensures Leaves(reg, a, Written(reg, a, p, w, m), m)
  {
    hide Written, RowAfter, Wins;
    WrittenRows(reg, a, p, w, m, KeyOf(m));
    forall c ensures LeavesAt(reg, a, Written(reg, a, p, w, m), m, c) { WrittenCell(reg, a, m, c); }
  }

  /** What the row hangs on now the mutation named, or it hung on it before. */
  lemma HungIsNamed(reg: Registry, a: Rows, b: Rows, m: Mutation, m1: Mutation, c: Column, id: string)
    requires Leaves(reg, a, b, m) && KeyOf(m1) == KeyOf(m) && m.fields == m1.fields
    requires Hung(a, b, KeyOf(m), c, id) && exists other :: Linked(a, m1, c, other)
    ensures Linked(a, m1, c, id)
  {
    assert LeavesAt(reg, a, b, m, c);
  }

  /** What the rules of authority come to. */
  lemma AllowedIsRightful(reg: Registry, g: Guard, a: Rows, b: Rows, m: Mutation, m1: Mutation, actor: string, trip: string)
    requires Personal(g) && Allowed(g, a, m1, actor, trip) && Leaves(reg, a, b, m)
    requires KeyOf(m1) == KeyOf(m) && m1.op == m.op && m.fields == m1.fields
    requires g.SeriesOwned? ==> m.table.TripSeries?
    requires g.TripMembership? && KeyOf(m) !in b ==> m.op.Delete? || KeyOf(m) !in a
    requires g.MemberAdministration? ==> Get(reg.defaults(m.table), Role) != Text(ROLE_OWNER)
    ensures Rightful(g, a, b, KeyOf(m), actor, trip)
  {
    hide OwnsProfile, OnTheTrip, RunsTrip, Leaves;
    var k := KeyOf(m);
    match g
    case ProfileOwned =>
      forall id | Hung(a, b, k, SeriesId, id) ensures Linked(a, m1, SeriesId, id) { HungIsNamed(reg, a, b, m, m1, SeriesId, id); }
    case ChecklistOwned =>
      forall id | Hung(a, b, k, ProfileId, id) ensures Linked(a, m1, ProfileId, id) { HungIsNamed(reg, a, b, m, m1, ProfileId, id); }
    case TripEditor =>
      forall id | Hung(a, b, k, TripId, id) ensures Linked(a, m1, TripId, id) { HungIsNamed(reg, a, b, m, m1, TripId, id); }
    case MemberAdministration =>
      forall id | Hung(a, b, k, TripId, id) ensures Linked(a, m1, TripId, id) { HungIsNamed(reg, a, b, m, m1, TripId, id); }
      LeavesEach(reg, a, b, m, Role);
    case IdeaComment =>
      LeavesEach(reg, a, b, m, Body);
      LeavesEach(reg, a, b, m, EditedAt);
    case IdeaImage => LeavesOthers(reg, a, b, m, {Position});
    case Track => LeavesOthers(reg, a, b, m, {Name, Kind, WithKid, PauseMin, Position});
    case TravelerLink => LeavesEach(reg, a, b, m, LinkedUserId);
    case _ =>
  }

  lemma LeavesEach(reg: Registry, a: Rows, b: Rows, m: Mutation, c: Column)
    requires Leaves(reg, a, b, m)
    ensures LeavesAt(reg, a, b, m, c) && (m.op.Delete? ==> KeyOf(m) !in b)
  {
  }

  lemma LeavesOthers(reg: Registry, a: Rows, b: Rows, m: Mutation, settings: set<Column>)
    requires Leaves(reg, a, b, m) && (m.op.Delete? || (KeyOf(m) in a && m.fields.Keys <= settings))
    ensures KeyOf(m) in b ==> KeyOf(m) in a && forall c | c !in settings :: Unmoved(a, b, KeyOf(m), c)
  {
    forall c: Column | c !in settings && KeyOf(m) in b ensures Unmoved(a, b, KeyOf(m), c) { assert LeavesAt(reg, a, b, m, c); }
  }

  /** What a comment's rules come to. */
  lemma CommentIsRightful(reg: Registry, a: Rows, b: Rows, m: Mutation, m1: Mutation, p: Partition)
    requires JudgeComment(a, m1, p).Pass? && Leaves(reg, a, b, m) && KeyOf(m1) == KeyOf(m) && m1.op == m.op
    requires m.fields == JudgeComment(a, m1, p).m.fields
    ensures Rightful(CommentRules, a, b, KeyOf(m), p.actor, p.Trip())
  {
    hide JudgeComment, Misplaced, LinksAbroad, Leaves, Dangling;
    CommentExactly(a, m1, p);
    forall c: Column ensures c in m.fields <==> Remains(a, m1, c) { }
    LeavesEach(reg, a, b, m, ParentId);
    LeavesEach(reg, a, b, m, Title);
    LeavesEach(reg, a, b, m, Body);
    LeavesEach(reg, a, b, m, EditedAt);
    LeavesEach(reg, a, b, m, ExcursionId);
  }

  /** The tables each rule is the rule of. */
  function Governed(g: Guard): set<Table> {
    match g
    case SeriesOwned => {TripSeries}
    case ProfileOwned => {DestinationProfiles}
    case ChecklistOwned => {DestinationChecklistItems, DestinationTasks}
    case TripMembership => {Trips}
    case MemberAdministration => {TripMembers}
    case TripEditor => {TripTemplateSources, TripAppliedChanges}
    case ValidInclude => {TemplateIncludes}
    case ValidKindSwitch => {Templates}
    case TravelerLink => {Travelers}
    case CommentRules => {Comments}
    case NoteExcursion => {DayEntries, Meals}
    case IdeaResult => {ShoppingEntries, Excursions}
    case IdeaVote => {IdeaVotes}
    case IdeaComment => {IdeaComments}
    case IdeaImage => {IdeaImages}
    case IdeaLink => {IdeaLinks}
    case Track => {IdeaTracks, ExcursionTracks}
    case DayEntryTraveler => {DayEntryTravelers}
    case IngredientMeal => {MealIngredients}
    case Unguarded =>
      {Tags, TaskTags, ItemTags, Items, ItemDependencies, TemplateItems, TemplateItemTasks, TemplateTasks} +
      {TripItems, Containers, NoteAcks, ExcursionTravelers, ExcursionItems, Ideas, TripGeneratedPositions}
  }

  /** Every table has its rule, and a new membership is no owner's by default. */
  ghost predicate Ruled(reg: Registry) {
    && (forall t: Table {:trigger reg.guard(t)} :: t in Governed(reg.guard(t)))
    && Get(reg.defaults(TripMembers), Role) != Text(ROLE_OWNER)
  }

  /** The act of a step that the gate let through. */
  predicate ActsByGate(s: Step) {
    s.act.Removed? || (s.act.Wrote? && s.act.source.Gated?)
  }

  lemma StepLeaves(reg: Registry, a: Rows, b: Rows, s: Step)
    requires Acted(reg, a, b, s) && ActsByGate(s)
    ensures Leaves(reg, a, b, s.act.m) && PassedGate(reg, a, s.p, s.act.w, s.act.sent, s.act.m)
    ensures s.act.m.op.Delete? <==> s.act.Removed?
    ensures s.act.Wrote? ==> KeyOf(s.act.m) in b
  {
    hide Written, AfterChange, Blocked, PassedGate, Tombstones, Relogged, Doomed;
    if s.act.Wrote? {
      WriteLeaves(reg, a, s.p, s.act.w, s.act.m);
      WrittenRows(reg, a, s.p, s.act.w, s.act.m, KeyOf(s.act.m));
    } else {
      DoomedIsClosed(reg, a, {KeyOf(s.act.m)});
      forall c: Column ensures LeavesAt(reg, a, b, s.act.m, c) { }
    }
  }

  /** Whatever a push or a revert writes or takes, the tables show that its actor had the right. */
  lemma StepIsRightful(reg: Registry, a: Rows, b: Rows, s: Step)
    requires Ruled(reg) && Acted(reg, a, b, s) && ActsByGate(s)
    ensures Rightful(reg.guard(s.act.m.table), a, b, KeyOf(s.act.m), s.p.actor, s.p.Trip())
  {
    hide Acted, PassedGate, Leaves, Judge, Rightful, Allowed, JudgeComment;
    var m, g := s.act.m, reg.guard(s.act.m.table);
    StepLeaves(reg, a, b, s);
    var m1 := RuleLets(reg, a, s.p, s.act.w, s.act.sent, m);
    if Personal(g) {
      JudgedExactly(reg, a, m1, s.p);
      AllowedIsRightful(reg, g, a, b, m, m1, s.p.actor, s.p.Trip());
    } else if g.CommentRules? {
      JudgedAsComment(reg, a, m1, s.p);
      CommentIsRightful(reg, a, b, m, m1, s.p);
    } else {
      OthersAreRightful(g, a, b, KeyOf(m), s.p.actor, s.p.Trip());
    }
  }

  lemma JudgedAsComment(reg: Registry, rows: Rows, m: Mutation, p: Partition)
    requires reg.guard(m.table).CommentRules?
    ensures Judge(reg, rows, m, p) == JudgeComment(rows, m, p)
  {
    hide JudgeComment;
  }

  lemma OthersAreRightful(g: Guard, a: Rows, b: Rows, k: Key, actor: string, trip: string)
    requires !Personal(g) && !g.CommentRules?
    ensures Rightful(g, a, b, k, actor, trip)
  {
  }
}
