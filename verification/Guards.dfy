// The write gate of the two partitions: trip confinement, then the table's own
// rule (internal/store/guard.go, pipeline.go, master.go, notethreads.go,
// meals.go, dayentries.go, planner.go, travelers.go, master_prune_item.go).
module Guards {
  import opened Values
  import opened Vocabulary
  import opened Merging
  import opened Registry
  import opened Database
  import opened Stamping

  /** A push's partition: its feed, its actor, and whether it is a prune. */
  datatype Partition = Partition(feed: Feed, actor: string, prune: bool) {
    /** The trip whose endpoint was called; empty on the master partition. */
    function Trip(): string {
      if feed.TripFeed? then feed.trip else ""
    }
    predicate RelogsScopeRefusals() {
      feed.MasterFeed? && !prune
    }
    predicate Retires(reg: Registry, t: Table) {
      feed.MasterFeed? && !prune && reg.retirable(t)
    }
  }

  /** A rule's answer: a refusal, or the mutation with the fields it stripped gone. */
  datatype Verdict = Refuse(reason: Reason) | Pass(m: Mutation)

  function KeyOf(m: Mutation): Key {
    Key(m.table, m.id)
  }

  function Authorized(ok: bool, m: Mutation): Verdict {
    if ok then Pass(m) else Refuse(NotAuthorized)
  }

  function Drop(m: Mutation, c: Column): Mutation {
    m.(fields := m.fields - {c})
  }

  /** The text the mutation names for a column, if it names one. */
  function Names(m: Mutation, c: Column): Option<string> {
    if c in m.fields && m.fields[c].Text? then Some(m.fields[c].text) else None
  }

  // ------------------------------------------------------------ permission rules

  predicate Membership(rows: Rows, k: Key, trip: string, user: string) {
    k in rows && k.table.TripMembers? && Cell(rows, k, TripId) == Text(trip) && Cell(rows, k, UserId) == Text(user)
  }

  /** The user's roles on a trip; a UNIQUE constraint leaves at most one. */
  function Roles(rows: Rows, trip: string, user: string): set<Value> {
    set k | k in rows && Membership(rows, k, trip, user) :: Cell(rows, k, Role)
  }

  predicate IsMember(rows: Rows, trip: string, user: string) {
    exists k | k in rows :: Membership(rows, k, trip, user)
  }

  predicate Administers(rows: Rows, trip: string, user: string) {
    Text(ROLE_OWNER) in Roles(rows, trip, user) || Text(ROLE_ADMIN) in Roles(rows, trip, user)
  }

  /** The parents a child row has and the mutation would give it. */
  function Parents(rows: Rows, m: Mutation, c: Column): set<string> {
    (if Cell(rows, KeyOf(m), c).Text? then {Cell(rows, KeyOf(m), c).text} else {}) +
    (if Names(m, c).Some? then {Names(m, c).value} else {})
  }

  function SeriesOwner(rows: Rows, series: string): Value {
    Cell(rows, Key(TripSeries, series), OwnerId)
  }

  function ProfileOwner(rows: Rows, profile: string): Value {
    var series := Cell(rows, Key(DestinationProfiles, profile), SeriesId);
    if series.Text? then SeriesOwner(rows, series.text) else Null
  }

  predicate MayEditTrips(rows: Rows, trips: set<string>, user: string) {
    trips != {} && forall t | t in trips :: IsMember(rows, t, user)
  }

  predicate MayAdminister(rows: Rows, trips: set<string>, user: string) {
    trips != {} && forall t | t in trips :: Administers(rows, t, user)
  }

  function JudgeTrip(rows: Rows, m: Mutation, actor: string): Verdict {
    if KeyOf(m) !in rows then Pass(m)
    else if !IsMember(rows, m.id, actor) then Refuse(NotAuthorized)
    else Authorized(!m.op.Delete? || Administers(rows, m.id, actor), m)
  }

  function JudgeMember(rows: Rows, m: Mutation, actor: string): Verdict {
    if Names(m, Role) == Some(ROLE_OWNER) || Cell(rows, KeyOf(m), Role) == Text(ROLE_OWNER) then Refuse(NotAuthorized)
    else Authorized(MayAdminister(rows, Parents(rows, m, TripId), actor), m)
  }

  // ------------------------------------------------------------ structural rules

  /** The value the row will read, taken from the mutation before the row. */
  function Incoming(rows: Rows, m: Mutation, c: Column): string {
    if Names(m, c).Some? then Names(m, c).value else AsText(Cell(rows, KeyOf(m), c))
  }

  predicate HasKind(rows: Rows, id: string, kind: string) {
    Cell(rows, Key(Templates, id), Kind) == Text(kind)
  }

  function JudgeInclude(rows: Rows, m: Mutation): Verdict {
    var parent, child := Incoming(rows, m, TemplateId), Incoming(rows, m, IncludedTemplateId);
    if m.op.Delete? || (parent != "" && child != "" && HasKind(rows, parent, KIND_TEMPLATE) && HasKind(rows, child, KIND_GROUP))
    then Pass(m) else Refuse(TemplateScope)
  }

  /** An include edge leaves or enters the template. */
  predicate Included(rows: Rows, c: Column, id: string) {
    exists k | k in rows :: k.table.TemplateIncludes? && Cell(rows, k, c) == Text(id)
  }

  function JudgeKindSwitch(rows: Rows, m: Mutation): Verdict {
    var kind := Names(m, Kind);
    if KeyOf(m) !in rows || m.op.Delete? || kind.None? || Cell(rows, KeyOf(m), Kind) == Text(kind.value) then Pass(m)
    else if Included(rows, if kind.value == KIND_GROUP then TemplateId else IncludedTemplateId, m.id) then Refuse(TemplateScope)
    else Pass(m)
  }

  function TripOf(rows: Rows, k: Key): Value {
    Cell(rows, k, TripId)
  }

  /** A named row must be the trip's own; one that is gone drops the link. */
  function JudgeLink(rows: Rows, m: Mutation, c: Column, t: Table, trip: string): Verdict {
    var id := Names(m, c);
    if id.None? || id.value == "" then Pass(m)
    else if Key(t, id.value) !in rows then Pass(Drop(m, c))
    else if TripOf(rows, Key(t, id.value)) != Text(trip) then Refuse(ConstraintViolated)
    else Pass(m)
  }

  /** A named parent must be there and the trip's own. */
  predicate ParentInTrip(rows: Rows, m: Mutation, c: Column, t: Table, trip: string) {
    Names(m, c).Some? ==>
      Key(t, Names(m, c).value) in rows && TripOf(rows, Key(t, Names(m, c).value)) == Text(trip)
  }

  function JudgeParent(ok: bool, m: Mutation): Verdict {
    if ok then Pass(m) else Refuse(ConstraintViolated)
  }

  predicate IsNote(fields: Fields) {
    AsText(Get(fields, TripItemId)) == "" && !Truthy(Get(fields, IsTask))
  }

  /** A trip-level comment of the trip that is neither a task nor a reply. */
  predicate FirstNote(rows: Rows, trip: string, id: string) {
    var k := Key(Comments, id);
    k in rows && TripOf(rows, k) == Text(trip) && Cell(rows, k, TripItemId) == Null &&
    !Truthy(Cell(rows, k, IsTask)) && Cell(rows, k, ParentId) == Null
  }

  function JudgeExcursion(rows: Rows, m: Mutation, trip: string): Verdict {
    JudgeLink(rows, m, ExcursionId, Excursions, trip)
  }

  /** An edit of a comment: the thread is fixed, and a note's words are its author's. */
  function JudgeNoteEdit(rows: Rows, m: Mutation, row: Row, p: Partition): Verdict {
    var m1 := Drop(m, ParentId);
    var reply := AsText(Get(row.fields, ParentId)) != "";
    var m2 := if reply then Drop(Drop(m1, Title), ExcursionId) else m1;
    if reply && Truthy(Get(m2.fields, IsTask)) then Refuse(ConstraintViolated)
    else
      var note := IsNote(row.fields);
      var m3 := if note then m2 else Drop(m2, ExcursionId);
      if note && {Body, Title, EditedAt, ExcursionId} * m3.fields.Keys != {} && AsText(Get(row.fields, AuthorId)) != p.actor
      then Refuse(NotAuthorized)
      else JudgeExcursion(rows, m3, p.Trip())
  }

  /** A new comment: a reply names a first note of the trip and carries no title. */
  function JudgeNewNote(rows: Rows, m: Mutation, p: Partition): Verdict {
    var parent := AsText(Get(m.fields, ParentId));
    if parent == "" then JudgeExcursion(rows, if IsNote(m.fields) then m else Drop(m, ExcursionId), p.Trip())
    else
      var m1 := Drop(Drop(m, Title), ExcursionId);
      JudgeParent(IsNote(m1.fields) && FirstNote(rows, p.Trip(), parent), m1)
  }

  function JudgeThread(rows: Rows, m: Mutation, p: Partition): Verdict {
    if m.op.Delete? then Pass(m)
    else if KeyOf(m) in rows then JudgeNoteEdit(rows, m, rows[KeyOf(m)], p)
    else JudgeNewNote(rows, m, p)
  }

  /** The comment table's three rules, each seeing what the one before it left. */
  function JudgeComment(rows: Rows, m: Mutation, p: Partition): Verdict {
    var v := JudgeThread(rows, m, p);
    if v.Refuse? then v
    else
      var w := JudgeLink(rows, v.m, IdeaId, Ideas, p.Trip());
      if w.Refuse? then w else JudgeLink(rows, w.m, DayEntryId, DayEntries, p.Trip())
  }

  function JudgeTraveler(rows: Rows, m: Mutation, trip: string): Verdict {
    var linked := AsText(if LinkedUserId in m.fields then m.fields[LinkedUserId] else Cell(rows, KeyOf(m), LinkedUserId));
    if linked == "" || IsMember(rows, trip, linked) then Pass(m) else Refuse(NotATripMember)
  }

  /** An upload creates the row with its file; a push may only change `settings`. */
  function JudgeUpload(rows: Rows, m: Mutation, settings: set<Column>): Verdict {
    Authorized(m.op.Delete? || (KeyOf(m) in rows && m.fields.Keys <= settings), m)
  }

  /** The table's own rule. */
  function Judge(reg: Registry, rows: Rows, m: Mutation, p: Partition): Verdict {
    var k, trip := KeyOf(m), p.Trip();
    match reg.guard(m.table)
    case Unguarded => Pass(m)
    case SeriesOwned => Authorized(k !in rows || Cell(rows, k, OwnerId) == Text(p.actor), m)
    case ProfileOwned =>
      var parents := Parents(rows, m, SeriesId);
      Authorized(parents != {} && forall id | id in parents :: SeriesOwner(rows, id) == Text(p.actor), m)
    case ChecklistOwned =>
      var parents := Parents(rows, m, ProfileId);
      Authorized(parents != {} && forall id | id in parents :: ProfileOwner(rows, id) == Text(p.actor), m)
    case TripMembership => JudgeTrip(rows, m, p.actor)
    case TripEditor => Authorized(MayEditTrips(rows, Parents(rows, m, TripId), p.actor), m)
    case MemberAdministration => JudgeMember(rows, m, p.actor)
    case ValidInclude => JudgeInclude(rows, m)
    case ValidKindSwitch => JudgeKindSwitch(rows, m)
    case TravelerLink => JudgeTraveler(rows, m, trip)
    case CommentRules => JudgeComment(rows, m, p)
    case NoteExcursion => JudgeExcursion(rows, m, trip)
    case IdeaResult => JudgeLink(rows, m, IdeaId, Ideas, trip)
    case IdeaVote => Authorized(k !in rows || AsText(Cell(rows, k, UserId)) == p.actor, m)
    case IdeaComment =>
      Authorized(k !in rows || m.op.Delete? || {Body, EditedAt} * m.fields.Keys == {} ||
        AsText(Cell(rows, k, AuthorId)) == p.actor, m)
    case IdeaImage => JudgeUpload(rows, m, {Position})
    case Track => JudgeUpload(rows, m, {Name, Kind, WithKid, PauseMin, Position})
    case IdeaLink => JudgeParent(ParentInTrip(rows, m, IdeaId, Ideas, trip), m)
    case DayEntryTraveler =>
      JudgeParent(ParentInTrip(rows, m, DayEntryId, DayEntries, trip) && ParentInTrip(rows, m, TravelerId, Travelers, trip), m)
    case IngredientMeal => JudgeParent(ParentInTrip(rows, m, MealId, Meals, trip), m)
  }

  // ------------------------------------------------------- the partition's gate

  /** The row is the trip's and the mutation names no other; a new row must name it. */
  predicate BelongsToTrip(rows: Rows, m: Mutation, trip: string) {
    && (KeyOf(m) in rows ==> AsText(TripOf(rows, KeyOf(m))) == trip)
    && (Names(m, TripId).Some? ==> Names(m, TripId).value == trip)
    && (KeyOf(m) !in rows && !m.op.Delete? ==> Names(m, TripId).Some?)
  }

  /** Something other than the item itself still uses it. */
  predicate ItemInUse(reg: Registry, rows: Rows, id: string) {
    || (exists r | r in reg.blockers(Items) :: Referenced(rows, r, id, None))
    || (exists k | k in rows :: k.table.ItemDependencies? && Cell(rows, k, ItemId) == Text(id) &&
         Cell(rows, k, DependsOnItemId).Text? && Cell(rows, k, DependsOnItemId) != Text(id))
  }

  /** Some row, `self` aside, names the id in the reference's column. */
  predicate Referenced(rows: Rows, r: Reference, id: string, self: Option<Key>) {
    exists k | k in rows :: k.table == r.table && Cell(rows, k, r.column) == Text(id) && self != Some(k)
  }

  function Scope(reg: Registry, rows: Rows, m: Mutation, p: Partition): Verdict {
    if p.feed.TripFeed? && !BelongsToTrip(rows, m, p.feed.trip) then Refuse(OutOfScope)
    else
      var v := Judge(reg, rows, m, p);
      if v.Pass? && p.prune && ItemInUse(reg, rows, v.m.id) then Refuse(StillReferenced) else v
  }

  /** A gate strips fields from the mutation and changes nothing else. */
  predicate Narrows(narrow: Mutation, m: Mutation) {
    narrow == m.(fields := narrow.fields) && narrow.fields.Keys <= m.fields.Keys &&
    forall c | c in narrow.fields :: narrow.fields[c] == m.fields[c]
  }

  /** What every rule's answer has in common. */
  predicate Sound(v: Verdict, m: Mutation) {
    v != Refuse(Granted) && (v.Pass? ==> Narrows(v.m, m))
  }

  lemma DroppingNarrows(m: Mutation, c: Column)
    ensures Narrows(m, m) && Narrows(Drop(m, c), m)
  {
  }

  lemma LinkIsSound(rows: Rows, m: Mutation, c: Column, t: Table, trip: string)
    ensures Sound(JudgeLink(rows, m, c, t, trip), m)
  {
    hide Narrows, Drop;
    DroppingNarrows(m, c);
  }

  lemma ThreadIsSound(rows: Rows, m: Mutation, p: Partition)
    ensures Sound(JudgeThread(rows, m, p), m)
  {
    if !m.op.Delete? && KeyOf(m) in rows {
      var row, m1 := rows[KeyOf(m)], Drop(m, ParentId);
      var m2 := if AsText(Get(row.fields, ParentId)) != "" then Drop(Drop(m1, Title), ExcursionId) else m1;
      LinkIsSound(rows, if IsNote(row.fields) then m2 else Drop(m2, ExcursionId), ExcursionId, Excursions, p.Trip());
    } else if !m.op.Delete? && AsText(Get(m.fields, ParentId)) == "" {
      LinkIsSound(rows, if IsNote(m.fields) then m else Drop(m, ExcursionId), ExcursionId, Excursions, p.Trip());
    }
  }

  lemma CommentIsSound(rows: Rows, m: Mutation, p: Partition)
    ensures Sound(JudgeComment(rows, m, p), m)
  {
    ThreadIsSound(rows, m, p);
    var v := JudgeThread(rows, m, p);
    if v.Pass? {
      LinkIsSound(rows, v.m, IdeaId, Ideas, p.Trip());
      var w := JudgeLink(rows, v.m, IdeaId, Ideas, p.Trip());
      if w.Pass? { LinkIsSound(rows, w.m, DayEntryId, DayEntries, p.Trip()); }
    }
  }

  lemma JudgeIsSound(reg: Registry, rows: Rows, m: Mutation, p: Partition)
    ensures Sound(Judge(reg, rows, m, p), m)
  {
    match reg.guard(m.table)
    case CommentRules => CommentIsSound(rows, m, p);
    case NoteExcursion => LinkIsSound(rows, m, ExcursionId, Excursions, p.Trip());
    case IdeaResult => LinkIsSound(rows, m, IdeaId, Ideas, p.Trip());
    case _ =>
  }

  /** The gate may strip fields and refuse; it decides nothing else. */
  lemma ScopeIsSound(reg: Registry, rows: Rows, m: Mutation, p: Partition)
    ensures Sound(Scope(reg, rows, m, p), m)
  {
    JudgeIsSound(reg, rows, m, p);
  }
}
