// The declared registry, read against the schema's foreign keys: which links
// cascade, and which query or reference names each (internal/store/schema.sql,
// internal/store/tables_registry.go).
module ForeignKeys {
  import opened Values
  import opened Vocabulary
  import opened Merging
  import opened Registry
  import opened Catalog

  /** A key that takes its row along with the parent. */
  predicate Takes(l: Option<Link>, p: Table) {
    l.Some? && l.value.parent == p && l.value.onDelete == Cascade
  }

  predicate Cascades(t: Table, c: Column, p: Table) {
    Takes(LinkOf(t, c), p)
  }

  lemma TripColumn(t: Table)
    ensures SideOf(t).OnTrip? ==> TripId in ColumnsOf(t)
  {
  }

  lemma TripDefault(t: Table)
    ensures Get(DefaultsOf(t), TripId) == Null
  {
  }

  // ---------------------------------------------------------- the cascading links

  /** Those of the master feed. */
  predicate MasterLink(t: Table, c: Column, p: Table) {
    match c
    case TripId => p.Trips? && TripMaster(t)
    case TagId => p.Tags? && t.ItemTags?
    case ItemId => p.Items? && (t.ItemTags? || t.ItemDependencies?)
    case DependsOnItemId => p.Items? && t.ItemDependencies?
    case TemplateId => p.Templates? && (t.TemplateItems? || t.TemplateTasks? || t.TemplateIncludes? || t.TripTemplateSources?)
    case IncludedTemplateId => p.Templates? && t.TemplateIncludes?
    case TemplateItemId => p.TemplateItems? && t.TemplateItemTasks?
    case SeriesId => p.TripSeries? && t.DestinationProfiles?
    case ProfileId => p.DestinationProfiles? && (t.DestinationChecklistItems? || t.DestinationTasks?)
    case _ => false
  }

  lemma MasterKeys(t: Table, c: Column, p: Table)
    ensures Takes(MasterKey(t, c), p) ==> MasterLink(t, c, p)
  {
  }

  lemma MasterLinks(t: Table, c: Column, p: Table)
    requires Cascades(t, c, p) && SideOf(t) == OnMaster
    ensures MasterLink(t, c, p)
  {
    MasterKeys(t, c, p);
  }

  /** And those of the trip feeds. */
  predicate TripLink(t: Table, c: Column, p: Table) {
    match c
    case TripId => p.Trips?
    case AssignedTravelerId => p.Travelers? && t.ExcursionItems?
    case TravelerId => p.Travelers? && (t.ExcursionTravelers? || t.DayEntryTravelers?)
    case TripItemId => p.TripItems? && t.Comments?
    case ParentId => p.Comments? && t.Comments?
    case CommentId => p.Comments? && t.NoteAcks?
    case ExcursionId => p.Excursions? && (t.ExcursionTravelers? || t.ExcursionItems? || t.ExcursionTracks?)
    case IdeaId =>
      p.Ideas? && (t.IdeaVotes? || t.IdeaComments? || t.IdeaImages? || t.IdeaLinks? || t.IdeaTracks?)
    case DayEntryId => p.DayEntries? && t.DayEntryTravelers?
    case MealId => p.Meals? && t.MealIngredients?
    case _ => false
  }

  lemma LuggageKeys(t: Table, c: Column, p: Table)
    ensures Takes(LuggageKey(t, c), p) ==> TripLink(t, c, p)
  {
  }

  lemma NoteKeys(t: Table, c: Column, p: Table)
    ensures Takes(NoteKey(t, c), p) ==> TripLink(t, c, p)
  {
  }

  lemma PlanKeys(t: Table, c: Column, p: Table)
    ensures Takes(PlanKey(t, c), p) ==> TripLink(t, c, p)
  {
  }

  lemma TripLinks(t: Table, c: Column, p: Table)
    requires Cascades(t, c, p) && SideOf(t) == OnTrip
    ensures TripLink(t, c, p)
  {
    LuggageKeys(t, c, p);
    NoteKeys(t, c, p);
    PlanKeys(t, c, p);
  }

  /** A trip table hangs off nothing of the master feed but its trip. */
  lemma TripRoots(t: Table, c: Column, p: Table)
    requires TripLink(t, c, p) && SideOf(p) == OnMaster
    ensures p.Trips? && c.TripId?
  {
  }

  /** A key of the master feed names a table of the master feed. */
  lemma MasterParents(t: Table, c: Column, p: Table)
    requires MasterLink(t, c, p)
    ensures SideOf(p) == OnMaster
  {
  }

  lemma CommentLinks(t: Table, c: Column)
    ensures Cascades(t, c, Comments) <==> (t.Comments? && c.ParentId?) || (t.NoteAcks? && c.CommentId?)
  {
    if Cascades(t, c, Comments) { OffComments(t, c); }
  }

  lemma OffComments(t: Table, c: Column)
    requires Cascades(t, c, Comments)
    ensures (t.Comments? && c.ParentId?) || (t.NoteAcks? && c.CommentId?)
  {
    if SideOf(t) == OnTrip { TripLinks(t, c, Comments); } else { MasterLinks(t, c, Comments); MasterParents(t, c, Comments); }
  }

  lemma TickLinks(t: Table, c: Column)
    ensures !Cascades(t, c, NoteAcks)
  {
    if Cascades(t, c, NoteAcks) {
      if SideOf(t) == OnTrip { TripLinks(t, c, NoteAcks); } else { MasterLinks(t, c, NoteAcks); MasterParents(t, c, NoteAcks); }
    }
  }

  /** What takes a comment or a tick along. */
  lemma DiscussionLinks(t: Table, c: Column, p: Table)
    requires (t.Comments? || t.NoteAcks?) && Cascades(t, c, p)
    ensures (c.TripId? && p.Trips?) || (t.Comments? && c.ParentId? && p.Comments?) ||
      (t.Comments? && c.TripItemId? && p.TripItems?) || (t.NoteAcks? && c.CommentId? && p.Comments?)
  {
    TripLinks(t, c, p);
  }

  /** Only the deletes of comments and items name any. */
  lemma DiscussionQueried(t: Table, q: ChildQuery)
    requires q in ChildrenOf(t) && (q.table.Comments? || q.table.NoteAcks?)
    ensures t.Comments? || t.TripItems?
  {
  }

  // --------------------------------------------- every query follows cascading links

  predicate HonestQuery(t: Table, q: ChildQuery) {
    && SideOf(q.table) == SideOf(t)
    && (forall c | c in q.direct :: Cascades(q.table, c, t))
    && (forall h | h in q.via :: Cascades(q.table, h.column, h.through) && Cascades(h.through, h.link, t))
  }

  lemma HonestBy(t: Table, c: Column, p: Table)
    requires Cascades(t, c, p) && SideOf(t) == SideOf(p)
    ensures HonestQuery(p, By(t, c))
  {
  }

  lemma HonestAcross(t: Table, c: Column, through: Table, link: Column, p: Table)
    requires Cascades(t, c, through) && Cascades(through, link, p) && SideOf(t) == SideOf(p)
    ensures HonestQuery(p, Across(t, c, through, link))
  {
  }

  lemma HonestItems(t: Table, q: ChildQuery)
    requires q in ChildrenOf(t) && (t.Tags? || t.Items? || t.TemplateItems?)
    ensures HonestQuery(t, q)
  {
  }

  lemma HonestTrips(t: Table, q: ChildQuery)
    requires q in ChildrenOf(t) && (t.DestinationProfiles? || t.Trips?)
    ensures HonestQuery(t, q)
  {
  }

  lemma HonestTemplates(q: ChildQuery)
    requires q in ChildrenOf(Templates)
    ensures HonestQuery(Templates, q)
  {
    hide ChildrenOf, HonestQuery;
    TemplateQueries(q);
    HonestAcross(TemplateItemTasks, TemplateItemId, TemplateItems, TemplateId, Templates);
    HonestBy(TemplateItems, TemplateId, Templates);
    HonestBy(TemplateTasks, TemplateId, Templates);
    HonestBy(TripTemplateSources, TemplateId, Templates);
    HonestIncludes();
  }

  lemma TemplateQueries(q: ChildQuery)
    requires q in ChildrenOf(Templates)
    ensures q == Across(TemplateItemTasks, TemplateItemId, TemplateItems, TemplateId) || q == INCLUDES ||
      q == By(TemplateItems, TemplateId) || q == By(TemplateTasks, TemplateId) || q == By(TripTemplateSources, TemplateId)
  {
  }

  const INCLUDES := ChildQuery(TemplateIncludes, {TemplateId, IncludedTemplateId}, {})

  lemma HonestIncludes()
    ensures HonestQuery(Templates, INCLUDES)
  {
  }

  lemma HonestSeries(q: ChildQuery)
    requires q in ChildrenOf(TripSeries)
    ensures HonestQuery(TripSeries, q)
  {
    HonestAcross(DestinationChecklistItems, ProfileId, DestinationProfiles, SeriesId, TripSeries);
    HonestAcross(DestinationTasks, ProfileId, DestinationProfiles, SeriesId, TripSeries);
    HonestBy(DestinationProfiles, SeriesId, TripSeries);
  }

  lemma HonestItemRows(q: ChildQuery)
    requires q in ChildrenOf(TripItems)
    ensures HonestQuery(TripItems, q)
  {
    HonestBy(Comments, TripItemId, TripItems);
    HonestAcross(NoteAcks, CommentId, Comments, TripItemId, TripItems);
  }

  lemma HonestComments(q: ChildQuery)
    requires q in ChildrenOf(Comments)
    ensures HonestQuery(Comments, q)
  {
    CommentLinks(Comments, ParentId);
    CommentLinks(NoteAcks, CommentId);
  }

  /** The queries of one column: the row's own link names the parent. */
  lemma HonestPlain(q: ChildQuery, c: Column, p: Table)
    requires q == By(q.table, c) && SideOf(q.table) == SideOf(p) == OnTrip && Takes(TripKey(q.table, c), p)
    ensures HonestQuery(p, q)
  {
    HonestBy(q.table, c, p);
  }

  lemma HonestTravelers(q: ChildQuery)
    requires q in ChildrenOf(Travelers)
    ensures HonestQuery(Travelers, q)
  {
    HonestPlain(q, if q.table.ExcursionItems? then AssignedTravelerId else TravelerId, Travelers);
  }

  lemma HonestExcursions(q: ChildQuery)
    requires q in ChildrenOf(Excursions)
    ensures HonestQuery(Excursions, q)
  {
    HonestPlain(q, ExcursionId, Excursions);
  }

  lemma HonestIdeas(q: ChildQuery)
    requires q in ChildrenOf(Ideas)
    ensures HonestQuery(Ideas, q)
  {
    HonestPlain(q, IdeaId, Ideas);
  }

  lemma HonestDays(t: Table, q: ChildQuery)
    requires q in ChildrenOf(t) && (t.DayEntries? || t.Meals?)
    ensures HonestQuery(t, q)
  {
    HonestPlain(q, if t.Meals? then MealId else DayEntryId, t);
  }

  lemma HonestAt(t: Table, q: ChildQuery)
    requires q in ChildrenOf(t)
    ensures HonestQuery(t, q)
  {
    match t
    case Tags | Items | TemplateItems => HonestItems(t, q);
    case DestinationProfiles | Trips => HonestTrips(t, q);
    case Templates => HonestTemplates(q);
    case TripSeries => HonestSeries(q);
    case TripItems => HonestItemRows(q);
    case Comments => HonestComments(q);
    case Travelers => HonestTravelers(q);
    case Excursions => HonestExcursions(q);
    case Ideas => HonestIdeas(q);
    case DayEntries | Meals => HonestDays(t, q);
    case _ =>
  }

  predicate Queried(p: Table, t: Table, c: Column) {
    exists q | q in ChildrenOf(p) :: q.table == t && c in q.direct
  }

  predicate QueriedThrough(p: Table, t: Table, h: Hop) {
    exists q | q in ChildrenOf(p) :: q.table == t && h in q.via
  }

  lemma QueriedAt(p: Table, t: Table, c: Column, i: nat)
    requires i < |ChildrenOf(p)| && ChildrenOf(p)[i].table == t && c in ChildrenOf(p)[i].direct
    ensures Queried(p, t, c)
  {
    assert ChildrenOf(p)[i] in ChildrenOf(p);
  }

  lemma QueriedThroughAt(p: Table, t: Table, h: Hop, i: nat)
    requires i < |ChildrenOf(p)| && ChildrenOf(p)[i].table == t && h in ChildrenOf(p)[i].via
    ensures QueriedThrough(p, t, h)
  {
    assert ChildrenOf(p)[i] in ChildrenOf(p);
  }

  /** Each is a query of its parent. */
  lemma MasterQueried(t: Table, c: Column, p: Table)
    requires MasterLink(t, c, p)
    ensures SideOf(p) == OnMaster && Queried(p, t, c)
  {
    if p.Templates? { TemplatesQueried(t, c); }
    else if p.Trips? || p.Tags? || p.TemplateItems? { PlainlyQueried(t, c, p); }
    else { PairQueried(t, c, p); }
  }

  lemma TemplatesQueried(t: Table, c: Column)
    requires MasterLink(t, c, Templates)
    ensures Queried(Templates, t, c)
  {
    QueriedAt(Templates, t, c, if t.TemplateItems? then 1 else if t.TemplateTasks? then 2 else if t.TemplateIncludes? then 3 else 4);
  }

  lemma PlainlyQueried(t: Table, c: Column, p: Table)
    requires MasterLink(t, c, p) && (p.Trips? || p.Tags? || p.TemplateItems?)
    ensures Queried(p, t, c)
  {
    QueriedAt(p, t, c, if t.TripTemplateSources? then 1 else if t.TripAppliedChanges? then 2 else 0);
  }

  lemma PairQueried(t: Table, c: Column, p: Table)
    requires MasterLink(t, c, p) && !p.Templates? && !p.Trips? && !p.Tags? && !p.TemplateItems?
    ensures SideOf(p) == OnMaster && Queried(p, t, c)
  {
    QueriedAt(p, t, c, if p.TripSeries? then 2 else if t.ItemDependencies? || t.DestinationTasks? then 1 else 0);
  }

  /** Two links in a row run through a template's items or a series' profiles. */
  lemma MasterPairs(t: Table, c: Column, p: Table, u: Table, d: Column)
    requires MasterLink(t, c, p) && MasterLink(u, d, t)
    ensures (p.Templates? && c.TemplateId? && t.TemplateItems? && d.TemplateItemId? && u.TemplateItemTasks?) ||
      (p.TripSeries? && c.SeriesId? && t.DestinationProfiles? && d.ProfileId? &&
       (u.DestinationChecklistItems? || u.DestinationTasks?))
  {
  }

  /** So each pair is a query of its first parent. */
  lemma MasterQueriedThrough(t: Table, c: Column, p: Table, u: Table, d: Column)
    requires MasterLink(t, c, p) && MasterLink(u, d, t)
    ensures QueriedThrough(p, u, Hop(d, t, c))
  {
    MasterPairs(t, c, p, u, d);
    if p.Templates? { QueriedThroughAt(Templates, TemplateItemTasks, Hop(TemplateItemId, TemplateItems, TemplateId), 0); }
    else { SeriesQueriedThrough(u); }
  }

  lemma SeriesQueriedThrough(u: Table)
    requires u.DestinationChecklistItems? || u.DestinationTasks?
    ensures QueriedThrough(TripSeries, u, Hop(ProfileId, DestinationProfiles, SeriesId))
  {
    QueriedThroughAt(TripSeries, u, Hop(ProfileId, DestinationProfiles, SeriesId), if u.DestinationChecklistItems? then 0 else 1);
  }

  /** And no third link follows a second. */
  lemma MasterEnds(t: Table, c: Column, p: Table, u: Table, d: Column, v: Table, e: Column)
    requires MasterLink(t, c, p) && MasterLink(u, d, t)
    ensures !MasterLink(v, e, u)
  {
    MasterPairs(t, c, p, u, d);
  }

  // -------------------------------------------------------------- the trip feeds

  /** The cascading links of the confined tables, their trip aside. */
  predicate ConfinedLink(t: Table, c: Column, p: Table) {
    match c
    case IdeaId => p.Ideas? && (t.IdeaLinks? || t.IdeaImages? || t.IdeaTracks?)
    case ExcursionId => p.Excursions? && t.ExcursionTracks?
    case DayEntryId => p.DayEntries? && t.DayEntryTravelers?
    case TravelerId => p.Travelers? && t.DayEntryTravelers?
    case MealId => p.Meals? && t.MealIngredients?
    case _ => false
  }

  lemma ConfinedLinks(t: Table, c: Column, p: Table)
    requires Confined(t) && Cascades(t, c, p)
    ensures (p.Trips? && c.TripId?) || (!p.Trips? && ConfinedLink(t, c, p))
  {
    ConfinedIsTrip(t);
    TripLinks(t, c, p);
    ConfinedTripLink(t, c, p);
  }

  lemma ConfinedTripLink(t: Table, c: Column, p: Table)
    requires Confined(t) && TripLink(t, c, p)
    ensures (p.Trips? && c.TripId?) || (!p.Trips? && ConfinedLink(t, c, p))
  {
  }

  /** A parent of a confined table hangs off its trip alone. */
  lemma RootLinks(p: Table, d: Column, q: Table)
    requires p.Ideas? || p.Excursions? || p.DayEntries? || p.Travelers? || p.Meals? || p.TripItems?
    ensures Cascades(p, d, q) ==> q.Trips?
  {
    hide LinkOf, TripLink;
    if Cascades(p, d, q) {
      RootIsOnTrip(p);
      TripLinks(p, d, q);
      RootTripLink(p, d, q);
    }
  }

  lemma RootIsOnTrip(p: Table)
    requires p.Ideas? || p.Excursions? || p.DayEntries? || p.Travelers? || p.Meals? || p.TripItems?
    ensures SideOf(p) == OnTrip
  {
  }

  lemma RootTripLink(p: Table, d: Column, q: Table)
    requires p.Ideas? || p.Excursions? || p.DayEntries? || p.Travelers? || p.Meals? || p.TripItems?
    requires TripLink(p, d, q)
    ensures q.Trips?
  {
  }

  lemma ConfinedQueried(t: Table, c: Column, p: Table)
    requires ConfinedLink(t, c, p)
    ensures Confined(p) && Queried(p, t, c) && KeepsInTrip(GuardOf(t), c, p)
  {
    ConfinedGuarded(t, c, p);
    if c.IdeaId? { IdeaQueried(t); } else if c.ExcursionId? { QueriedAt(Excursions, ExcursionTracks, ExcursionId, 2); }
    else { DayQueried(t, c, p); }
  }

  lemma ConfinedGuarded(t: Table, c: Column, p: Table)
    requires ConfinedLink(t, c, p)
    ensures Confined(p) && KeepsInTrip(GuardOf(t), c, p)
  {
  }

  lemma IdeaQueried(t: Table)
    requires t.IdeaLinks? || t.IdeaImages? || t.IdeaTracks?
    ensures Queried(Ideas, t, IdeaId)
  {
    QueriedAt(Ideas, t, IdeaId, if t.IdeaLinks? then 0 else if t.IdeaImages? then 3 else 4);
  }

  lemma DayQueried(t: Table, c: Column, p: Table)
    requires ConfinedLink(t, c, p) && !c.IdeaId? && !c.ExcursionId?
    ensures Queried(p, t, c)
  {
    QueriedAt(p, t, c, if c.TravelerId? then 2 else 0);
  }

  lemma ConfinedIsTrip(t: Table)
    requires Confined(t)
    ensures SideOf(t) == OnTrip
  {
  }

  lemma TripsHangOffNothing(c: Column, p: Table)
    ensures !Cascades(Trips, c, p)
  {
  }

  lemma ConfinedColumn(t: Table, c: Column, p: Table)
    requires ConfinedLink(t, c, p)
    ensures c in ColumnsOf(t) && Get(DefaultsOf(t), c) == Null
  {
    if c.IdeaId? { IdeaColumn(t); } else { OtherColumn(t, c, p); OtherDefault(t, c, p); }
  }

  lemma IdeaColumn(t: Table)
    requires t.IdeaLinks? || t.IdeaImages? || t.IdeaTracks?
    ensures IdeaId in ColumnsOf(t) && Get(DefaultsOf(t), IdeaId) == Null
  {
  }

  lemma OtherColumn(t: Table, c: Column, p: Table)
    requires ConfinedLink(t, c, p) && !c.IdeaId?
    ensures c in ColumnsOf(t)
  {
  }

  lemma OtherDefault(t: Table, c: Column, p: Table)
    requires ConfinedLink(t, c, p) && !c.IdeaId?
    ensures Get(DefaultsOf(t), c) == Null
  {
  }

  // ------------------------------------------------------------- the loose tables

  predicate IsLoose(t: Table) {
    t.ExcursionTravelers? || t.ExcursionItems? || t.IdeaVotes? || t.IdeaComments?
  }

  /** The cascading links of the tables no rule confines, their trip aside. */
  predicate LooseLink(t: Table, c: Column, p: Table) {
    match c
    case ExcursionId => p.Excursions? && (t.ExcursionTravelers? || t.ExcursionItems?)
    case TravelerId => p.Travelers? && t.ExcursionTravelers?
    case AssignedTravelerId => p.Travelers? && t.ExcursionItems?
    case IdeaId => p.Ideas? && (t.IdeaVotes? || t.IdeaComments?)
    case _ => false
  }

  lemma LooseLinks(t: Table, c: Column, p: Table)
    requires IsLoose(t) && Cascades(t, c, p)
    ensures (p.Trips? && c.TripId?) || (!p.Trips? && LooseLink(t, c, p))
  {
    TripLinks(t, c, p);
  }

  lemma LooseQueried(t: Table, c: Column, p: Table)
    requires LooseLink(t, c, p)
    ensures Queried(p, t, c)
  {
    QueriedAt(p, t, c, if t.ExcursionTravelers? then 0 else if t.IdeaComments? then 2 else 1);
  }

  lemma LooseColumn(t: Table, c: Column, p: Table)
    requires LooseLink(t, c, p)
    ensures c in ColumnsOf(t)
  {
  }

  lemma LooseDefault(t: Table, c: Column, p: Table)
    requires LooseLink(t, c, p)
    ensures Get(DefaultsOf(t), c) == Null
  {
  }

  /** What the loose tables hang on hangs off its trip. */
  lemma LooseRoots(p: Table, d: Column, q: Table)
    requires (p.Excursions? || p.Ideas? || p.Travelers?) && Cascades(p, d, q)
    ensures q.Trips? && d.TripId?
  {
    TripLinks(p, d, q);
  }

  // ----------------------------------------------------------- rows that are kept

  lemma PlainColumns(t: Table)
    ensures LinkOf(t, RetiredAt) == LinkOf(t, Kind) == LinkOf(t, State) == LinkOf(t, Role) == None
  {
  }

  lemma LinkRules(t: Table, c: Column)
    ensures LinkOf(t, c).Some? && LinkOf(t, c).value.onDelete == SetNull ==> !LinkOf(t, c).value.mandatory
  {
    hide MasterKey, LuggageKey, NoteKey, PlanKey;
    MasterLetsGo(t, c);
    LuggageLetsGo(t, c);
    NoteLetsGo(t, c);
    PlanLetsGo(t, c);
  }

  /** A key that may be emptied is one that may be empty. */
  predicate LetsGo(l: Option<Link>) {
    l.Some? && l.value.onDelete == SetNull ==> !l.value.mandatory
  }

  lemma MasterLetsGo(t: Table, c: Column)
    ensures LetsGo(MasterKey(t, c))
  {
  }

  lemma LuggageLetsGo(t: Table, c: Column)
    ensures LetsGo(LuggageKey(t, c))
  {
  }

  lemma NoteLetsGo(t: Table, c: Column)
    ensures LetsGo(NoteKey(t, c))
  {
  }

  lemma PlanLetsGo(t: Table, c: Column)
    ensures LetsGo(PlanKey(t, c))
  {
  }

  predicate Stops(l: Option<Link>, p: Table) {
    l.Some? && l.value.parent == p && l.value.onDelete == Restrict
  }

  predicate Restricts(t: Table, c: Column, p: Table) {
    Stops(LinkOf(t, c), p)
  }

  /** The restricting keys, each with its place among its parent's references. */
  predicate Restricting(t: Table, c: Column, p: Table, i: nat) {
    match c
    case ItemId => p.Items? && t.TemplateItems? && i == 0
    case SourceItemId => p.Items? && ((t.TripItems? && i == 1) || (t.ExcursionItems? && i == 2))
    case SourceTemplateId => p.Templates? && t.TripItems? && i == 0
    case SeriesId => p.TripSeries? && t.Trips? && i == 0
    case AssignedTravelerId => p.Travelers? && t.TripItems? && i == 0
    case CarrierTravelerId => p.Travelers? && t.Containers? && i == 1
    case ContainerId => p.Containers? && t.TripItems? && i == 0
    case PairedContainerId => p.Containers? && t.Containers? && i == 1
    case _ => false
  }

  lemma MasterRestricts(t: Table, c: Column, p: Table)
    requires Stops(MasterKey(t, c), p)
    ensures Restricting(t, c, p, 0)
  {
  }

  lemma LuggageRestricts(t: Table, c: Column, p: Table) returns (i: nat)
    requires Stops(LuggageKey(t, c), p)
    ensures Restricting(t, c, p, i)
  {
    i := if t.ExcursionItems? then 2 else if c.SourceItemId? || c.CarrierTravelerId? || c.PairedContainerId? then 1 else 0;
  }

  lemma NotesRestrictNothing(t: Table, c: Column, p: Table)
    ensures !Stops(NoteKey(t, c), p)
  {
  }

  lemma PlansRestrictNothing(t: Table, c: Column, p: Table)
    ensures !Stops(PlanKey(t, c), p)
  {
  }

  lemma RestrictingKeys(t: Table, c: Column, p: Table) returns (i: nat)
    requires Restricts(t, c, p)
    ensures Restricting(t, c, p, i)
  {
    if SideOf(t) == OnMaster {
      MasterRestricts(t, c, p);
      i := 0;
    } else {
      NotesRestrictNothing(t, c, p);
      PlansRestrictNothing(t, c, p);
      i := LuggageRestricts(t, c, p);
    }
  }

  lemma RestrictingReferences(t: Table, c: Column, p: Table, i: nat)
    requires Restricting(t, c, p, i)
    ensures i < |BlockersOf(p)| && BlockersOf(p)[i] == Reference(t, c)
  {
  }

  lemma RestrictingLinks(t: Table, c: Column, p: Table)
    requires Restricts(t, c, p)
    ensures p.Items? || p.Templates? || p.TripSeries? || p.Travelers? || p.Containers?
    ensures Reference(t, c) in BlockersOf(p)
  {
    var i := RestrictingKeys(t, c, p);
    RestrictingReferences(t, c, p, i);
  }

  /** What a restricting key may name hangs off its trip or off nothing. */
  lemma RestrictingParents(p: Table, d: Column, u: Table)
    requires p.Items? || p.Templates? || p.TripSeries? || p.Travelers? || p.Containers?
    ensures Cascades(p, d, u) ==> u.Trips?
  {
    if Cascades(p, d, u) {
      if SideOf(p) == OnTrip { TripLinks(p, d, u); } else { MasterLinks(p, d, u); }
      RestrictingRoots(p, d, u);
    }
  }

  lemma RestrictingRoots(p: Table, d: Column, u: Table)
    requires p.Items? || p.Templates? || p.TripSeries? || p.Travelers? || p.Containers?
    requires TripLink(p, d, u) || MasterLink(p, d, u)
    ensures u.Trips?
  {
  }

  // -------------------------------------------------------- the order of the queries

  /** What a query goes through is queried itself. */
  lemma SteppedAt(t: Table, q: ChildQuery, h: Hop)
    requires q in ChildrenOf(t) && h in q.via
    ensures Queried(t, h.through, h.link)
  {
    hide ChildrenOf, LinkOf;
    HonestAt(t, q);
    if SideOf(h.through) == OnMaster {
      MasterLinks(h.through, h.link, t);
      MasterQueried(h.through, h.link, t);
    } else {
      HopsOnTrip(t, q, h);
      QueriedAt(t, h.through, h.link, 0);
    }
  }

  lemma HopsOnTrip(t: Table, q: ChildQuery, h: Hop)
    requires q in ChildrenOf(t) && h in q.via && SideOf(h.through) == OnTrip
    ensures |ChildrenOf(t)| > 0 && ChildrenOf(t)[0].table == h.through && h.link in ChildrenOf(t)[0].direct
  {
  }

  /** Outside the discussions no query names a table hanging off one named before. */
  lemma OrderlyAt(t: Table, i: nat, j: nat, c: Column)
    requires i <= j < |ChildrenOf(t)| && !t.Comments? && !t.TripItems?
    ensures !Cascades(ChildrenOf(t)[j].table, c, ChildrenOf(t)[i].table)
  {
    hide LinkOf;
    var child, parent := ChildrenOf(t)[j].table, ChildrenOf(t)[i].table;
    if Cascades(child, c, parent) {
      if SideOf(child) == OnMaster { MasterLinks(child, c, parent); } else { TripLinks(child, c, parent); }
    }
  }
}
