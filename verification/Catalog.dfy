// The registry the server runs with (internal/store/tables_registry.go), its
// foreign keys and defaults (internal/store/schema.sql), and the proof that it
// says what the invariants rely on.
module Catalog {
  import opened Values
  import opened Vocabulary
  import opened Merging
  import opened Registry

  function SideOf(t: Table): Side {
    match t
    case Tags | TaskTags | ItemTags | Items | ItemDependencies => OnMaster
    case Templates | TemplateItems | TemplateIncludes | TemplateItemTasks | TemplateTasks => OnMaster
    case Trips | TripMembers | TripTemplateSources | TripAppliedChanges => OnMaster
    case TripSeries | DestinationProfiles | DestinationChecklistItems | DestinationTasks => OnMaster
    case _ => OnTrip
  }

  // --------------------------------------------------------------------- columns

  function Named(names: set<string>): set<Column> {
    set n | n in names :: Plain(n)
  }

  function ColumnsOf(t: Table): set<Column> {
    match t
    case Tags | TaskTags => {Name} + Named({"sort_order", "icon"})
    case ItemTags => {ItemId, TagId, Position}
    case Items =>
      {Name, CreatedBy, RetiredAt, MergedIntoId} +
      Named({"weight_grams", "value_cents", "image_hash", "icon", "default_assignee_id"})
    case ItemDependencies => {ItemId, DependsOnItemId} + Named({"mode", "quantity"})
    case Templates => {OwnerId, Name, Kind, RetiredAt} + Named({"icon"})
    case TemplateItems =>
      {TemplateId, ItemId} + Named({"quantity", "assignment", "dedup", "conditions", "default_mode", "late_packer"})
    case TemplateIncludes => {TemplateId, IncludedTemplateId}
    case TemplateItemTasks => {TemplateItemId} + Named({"task"})
    case TemplateTasks => {TemplateId} + Named({"task", "phase"})
    case TripSeries => {OwnerId, Name} + Named({"default_attributes"})
    case DestinationProfiles => {SeriesId} + Named({"notes"})
    case DestinationChecklistItems => {ProfileId} + Named({"label", "mode"})
    case DestinationTasks => {ProfileId} + Named({"task", "lead_days", "assignee_user_id"})
    case Trips =>
      {SeriesId, Name, CreatedBy} +
      Named({"year", "start_date", "end_date", "status", "attributes", "packing_closed_at", "imported"})
    case TripMembers => {TripId, UserId, Role}
    case TripTemplateSources => {TripId, TemplateId}
    case TripAppliedChanges =>
      {TripId, SourceTemplateId, Kind} + Named({"source_template_name", "item_name", "detail", "created_at"})
    case TripItems =>
      {TripId, SourceItemId, SourceTemplateId, Name, PackedCount, State, BoughtFrom, BoughtAt, BoughtBy,
       AssignedTravelerId, ContainerId, PackingNowBy, PackingNowAt, FlagUnused, FlagMissing, PackedBy, PackedAt} +
      Named({"weight_grams", "value_cents", "category_name", "quantity", "mode", "late_packer", "pack_note",
             "packer_user_id", "needed_quantity", "outbound_packed", "carried_over_at", "shopping_position"})
    case Travelers => {TripId, Name, LinkedUserId}
    case Containers => {TripId, Name, CarrierTravelerId, PairedContainerId} + Named({"max_weight_grams"})
    case Comments =>
      {TripId, TripItemId, AuthorId, Body, IsTask, TaskState, ResolvedAt, ResolvedBy, TaskTagId, ParentId, Title,
       EditedAt, ExcursionId, Position, IdeaId, DayEntryId, DestinationTaskId} +
      Named({"assignee_user_id", "phase", "due_date", "due_time", "created_at", "anchor_kind", "anchor_lead_days"})
    case NoteAcks => {TripId, CommentId, UserId} + Named({"acked", "seen_through"})
    case ShoppingEntries =>
      {TripId, Name, Bought, BoughtAt, BoughtBy, Position, IdeaId} +
      Named({"list", "tag", "due_date", "assignee_user_id", "carried_over_at"})
    case Excursions => {TripId, Name, SourceTemplateId, IdeaId} + Named({"starts_on", "ends_on"})
    case ExcursionTravelers => {TripId, ExcursionId, TravelerId}
    case ExcursionItems =>
      {TripId, ExcursionId, TripItemId, SourceItemId, Name, AssignedTravelerId, PackedCount, State, BoughtAt} +
      Named({"category_name", "quantity", "mode", "not_in_luggage", "for_all_participants", "shopping_position"})
    case ExcursionTracks => {TripId, ExcursionId, Name, Kind, WithKid, PauseMin, Position} + TrackFigures()
    case IdeaTracks => {TripId, IdeaId, Name, Kind, WithKid, PauseMin, Position} + TrackFigures()
    case Ideas =>
      {TripId, AuthorId, Title, State} +
      Named({"note", "link", "tag", "rain_proof", "created_at", "planned_on", "planned_at", "link_label"})
    case IdeaVotes => {TripId, IdeaId, UserId} + Named({"vote"})
    case IdeaComments => {TripId, IdeaId, AuthorId, Body, EditedAt} + Named({"created_at"})
    case IdeaImages => {TripId, IdeaId, Position} + Named({"image_hash"})
    case IdeaLinks => {TripId, IdeaId, Position} + Named({"url", "label"})
    case DayEntries =>
      {TripId, AuthorId, Kind, Title, ExcursionId} +
      Named({"on_date", "at_time", "note", "link", "legs", "excursion_role"})
    case DayEntryTravelers => {TripId, DayEntryId, TravelerId}
    case Meals =>
      {TripId, Title, Kind, ExcursionId} +
      Named({"on_date", "slot", "at_time", "note", "place", "cook_user_id", "excursion_packed_at"})
    case MealIngredients =>
      {TripId, MealId, Name, Position, Bought, BoughtAt, BoughtBy} + Named({"amount", "list", "shopping_position", "fresh"})
    case TripGeneratedPositions =>
      {TripId, TripItemId, SourceTemplateId, SourceItemId, TravelerId, Name} +
      Named({"quantity", "mode", "late_packer", "weight_grams", "value_cents", "category_name", "tasks"})
  }

  function TrackFigures(): set<Column> {
    Named({"file_name", "gpx_hash", "distance_m", "ascent_m", "descent_m", "max_ele_m", "point_count", "line"})
  }

  // ---------------------------------------------------------------- foreign keys

  /** A NOT NULL column whose parent takes the row along. */
  function Owned(parent: Table): Option<Link> {
    Some(Link(parent, Cascade, true))
  }

  function Optional(parent: Table, onDelete: OnDelete): Option<Link> {
    Some(Link(parent, onDelete, false))
  }

  /** The schema's foreign keys, column by column. */
  function LinkOf(t: Table, c: Column): Option<Link> {
    if SideOf(t) == OnMaster then MasterKey(t, c) else TripKey(t, c)
  }

  function MasterKey(t: Table, c: Column): Option<Link> {
    match c
    case TripId => if TripMaster(t) then Owned(Trips) else None
    case ItemId =>
      if t.ItemTags? || t.ItemDependencies? then Owned(Items)
      else if t.TemplateItems? then Some(Link(Items, Restrict, true)) else None
    case DependsOnItemId => if t.ItemDependencies? then Owned(Items) else None
    case MergedIntoId => if t.Items? then Optional(Items, SetNull) else None
    case TagId => if t.ItemTags? then Owned(Tags) else None
    case TemplateId =>
      if t.TemplateItems? || t.TemplateTasks? || t.TemplateIncludes? || t.TripTemplateSources? then Owned(Templates)
      else None
    case IncludedTemplateId => if t.TemplateIncludes? then Owned(Templates) else None
    case TemplateItemId => if t.TemplateItemTasks? then Owned(TemplateItems) else None
    case SeriesId =>
      if t.DestinationProfiles? then Owned(TripSeries)
      else if t.Trips? then Optional(TripSeries, Restrict) else None
    case ProfileId => if t.DestinationChecklistItems? || t.DestinationTasks? then Owned(DestinationProfiles) else None
    case _ => None
  }

  function TripKey(t: Table, c: Column): Option<Link> {
    match c
    case TripId => Owned(Trips)
    case SourceItemId | SourceTemplateId | AssignedTravelerId | CarrierTravelerId | TravelerId | ContainerId | PairedContainerId =>
      LuggageKey(t, c)
    case TripItemId | ParentId | CommentId | TaskTagId | DestinationTaskId => NoteKey(t, c)
    case ExcursionId | IdeaId | DayEntryId | MealId => PlanKey(t, c)
    case _ => None
  }

  function LuggageKey(t: Table, c: Column): Option<Link> {
    match c
    case SourceItemId => if t.TripItems? || t.ExcursionItems? then Optional(Items, Restrict) else None
    case SourceTemplateId => if t.TripItems? then Optional(Templates, Restrict) else None
    case AssignedTravelerId =>
      if t.TripItems? then Optional(Travelers, Restrict)
      else if t.ExcursionItems? then Optional(Travelers, Cascade) else None
    case CarrierTravelerId => if t.Containers? then Optional(Travelers, Restrict) else None
    case TravelerId => if t.ExcursionTravelers? || t.DayEntryTravelers? then Owned(Travelers) else None
    case ContainerId => if t.TripItems? then Optional(Containers, Restrict) else None
    case PairedContainerId => if t.Containers? then Optional(Containers, Restrict) else None
    case _ => None
  }

  function NoteKey(t: Table, c: Column): Option<Link> {
    match c
    case TripItemId =>
      if t.Comments? then Optional(TripItems, Cascade)
      else if t.ExcursionItems? then Optional(TripItems, SetNull) else None
    case ParentId => if t.Comments? then Optional(Comments, Cascade) else None
    case CommentId => if t.NoteAcks? then Owned(Comments) else None
    case TaskTagId => if t.Comments? then Optional(TaskTags, SetNull) else None
    case DestinationTaskId => if t.Comments? then Optional(DestinationTasks, SetNull) else None
    case _ => None
  }

  function PlanKey(t: Table, c: Column): Option<Link> {
    match c
    case ExcursionId =>
      if t.ExcursionTravelers? || t.ExcursionItems? || t.ExcursionTracks? then Owned(Excursions)
      else if t.Comments? || t.DayEntries? || t.Meals? then Optional(Excursions, SetNull) else None
    case IdeaId =>
      if t.IdeaVotes? || t.IdeaComments? || t.IdeaImages? || t.IdeaLinks? || t.IdeaTracks? then Owned(Ideas)
      else if t.Comments? || t.ShoppingEntries? || t.Excursions? then Optional(Ideas, SetNull) else None
    case DayEntryId =>
      if t.DayEntryTravelers? then Owned(DayEntries) else if t.Comments? then Optional(DayEntries, SetNull) else None
    case MealId => if t.MealIngredients? then Owned(Meals) else None
    case _ => None
  }

  /** The master tables that hang off a trip. */
  predicate TripMaster(t: Table) {
    t.TripMembers? || t.TripTemplateSources? || t.TripAppliedChanges?
  }

  // -------------------------------------------------------------- deletes and rules

  function By(t: Table, c: Column): ChildQuery {
    ChildQuery(t, {c}, {})
  }

  function Across(t: Table, c: Column, through: Table, link: Column): ChildQuery {
    ChildQuery(t, {}, {Hop(c, through, link)})
  }

  function ChildrenOf(t: Table): seq<ChildQuery> {
    match t
    case Tags => [By(ItemTags, TagId)]
    case Items => [By(ItemTags, ItemId), ChildQuery(ItemDependencies, {ItemId, DependsOnItemId}, {})]
    case Templates =>
      [Across(TemplateItemTasks, TemplateItemId, TemplateItems, TemplateId), By(TemplateItems, TemplateId),
       By(TemplateTasks, TemplateId), ChildQuery(TemplateIncludes, {TemplateId, IncludedTemplateId}, {}),
       By(TripTemplateSources, TemplateId)]
    case TemplateItems => [By(TemplateItemTasks, TemplateItemId)]
    case TripSeries =>
      [Across(DestinationChecklistItems, ProfileId, DestinationProfiles, SeriesId),
       Across(DestinationTasks, ProfileId, DestinationProfiles, SeriesId), By(DestinationProfiles, SeriesId)]
    case DestinationProfiles => [By(DestinationChecklistItems, ProfileId), By(DestinationTasks, ProfileId)]
    case Trips => [By(TripMembers, TripId), By(TripTemplateSources, TripId), By(TripAppliedChanges, TripId)]
    case TripItems => [By(Comments, TripItemId), Across(NoteAcks, CommentId, Comments, TripItemId)]
    case Travelers =>
      [By(ExcursionTravelers, TravelerId), By(ExcursionItems, AssignedTravelerId), By(DayEntryTravelers, TravelerId)]
    case Comments =>
      [By(Comments, ParentId), ChildQuery(NoteAcks, {CommentId}, {Hop(CommentId, Comments, ParentId)})]
    case Excursions =>
      [By(ExcursionTravelers, ExcursionId), By(ExcursionItems, ExcursionId), By(ExcursionTracks, ExcursionId)]
    case Ideas =>
      [By(IdeaLinks, IdeaId), By(IdeaVotes, IdeaId), By(IdeaComments, IdeaId), By(IdeaImages, IdeaId), By(IdeaTracks, IdeaId)]
    case DayEntries => [By(DayEntryTravelers, DayEntryId)]
    case Meals => [By(MealIngredients, MealId)]
    case _ => []
  }

  function BlockersOf(t: Table): seq<Reference> {
    match t
    case Items => [Reference(TemplateItems, ItemId), Reference(TripItems, SourceItemId), Reference(ExcursionItems, SourceItemId)]
    case Templates => [Reference(TripItems, SourceTemplateId)]
    case TripSeries => [Reference(Trips, SeriesId)]
    case Travelers => [Reference(TripItems, AssignedTravelerId), Reference(Containers, CarrierTravelerId)]
    case Containers => [Reference(TripItems, ContainerId), Reference(Containers, PairedContainerId)]
    case _ => []
  }

  predicate IsRetirable(t: Table) {
    t.Items? || t.Templates?
  }

  function GuardOf(t: Table): Guard {
    match t
    case TripSeries => SeriesOwned
    case DestinationProfiles => ProfileOwned
    case DestinationChecklistItems | DestinationTasks => ChecklistOwned
    case Trips => TripMembership
    case TripMembers => MemberAdministration
    case TripTemplateSources | TripAppliedChanges => TripEditor
    case Templates => ValidKindSwitch
    case TemplateIncludes => ValidInclude
    case Travelers => TravelerLink
    case Comments => CommentRules
    case ShoppingEntries | Excursions => IdeaResult
    case DayEntries | Meals => NoteExcursion
    case IdeaVotes => IdeaVote
    case IdeaComments => IdeaComment
    case IdeaImages => IdeaImage
    case IdeaLinks => IdeaLink
    case IdeaTracks | ExcursionTracks => Track
    case DayEntryTravelers => DayEntryTraveler
    case MealIngredients => IngredientMeal
    case _ => Unguarded
  }

  function StampOf(t: Table): StampRule {
    match t
    case Items | Trips => OnCreate(CreatedBy)
    case Templates | TripSeries => OnCreate(OwnerId)
    case TripItems => OfTripItem
    case Comments => OfComment
    case NoteAcks | IdeaVotes => OnInsert(UserId)
    case Ideas | IdeaComments | DayEntries => OnInsert(AuthorId)
    case ShoppingEntries | MealIngredients => OfPurchase
    case _ => NoStamp
  }

  function VisibilityOf(t: Table): Visibility {
    match t
    case Trips | TripMembers | TripTemplateSources | TripAppliedChanges => OfTrip
    case TripSeries | DestinationProfiles | DestinationChecklistItems | DestinationTasks => OfOwner
    case _ => if SideOf(t) == OnMaster then Everyone else Hidden
  }

  function DefaultsOf(t: Table): Fields {
    match t
    case Tags | TaskTags => map[Plain("sort_order") := Number(0.0)]
    case ItemTags => map[Position := Number(0.0)]
    case ItemDependencies => map[Plain("mode") := Text("required")]
    case Templates => map[Kind := Text(KIND_TEMPLATE)]
    case TemplateItems =>
      map[Plain("quantity") := Number(1.0), Plain("assignment") := Text("per_person"), Plain("dedup") := Text("max"),
          Plain("default_mode") := Text("pack"), Plain("late_packer") := Number(0.0)]
    case DestinationChecklistItems => map[Plain("mode") := Text("buy_local")]
    case Trips => map[Plain("status") := Text("planning"), Plain("imported") := Number(0.0)]
    case TripMembers => map[Role := Text(ROLE_EDITOR)]
    case TripItems =>
      map[Plain("quantity") := Number(1.0), PackedCount := Number(0.0), State := Text("open"), Plain("mode") := Text("pack"),
          Plain("late_packer") := Number(0.0), FlagUnused := Number(0.0), FlagMissing := Number(0.0)]
    case Comments => map[IsTask := Number(0.0)]
    case NoteAcks => map[Plain("acked") := Number(1.0)]
    case ShoppingEntries => map[Plain("list") := Text("buy_local"), Bought := Number(0.0)]
    case ExcursionItems =>
      map[Plain("quantity") := Number(1.0), PackedCount := Number(0.0), State := Text("open"), Plain("mode") := Text("pack"),
          Plain("not_in_luggage") := Number(0.0), Plain("for_all_participants") := Number(0.0)]
    case Ideas => map[Plain("rain_proof") := Number(0.0), State := Text("idea")]
    case IdeaImages => map[Position := Number(0.0)]
    case IdeaLinks => map[Position := Number(1.0)]
    case IdeaTracks | ExcursionTracks =>
      map[Kind := Text("hike"), WithKid := Number(0.0), PauseMin := Number(0.0), Position := Number(0.0)]
    case DayEntries => map[Kind := Text("note")]
    case Meals => map[Plain("slot") := Text("dinner"), Kind := Text("cook")]
    case MealIngredients => map[Plain("list") := Text("buy_local"), Bought := Number(0.0)]
    case TripGeneratedPositions =>
      map[TravelerId := Text(""), Plain("late_packer") := Number(0.0), Plain("tasks") := Text("[]")]
    case _ => map[]
  }

  /** The registry, as declared. */
  function Declaration(): Registry {
    Registry(SideOf, ColumnsOf, LinkOf, ChildrenOf, BlockersOf, IsRetirable, GuardOf, StampOf, VisibilityOf, DefaultsOf)
  }
}
