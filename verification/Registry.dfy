// What the sync layer knows about each syncable table
// (internal/store/tables_registry.go), and the foreign keys its cascades
// mirror (internal/store/schema.sql). The pipeline takes the registry as a
// value; Catalog.dfy holds the one the server runs with.
module Registry {
  import opened Values
  import opened Vocabulary
  import opened Merging

  /** The feed a table's changes travel on. */
  datatype Side = OnMaster | OnTrip

  datatype OnDelete = Cascade | SetNull | Restrict

  /** A foreign key: the table it names, what a delete there does, and NOT NULL. */
  datatype Link = Link(parent: Table, onDelete: OnDelete, mandatory: bool)

  /** `column` names a row of `through` whose `link` is the parent's id. */
  datatype Hop = Hop(column: Column, through: Table, link: Column)

  /** One table a delete takes rows of, and how it finds them. */
  datatype ChildQuery = ChildQuery(table: Table, direct: set<Column>, via: set<Hop>)

  datatype Reference = Reference(table: Table, column: Column)

  datatype Guard =
    | Unguarded | SeriesOwned | ProfileOwned | ChecklistOwned
    | TripMembership | TripEditor | MemberAdministration | ValidInclude | ValidKindSwitch
    | TravelerLink | CommentRules | NoteExcursion | IdeaResult
    | IdeaVote | IdeaComment | IdeaImage | IdeaLink | Track | DayEntryTraveler | IngredientMeal

  datatype StampRule = NoStamp | OnInsert(column: Column) | OnCreate(column: Column) | OfComment | OfPurchase | OfTripItem

  datatype Visibility = Hidden | Everyone | OfTrip | OfOwner

  /** The trip tables no row of another trip can be made the parent of. */
  predicate Confined(t: Table) {
    match t
    case TripItems | Travelers | Containers | ShoppingEntries | Excursions | ExcursionTracks => true
    case Ideas | IdeaLinks | IdeaImages | IdeaTracks => true
    case DayEntries | DayEntryTravelers | Meals | MealIngredients | TripGeneratedPositions => true
    case _ => false
  }

  /** The guard keeps a link to `parent` inside the trip, or never lets a push set it. */
  predicate KeepsInTrip(g: Guard, c: Column, parent: Table) {
    match g
    case IngredientMeal => c.MealId? && parent.Meals?
    case IdeaLink => c.IdeaId? && parent.Ideas?
    case DayEntryTraveler => (c.DayEntryId? && parent.DayEntries?) || (c.TravelerId? && parent.Travelers?)
    case IdeaImage => c.IdeaId?
    case Track => c.IdeaId? || c.ExcursionId?
    case _ => false
  }

  datatype Registry = Registry(
    side: Table -> Side,
    columns: Table -> set<Column>,
    link: (Table, Column) -> Option<Link>,
    children: Table -> seq<ChildQuery>,
    blockers: Table -> seq<Reference>,
    retirable: Table -> bool,
    guard: Table -> Guard,
    stamp: Table -> StampRule,
    visible: Table -> Visibility,
    defaults: Table -> Fields)
  {
    /** A column whose foreign key takes the row with its parent. */
    predicate Cascades(child: Table, column: Column, parent: Table) {
      var l := link(child, column);
      l.Some? && l.value.parent == parent && l.value.onDelete == Cascade
    }

    /** A column a delete elsewhere may empty. */
    predicate Severable(child: Table, column: Column) {
      var l := link(child, column);
      l.Some? && l.value.onDelete == SetNull
    }
  }
}
