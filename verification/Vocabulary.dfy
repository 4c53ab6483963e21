// The words the sync layer compares (internal/store/vocabulary.go and the
// field names internal/sync/merge.go keys its rules by).
module Vocabulary {

  /** The syncable tables. */
  datatype Table =
    | Tags | TaskTags | ItemTags | Items | ItemDependencies
    | Templates | TemplateItems | TemplateIncludes | TemplateItemTasks | TemplateTasks
    | Trips | TripMembers | TripTemplateSources | TripAppliedChanges
    | TripSeries | DestinationProfiles | DestinationChecklistItems | DestinationTasks
    | TripItems | Travelers | Containers | Comments | NoteAcks | ShoppingEntries
    | Excursions | ExcursionTravelers | ExcursionItems | ExcursionTracks
    | Ideas | IdeaVotes | IdeaComments | IdeaImages | IdeaLinks | IdeaTracks
    | DayEntries | DayEntryTravelers | Meals | MealIngredients | TripGeneratedPositions

  /** The columns some rule names; every other one is `Plain`. */
  datatype Column =
    | TripId | State | PackedCount | PackingNowBy | PackingNowAt | PackedBy | PackedAt
    | FlagUnused | FlagMissing | RetiredAt | Kind | Name
    | TemplateId | IncludedTemplateId | TemplateItemId | ItemId | TagId | DependsOnItemId
    | SeriesId | ProfileId | Role | UserId | OwnerId | CreatedBy | AuthorId
    | SourceItemId | SourceTemplateId | MergedIntoId
    | ParentId | TripItemId | IsTask | Body | Title | EditedAt | ExcursionId | CommentId
    | TaskState | ResolvedBy | ResolvedAt | TaskTagId | DestinationTaskId
    | Bought | BoughtFrom | BoughtBy | BoughtAt
    | MealId | DayEntryId | TravelerId | IdeaId | AssignedTravelerId | CarrierTravelerId
    | ContainerId | PairedContainerId | LinkedUserId | Position | WithKid | PauseMin
    | Plain(name: string)

  const PACKED := "packed"
  const PACKING_NOW := "packing_now"

  const KIND_TEMPLATE := "template"
  const KIND_GROUP := "group"

  const ROLE_OWNER := "owner"
  const ROLE_ADMIN := "admin"
  const ROLE_EDITOR := "editor"

  const TASK_RESOLVED := "resolved"

  /** Why a mutation was refused; `Granted` is the answer that refuses nothing. */
  datatype Reason =
    | Granted
    | NotAuthorized
    | OutOfScope
    | StillReferenced
    | TemplateScope
    | ConstraintViolated
    | RowDeleted
    | NotATripMember
}
