# The server side of offline sync, modelled and proved

JIT-Pack devices edit offline and synchronise through one server. This project models that server as one
state machine and proves what it keeps over every run: rows whose columns each carry a hybrid logical clock,
the master feed and one change feed per trip, the conflict log, and the memo of answered mutations. Everything
changes through one pipeline; devices follow by pulling pages past a cursor.

The layers, from the bottom up:

- **Clocks and merge.** `TextOrder`, `Hlc`, `Values`, `Vocabulary`, `Merging`, `MergeLaws`, `Verdicts`,
  `RowClocks`, `IdeaStates`. A clock is 27 characters of text; every later layer uses its rank in text order,
  which `Hlc` proves equivalent.
- **Tables and keys.** `Registry` (what the sync layer knows of a table), `Database` (rows, foreign-key
  actions, logs), `Catalog` (the registry as the server declares it), `ForeignKeys` and `Laws` (that
  declaration meets every law the proofs use). All results are about any lawful registry;
  `Laws.DeclarationIsLawful` makes them results about this server.
- **The pipeline.** `Stamping`, `Guards`, `Pipeline` and `Restoring` say what one mutation, revert or takeover
  amounts to; `Store` holds the same operations as they run, a transaction changed step by step inside a
  `Server` object, each proved against that function.
- **Steps and runs.** `System` is the state machine, `Steps` and `Effects` reduce each event to one step on
  the tables and one feed. `IncludeGraph`, `Owners`, `Records`, `Clocks`, `Threads`, `Cascading`,
  `Confinement` and `Feeds` prove what every step keeps; `Reachable` that every run does. `Retiring`,
  `TombstoneOrder`, `Reverts`, `Readings`, `Answers` and `Replay` are about deletes, reverts, answers and repeated
  pushes; `Identities`, `Credits`, `Authority` and `Sights` about who did, may do and may see what.
- **Devices.** `Pull` builds pages, `Convergence` applies them, `Devices` lets every read of every pull fall
  at its own moment. `Timelines`, `Deliveries`, `WholeRows`, `Discussions`, `LooseRows`, `Deleting`,
  `Granting` and `TripRuns` say when a device ends with what the server has.
- **Where it falls short.** `Gaps` states the gaps step by step; `Staging`, `Arrivals` and `Fittings` build runs
  from an empty database push by push, and `Witnesses`, `LostGrants`, `Refusals`, `IdeaRuns` and `TombstoneRuns`
  end such runs in each gap.
- **Presence and reminders.** `Rosters` and `Broadcasting` model the hub's roster broadcasts with any number
  in flight, and `Followers` who is still told; `Reminders` the mark that claims windows of time.

What one step reads from outside the database is a parameter (`Stamping.World`): the server's clock, which
strings are instants, the order unordered queries list rows in, the id drawn for a founder's membership, and
whether the constraints not spelled out here accept the write. Run-level results assume of an event only what
`Reachable.Admissible` says: a pushed clock is a valid one, a listing lists its rows, a founder's id was never
used, and wall clocks stay below the year 2286.

`dafny verify dfyconfig.toml` checks the whole project.

## Model

| member | source | states |
|---|---|---|
| Hlc.ParseFormat | internal/sync/hlc.go:87-127 | parsing a formatted stamp gives the stamp back, for every stamp 27 characters can carry, negative millis included |
| Hlc.ValidExactly | internal/sync/hlc.go:117-127 | `Valid` accepts exactly the texts some stamp formats to |
| Hlc.RankOrdersText | internal/sync/hlc.go:15-22 | the numbers every later proof compares are ordered as the texts are, negative millis below all others and backwards |
| Hlc.TextOrderIsPartOrder | internal/sync/hlc.go:125-127 | for non-negative millis the text order is the order of millis, then counter, then device |
| Hlc.Generator.Next | internal/sync/hlc.go:49-66 | the new state and the clock handed out, whatever the wall clock reads |
| Hlc.Generator.Observe | internal/sync/hlc.go:69-85 | a readable remote clock is folded into the state, an unreadable one is refused and changes nothing |
| Hlc.NextIsAboveAll | internal/sync/hlc.go:49-85 | over any sequence of calls and wall clocks, a minted clock's text is above everything minted or observed before it |
| Hlc.MintedIsLeast | internal/sync/hlc.go:49-66 | and the least such clock no earlier than the wall clock, so it reads the wall clock whenever that is ahead of all seen |
| Hlc.ObservedIsLeast | internal/sync/hlc.go:69-85 | an observed clock moves the generator to the least state that covers it |
| Merging.Merge | internal/sync/merge.go:146-208 | the merge, one field at a time in any order, gives the result whose every verdict and loss `Verdicts` reads off the row's clocks |
| Verdicts.GroupVerdictExactly | internal/sync/merge.go:267-304 | state, count and their records are applied exactly when the write packs a claim, or is newer than the clocks of state and count and claims nothing packed; the row's own clock has no say |
| Verdicts.EditsElsewhereDoNotMatter | internal/sync/merge.go:143-145 | any number of edits elsewhere, however new, leave that verdict as it was: a packing made offline is not displaced by a container assigned since |
| Verdicts.FieldVerdictExactly | internal/sync/merge.go:166-190 | any other field is applied exactly when it is newer than itself, or raises a flag |
| Verdicts.LossExactly | internal/sync/merge.go:199-215 | what is sent and not applied is logged, with the value that lost and the one that stood, unless they agree or the column only describes the state |
| MergeLaws.NothingIsLostSilently | internal/sync/merge.go:167-208 | every field sent to a live row is applied, logged with both values, equal to what stands, or a record dropped with its group; the outcome is `merged` exactly when something was logged |
| MergeLaws.NothingIsMadeUp | internal/sync/merge.go:167-208 | nothing is applied or logged that was not sent, and what was not applied keeps its value and clock |
| MergeLaws.GroupIsAtomic | internal/sync/merge.go:103-116 | state, count and their records are applied together or not at all |
| MergeLaws.RaisedFlagsStick | internal/sync/merge.go:132-137 | a raised additive flag is never dropped, however old the write |
| MergeLaws.OrderDoesNotMatter | internal/sync/merge.go:146-190 | any two arrival orders of the same writes end an ordinary field with the same value and clock |
| RowClocks.RowClockIsOneExactly | internal/sync/merge.go:282-297 | every arrival order ends with one row clock exactly when no claim is on top of the writes, newer than the row and than all else that carries a field, or no order of the rest decides whether that claim finds the row packed |
| RowClocks.RowClockOrderDoesNotMatter | internal/sync/merge.go:146-190 | so it is when every write names an ordinary field |
| RowClocks.RowClockDependsOnOrder | internal/sync/merge.go:282-297 | otherwise it does depend: a claim before and after the packing leave different row clocks |
| RowClocks.NewerWriteRaisesExactly | internal/sync/merge.go:282-297 | a newer write raises the row's clock exactly when it names a field "packed" does not outrank |
| IdeaStates.OwnClockDecidesExactly | internal/sync/merge.go:256-275 | on a row without a packed count a state is decided by the clock of the one that stands exactly when nothing else of the row was written at or after it |
| IdeaStates.StateIsOneExactly | internal/sync/merge.go:99-103 | there every arrival order ends with one state exactly when the newest write names it, or every newer one repeats it |
| IdeaRuns.StateIsOverlooked | internal/store/pipeline.go:207-221 | a run in which an idea's new state changes nothing, for an edit of its title came in between |
| Database.DoomedIsLeast | internal/store/schema.sql:422-481 | what a delete takes is the least set closed under the cascading keys (its being closed is `DoomedIsClosed`) |
| Cascading.NamedIsDoomed | internal/store/master.go:382-397 | whatever the child queries of a delete name, the database takes |
| Cascading.DoomIsReached | internal/store/master.go:382-397 | on the master feed and in confined tables it takes nothing else, but a trip's own rows with the trip |
| Laws.DeclarationIsLawful | internal/store/tables_registry.go:14-770 | the declared tables, child queries, guards, defaults and keys meet every law the results assume |
| Laws.RetirableExactly | internal/store/tables_registry.go:14-770 | a table keeps rows that may not be deleted exactly when it is a master table with the column that marks them |
| Steps.PushTakes | internal/store/partition.go:133-253 | a pushed mutation, whatever becomes of it, is one step: nothing, a re-log, one gated write, or one removal, with exactly that step's log entries |
| Steps.NextTakes | internal/store/partition.go:133-276 | so is every event: a revert or a takeover writes a row that was there or does nothing, and only a push deletes or is refused with a re-log |
| Answers.InvalidExactly | internal/store/partition.go:133-136 | a push is turned away unread exactly when its endpoint does not write the table or the table lacks a column it names |
| Answers.DecidedExactly | internal/store/partition.go:150-193 | a push is refused at the gate, outdated by a tombstone of its feed, refused or retired because some other row still names its row, or merged as the gate left it |
| Answers.CarryingIsHonest | internal/store/partition.go:202-252 | a write answers what its merge lost, the position of its row's entry, and of a retirement the last entry's; a constraint's refusal re-delivers |
| Answers.RelogIsTrue | internal/store/pipeline.go:320-355 | a refusal that re-delivers says whether the row is there, at its own clock, and after a refused delete names exactly the children the delete would have named |
| Answers.PushIsHonest | internal/store/partition.go:133-253 | the first answer to any push is that of one transaction whose outcome, reason, losses and position agree with what it wrote |
| Answers.UnacceptedChangesNothing | internal/store/partition.go:205-221 | where a constraint refuses the write no row changes, of a push, a revert or a takeover |
| Answers.EndingIsAnswered | internal/store/partition.go:236-276 | a transaction that commits answers with its ending and leaves its rows, one that rolls back leaves everything as it was |
| Answers.EndingIsLogged | internal/store/partition.go:226-241 | its entries are at the end of its feed, numbered on |
| Answers.LossesAreEntered | internal/store/pipeline.go:359-371 | each loss answered is in the conflict log, under the push that lost it and its actor |
| Identities.NamedExactly | internal/store/stamp.go:90-193 | a column that says who did a thing is written as the actor where insert, creation or the state sent says it is done, as NULL where the state says it is not, and otherwise not at all |
| Identities.MomentExactly | internal/store/stamp.go:177-208 | the moment goes with the name: the one sent where it is an instant, the server's otherwise |
| Identities.SentNamesAreIgnored | internal/store/stamp.go:72-85 | what a client sends of who did it is never read |
| Identities.StepCredits | internal/store/stamp.go:177-193 | no step records a name but its actor's, and that only where the mutation says so |
| Credits.RunAcknowledges | internal/store/stamp.go:177-193 | in every reachable state, whoever a row names pushed, reverted or took over that row and said so |
| Authority.JudgedExactly | internal/store/master.go:94-185 | series, profiles and checklists are their owner's to write, trips their members', rosters their administrators', votes and words about ideas their author's, and a participant stands for a member; refused exactly otherwise |
| Authority.CommentExactly | internal/store/notethreads.go:43-108 | a comment is refused exactly when it is misplaced in a thread, changes another's words or links to another trip, and otherwise loses exactly what its thread does not keep and what hangs on a row that is gone |
| Authority.LinkExactly | internal/store/notethreads.go:90-108 | a link to another trip is refused, one to a row that is gone is dropped |
| Authority.FittedExactly | internal/store/planner.go:30-76 | what a row is made to hang on must be there and the trip's own, or the link is dropped where a row may do without it; includes run from templates to groups, and kinds switch only where no include minds |
| Authority.ScopedExactly | internal/store/pipeline.go:47-67 | a trip's endpoint takes what is the trip's and names no other; a prune what nothing uses |
| Authority.StepIsRightful | internal/store/master.go:94-185 | so of every row a push or a revert writes or takes the tables show that its actor had the right, before and after |
| IncludeGraph.StepKeepsTwoLevel | internal/store/master.go:209-281 | no step, half-accepted edits and kind switches included, leaves an include that does not run from a template to a group |
| IncludeGraph.NoChain | internal/store/master.go:202-208 | so nothing included includes anything: no chain and no cycle |
| Owners.StepKeepsOneOwner | internal/store/master.go:35-60 | no step leaves a trip without its owner or with two |
| Owners.OwnerIsUntouched | internal/store/master.go:160-185 | the owner's row is never altered, and goes only with the trip |
| Records.StepKeepsRecords | internal/store/stamp.go:150-198 | no step lets packer or claim holder disagree with the state they describe |
| Records.PackedIsTerminal | internal/sync/merge.go:282-297 | no step takes a live row from packed to being packed |
| Clocks.StepKeepsUnburied | internal/store/pipeline.go:275-289 | a live row and its ordinary fields stay newer than every tombstone its feed holds for it, and a row is re-created only above them |
| Confinement.StepKeepsInTrip | internal/store/dayentries.go:15-35 | no step puts a confined row and the row it hangs off in two trips |
| Threads.WriteKeepsThreads | internal/store/notethreads.go:43-131 | a write keeps threads one level deep exactly when a parent named by the empty id is a first note of the trip |
| TombstoneOrder.LeavesFirstExactly | internal/store/partition.go:222-234 | no tombstone of a delete comes before that of a row hanging off its row exactly when the delete takes no child along |
| TombstoneOrder.ChildrenLeafFirst | internal/store/tables.go:83-86 | the children alone are leaf first for every table but comments and packing rows |
| TombstoneOrder.ChildrenLeafFirstExactly | internal/store/master.go:380-397 | for any table exactly when no listed tick is on a listed comment and no listed comment comes after one it replies to |
| TombstoneOrder.GatheredLeafFirstExactly | internal/store/tables_registry.go:466-480 | of these the ticks alone can fail while comments and ticks are tied to their trip |
| TombstoneRuns.EveryRemoval | internal/store/partition.go:222-234 | and so for whatever any event of any run removes |
| Threads.CommentCascadeIsExact | internal/store/tables_registry.go:466-480 | in one-level threads the ids collected for a comment's delete are all the database takes with it |
| Feeds.StepKeepsFaithfulExactly | internal/store/partition.go:204-241 | a step of any kind leaves a faithful log faithful, in the tables asked about, exactly when what a delete takes from the feed it names there, and what a refused one re-logs the feed holds |
| Feeds.SureStep | internal/store/pipeline.go:320-355 | in the master feed and in confined trip tables every step does that, whatever was pushed |
| Feeds.StepKeepsFaithful | internal/store/partition.go:204-241 | so there the newest entry stays a tombstone exactly when the feed holds no such row |
| Feeds.StepIsLater | internal/store/partition.go:226-241 | and no row changes, comes or goes without a newer entry, letting-go links aside |
| Reachable.RunIsKept | internal/store/partition.go:133-276 | every reachable state keeps every invariant above at once |
| Reachable.MintIsPast | internal/store/master_prune_item.go:36-66 | the clock a delete endpoint starts with is past the one it read and all the server has seen, no earlier than the wall clock, and nothing else happens |
| Reachable.RunFitsSchema | internal/store/schema.sql:198-362 | in every reachable state roles, kinds and packing states are of the words the schema knows, and every link names a row that is there or is NULL where it may be |
| Reachable.RunKeepsThreads | internal/store/notethreads.go:114-131 | threads are one level deep in every reachable state while no comment is pushed with the empty id |
| Reachable.CommentDeletesAreExact | internal/store/tables_registry.go:466-480 | so there the collected ids are exactly what goes |
| Pull.Compact | internal/store/pull.go:167-179 | two passes keep exactly the last entry per entity, in order |
| Pull.PullPage | internal/store/pull.go:48-95 | a page: entries from one read, then one judging and one reading per entity, each at its own moment; what it may and must show is `Sights` |
| Sights.SeenExactly | internal/store/master.go:447-490 | a master row is visible exactly to the owner of the series it is or hangs off, to the members of its trip, or to everybody |
| Sights.PageShowsEntitled | internal/store/pull.go:76-91 | a page shows a live row only where its reader was entitled to it when it was judged, whole and as it was read next |
| Sights.PageTellsEntitled | internal/store/pull.go:76-91 | and it does show whatever its reader is entitled to, and every tombstone |
| Sights.ListedExactly | internal/store/pull.go:48-74 | of every entity with an entry between its two cursors, the last |
| Sights.MoreExactly | internal/store/pull.go:48-74 | a page says there is more exactly while the log goes on past its new cursor, and until then it is full |
| Sights.CopiesAreEarned | internal/store/pull.go:112-122 | whatever a device pulled and whenever, each copy it holds was its user's to see at some moment |
| Sights.LooksAreEntitled | internal/store/conflicts.go:219-240 | and so is the row of every conflict of the master log anybody reverts |
| Convergence.PageKeepsConverging | internal/store/pull.go:48-95 | a page whose reads meet later states leaves every entity with nothing left to pull right, and moves the cursor no further than the first state's log |
| Convergence.PushKeepsConverging | internal/store/partition.go:226-241 | what is written between pages spoils nothing: what it touched is past the cursor |
| Convergence.Drain | internal/store/pull.go:48-95 | pulling until a page says no more ends, with every entity right |
| Granting.GrantResurfaces | internal/store/master.go:61-71 | the trip a membership row ends in is the one its write resurfaces exactly when the write names no other trip, and the trip has an id |
| Granting.NewlySeenIsTold | internal/store/master.go:61-71 | then whoever comes to see a trip is told of it |
| Devices.DeviceConverges | internal/store/pull.go:48-95 | a device converges over any history that flows, its reads scattered over it |
| WholeRows.DeviceIsDated | internal/store/pull.go:186-201 | every copy a device holds is the whole row as it was at some moment after which the log says nothing of it |
| Deleting.EventIsOwn | internal/store/pipeline.go:343-355 | an event whose delete, accepted or refused, takes from a feed exactly what it names there does what it owes that feed |
| Timelines.RunStaysFaithful | internal/store/partition.go:204-241 | if every delete of the run does so, the log is faithful at every moment, in any tables asked about |
| Timelines.DevicesConverge | internal/store/pull.go:48-122 | and every device converges on them, whatever is pushed between two pulls or between two reads of one |
| Timelines.DrainedDevicesAreRight | internal/store/pull.go:89-94 | once a page says no more and nothing was added since, the device has every entity right |
| Discussions.DiscussionGoesAsNamed | internal/store/tables_registry.go:358-372 | of a trip's comments and ticks a delete takes exactly what it names while they are tied to their trip |
| Discussions.StepKeepsGathered | internal/store/notethreads.go:43-83 | and they stay tied while a comment's item is fixed on insert and a tick names a comment of its trip |
| LooseRows.LooseGoesAsNamed | internal/store/tables_registry.go:529-572 | of participants, excursion items, votes and idea comments a delete takes exactly what it names while each hangs on rows of its trip |
| LooseRows.StepKeepsOwn | internal/store/tables_registry.go:546-572 | and they do while their pushes name rows of their own trip |
| TripRuns.DiscussionsConverge | internal/store/tables_registry.go:419-496 | so devices converge on comments and ticks, in every run that ties them to their trip |
| TripRuns.TripsConverge | internal/store/pull.go:99-111 | and on every table of the trip, in every run that ties the loose rows too |
| Deliveries.GrantDelivers | internal/store/master.go:61-71 | however memberships came, went and came again, a member's device with no entry of the trip left to pull has the trip's current row |
| Deliveries.DevicesHaveRows | internal/store/pull.go:186-201 | a device has the whole row, letting-go links included, of every entity in sight none of whose links a delete emptied since its newest entry |
| Gaps.LettingGoIsSilent | internal/store/schema.sql:496-526 | a row that outlives a delete changes exactly when a link of its own let go, and nobody is told |
| Gaps.ForeignTickVanishes | internal/store/tables_registry.go:485-496 | a tick goes with another trip's note, and its own trip's log keeps it |
| Gaps.RepliesGoUnnamed | internal/store/tables_registry.go:358-372 | the replies of a note on an item go with the item and are named by no query |
| Gaps.AnswersGoUnnamed | internal/store/tables_registry.go:474-480 | so do answers to a reply, with the note |
| Witnesses.TickIsLost | internal/store/tables_registry.go:485-496 | a run of five pushes after which a trip's log reports a tick that is gone |
| Witnesses.ReplyIsLost | internal/store/notethreads.go:43-83 | a run in which a note is moved onto an item and its reply goes with it, untold |
| Witnesses.ThreadDeepens | internal/store/notethreads.go:114-131 | a run that ends with a thread two levels deep, by a reply with the empty id |
| Witnesses.AnswerIsLost | internal/store/tables_registry.go:474-480 | and the delete of its note takes the answer, untold |
| TombstoneRuns.NoteBeforeTick | internal/store/tables_registry.go:466-480 | a run that tells of a note's delete and then of its tick's |
| TombstoneRuns.ItemBeforeNoteBeforeTick | internal/store/tables_registry.go:358-372 | a run that tells of an item's delete, then of its note's, then of that note's tick's |
| LostGrants.GrantIsLost | internal/store/master.go:437-445 | a run after which a device that had everything is a member's without the trip, with nothing to pull |
| Refusals.RefusalRevivesForeign | internal/store/pipeline.go:343-355 | a run in which a refused delete makes a trip's log report a row of another trip |
| Staging.PushLands | internal/store/partition.go:133-253 | a push that is new, passes its gate and meets the constraints is written, with exactly its entries |
| Staging.Strikes | internal/store/partition.go:180-241 | a delete newer than its row, unblocked and let through, is carried out |
| Staging.RefusalRelogs | internal/store/pipeline.go:320-355 | a blocked one changes no row and re-delivers the row and its children |
| Retiring.BlockedDeleteMarks | internal/store/master.go:305-309 | the delete of a row still needed keeps it, marks it retired and touches no other row |
| Retiring.BlockedDeleteTells | internal/store/pipeline.go:343-355 | and tells every device that the row and its children are there |
| Retiring.UnblockedDeleteRemoves | internal/store/partition.go:186-241 | an unblocked one removes the row with its children, tells of each, and leaves nothing pointing at it |
| Retiring.DeleteIsAnswered | internal/store/partition.go:186-199 | neither is ever refused: the rewritten write cannot lose its merge |
| Retiring.PruneSparesTheUsed | internal/store/master_prune_item.go:71-113 | a prune of an item something uses changes no row and no log |
| Retiring.PruneIsTrueExactly | internal/store/master_prune_item.go:36-66 | a prune answers that it pruned; the item is gone exactly when the clock read before the transaction still beat the row's |
| Reverts.RevertWins | internal/store/conflicts.go:362-391 | a revert restores every field the stamp and the gate left it, but for a claim against packed |
| Reverts.RevertExactly | internal/store/conflicts.go:319-361 | a revert of what the endpoint does not write, of entries gone or spent, of a row that is gone or that its actor may not write is answered as that, the first that holds, and changes nothing |
| Reverts.RevertIsDecided | internal/store/conflicts.go:362-391 | one that reaches the write restores something, unless packed outranks it all |
| Reverts.TakeoverWins | internal/store/locks.go:58-130 | a takeover hands over state, holder and moment whole, from one write |
| Reverts.TakeoverExactly | internal/store/locks.go:58-130 | an item not of the trip, a claim nobody holds and one's own are answered as such and change nothing; a takeover names who held the claim |
| Readings.ReadingExactly | internal/store/conflicts.go:257-297 | a revert reads the losing value of every unreverted entry the same push left in the same merge unit, and nothing else |
| Readings.ReadExactly | internal/store/conflicts.go:203-240 | and it reads exactly where the entry is the partition's, its row the user's to see, and something is still lost |
| Readings.LookedExactly | internal/store/conflicts.go:203-297 | over any run what may be reverted is what somebody read, all of it and nothing else |
| Readings.PushLogs | internal/store/pipeline.go:359-371 | what a push lost of the client's own columns is logged as it sent it, beside what stood |
| Readings.RevertRestoresWhatWasSent | internal/store/conflicts.go:319-409 | from end to end: a push lost a value, somebody read the loss, somebody reverted it; the cell holds what that push sent |
| Reverts.FlagFlipsExactly | internal/store/conflicts.go:319-409 | an entry's flag flips exactly when the write that restores it commits, and never back |
| Reverts.RunIsAtomic | internal/store/conflicts.go:263-297 | in every reachable state the entries one push lost from one group share one flag |
| Replay.RepeatIsAnsweredAsFirst | internal/store/pipeline.go:82-118 | a repeated mutation is answered `duplicate` with the first attempt's position and conflicts, refused or not |
| Replay.RepeatsDoNotCount | internal/store/partition.go:143-147 | a run ends as it does without its repeats |
| Store.Tx.Append | internal/store/pipeline.go:293-305 | one entry at the end of a feed, refused when the feed's trip is gone |
| Store.Tx.AppendAll | internal/store/partition.go:226-241 | one entry per key, numbered on |
| Store.Tx.CascadeChildren | internal/store/master.go:382-397 | the rows the child queries name, query by query |
| Store.Tx.StillReferenced | internal/store/master.go:314-339 | whether any declared reference names the row |
| Store.Tx.RelogRefused | internal/store/pipeline.go:320-355 | a refusal's re-delivery of the row, and of its children for a delete |
| Store.Tx.Persist | internal/store/pipeline.go:187-257 | the write of a merge: nothing, a delete, an update or an insert |
| Store.Tx.AfterMasterChange | internal/store/master.go:35-73 | the founder's row and the extra entries the master partition owes |
| Store.Tx.LogConflicts | internal/store/pipeline.go:359-371 | one conflict entry per lost field |
| Store.Tx.ClaimEntries | internal/store/conflicts.go:319-360 | every entry of the group is claimed, or none |
| Store.Tx.UpdateRow | internal/store/pipeline.go:240-257 | the update of a row, refused by a constraint |
| Store.Server.ApplyMutation | internal/store/partition.go:133-253 | the push as it runs is `Pipeline.Apply`: the same database and answer, which `Answers` and `Identities` read off what was pushed |
| Store.Server.LoadConflict | internal/store/conflicts.go:203-297 | the reads before a revert are those of one moment; what comes out is `Readings.ReadingExactly` |
| Store.Server.ApplyRevert | internal/store/conflicts.go:319-409 | the revert as it runs is `Restoring.Restore`: the same database, generator and answer |
| Store.Server.TakeOverClaim | internal/store/locks.go:58-130 | the takeover as it runs is `Restoring.TakeOver` |
| Store.Server.DeleteMasterRow | internal/store/master_delete_row.go:52-119 | a missing row and a table it does not serve are answered as such and change nothing; a retirable row is never refused, and is answered as kept exactly when something still names it: then it is there and marked, and otherwise gone |
| Store.Server.PruneMasterItem | internal/store/master_prune_item.go:36-66 | an item in use is not pruned and no row changes; with nobody writing in between, an item answered as pruned was there and is gone |
| Rosters.ListedExactly | internal/api/hub.go:434-506 | somebody is listed under a trip exactly when they have it open and both may see it |
| Rosters.ViewedExactly | internal/api/hub.go:434-506 | a user has a trip open exactly when a connection of theirs does |
| Rosters.Hub.TakeSnapshot | internal/api/hub.go:434-506 | the locked part of a broadcast: the next generation, who views what, and whom to send |
| Rosters.Hub.Deliver | internal/api/hub.go:434-506 | a frame is queued only above the generations already sent, and an empty roster for one connection alone is not sent; who is given up on is `Followers.StoppedExactly` |
| Rosters.Hub.Enqueue | internal/api/hub.go:576-582 | a full queue drops the connection, a free one takes the frame |
| Rosters.Hub.Register | internal/api/hub.go:135-143 | a new connection, nothing open and nothing sent |
| Rosters.Hub.Unregister | internal/api/hub.go:147-165 | a connection leaves, and whether it was viewing |
| Rosters.Hub.SetViewing | internal/api/hub.go:170-178 | a connection opens a trip, and whether that changed anything |
| Broadcasting.GenerationsRise | internal/api/hub.go:434-506 | frames queued to one peer have strictly rising generations, whatever overtakes what |
| Broadcasting.QuietIsRight | internal/api/hub.go:134-184 | once every broadcast has finished, each present peer's last roster is that of the viewing as it is |
| Followers.StoppedExactly | internal/api/hub.go:568-582 | a connection is given up on exactly when it leaves or a frame for it finds 64 waiting |
| Followers.QueuedExactly | internal/api/hub.go:490-506 | a frame with room is queued, a newer roster at the end of those before it, and nothing else is |
| Followers.CalledExactly | internal/api/hub.go:147-184 | a roster is called for exactly when a socket opens, for it alone, or when what is viewed changes, for everybody |
| Followers.KeepingUpIsRight | internal/api/hub.go:434-506 | so whoever keeps up is followed, and shows the viewing as it is once every broadcast has finished |
| Reminders.NextTick | internal/notify/timed.go:31-33 | the next whole minute, strictly later |
| Reminders.MomentsInOrder | internal/notify/timed.go:18-20 | moments compare as text as their days do, and on one day as their minutes do |
| Reminders.PlannedExactly | internal/notify/timed.go:39-65 | somebody is reminded of a task exactly when it falls due in the window and they are among its recipients |
| Reminders.RecipientsExactly | internal/notify/due.go:103-116 | the recipients are the trip's members, and of those the assignee alone where that is one of them |
| Reminders.CutIsIdle | internal/notify/timed.go:39-65 | cutting a window at the day's start never decides |
| Reminders.PlanTimedTaskDue | internal/notify/timed.go:39-65 | the loop plans exactly those reminders, in order |
| Reminders.Notifier.AdvanceTimedReminderMark | internal/store/taskdue.go:230-254 | the mark moves forward only, and hands out the window it passed |
| Reminders.Notifier.RemindTimed | internal/notify/timed.go:70-90 | one wake-up: the claim first, then the plan for what it found |
| Reminders.WindowsAreDisjoint | internal/store/taskdue.go:230-254 | no two claimed windows overlap, whatever the clock did |
| Reminders.WindowsAreConsecutive | internal/store/taskdue.go:230-254 | and each starts where the one before it ended |
| Reminders.HeldExactly | internal/store/taskdue.go:230-254 | a window holds a moment exactly when its wake-up is the first from it on, and not the first of all |
| Reminders.RemindedAtMostOnce | internal/notify/timed.go:39-90 | a task with fixed day and time is reminded at most once |
| Reminders.RemindedExactly | internal/notify/timed.go:39-90 | and exactly when the mark was set before its moment and the first wake-up from it on falls on its day and finds its tasks |

## Findings

Properties the code does not have as its comments promise them. Each is shown at a run or an input, with the
exact condition under which it does hold.

| where | as written | shown by | holds exactly when |
|---|---|---|---|
| internal/store/tables_registry.go:485-496, 546-572, 617-640 | a delete takes rows of a trip's feed without an entry there: ticks, participants, excursion items, votes and comments on ideas may name rows of another trip | `Witnesses.TickIsLost` | `Feeds.StepKeepsFaithfulExactly`, step by step; over runs while what is named is of the trip, `TripRuns.TripsConverge` |
| internal/store/pipeline.go:343-355 | a refused delete re-delivers rows of another trip | `Refusals.RefusalRevivesForeign` | the same |
| internal/store/notethreads.go:43-83, internal/store/tables_registry.go:358-372 | an edit may hang a note with replies on an item, whose delete then names the note but not its replies | `Witnesses.ReplyIsLost` | the same; over runs while `trip_item_id` is set on insert alone, `TripRuns.DiscussionsConverge` |
| internal/store/notethreads.go:114-131 | a parent named by the empty id is taken for no parent, so a thread can be two levels deep | `Witnesses.ThreadDeepens`, `Witnesses.AnswerIsLost` | `Threads.WriteKeepsThreads`; over runs while no comment has the empty id, `Reachable.RunKeepsThreads` |
| internal/store/schema.sql:496-526 | a row whose link a delete sets to NULL changes without an entry, so devices keep the old link | `Gaps.LettingGoIsSilent` | the same lemma; over runs `Deliveries.DevicesHaveRows` |
| internal/store/master.go:437-445 | a membership write may resurface another trip than the one its row ends in, or none when the trip's id is empty, and the member is never told of the trip | `LostGrants.GrantIsLost` | `Granting.GrantResurfaces`; over runs `Deliveries.GrantDelivers` |
| internal/store/master_prune_item.go:36-66 | a prune answers that it pruned an item that is still there, when a push overtook the clock it read | `Retiring.PruneIsTrueExactly` | the same lemma |
| internal/sync/merge.go:282-297 | the row's clock depends on the order writes arrive in | `RowClocks.RowClockDependsOnOrder` | `RowClocks.RowClockIsOneExactly` |
| internal/sync/merge.go:99-103, 143-145, 256-275, internal/store/pipeline.go:207-221 | an idea carries no packed count, so its state is decided by the row's clock and not its own: set offline, it is lost to a later edit of the title | `IdeaRuns.StateIsOverlooked` | one write at a time `IdeaStates.OwnClockDecidesExactly`; over all orders `IdeaStates.StateIsOneExactly` |
| internal/store/tables.go:83-86, internal/store/master.go:380-382, internal/store/partition.go:222-234 | the deleted row's own tombstone comes before those of all its children, where a child is promised before its parent, always | `TombstoneRuns.NoteBeforeTick` | `TombstoneOrder.LeavesFirstExactly`; of any removal of any run `TombstoneRuns.EveryRemoval` |
| internal/store/tables_registry.go:358-372, 466-480 | the children of comments and of packing rows are listed comments first and the ticks on them after, where the query promises leaves first | `TombstoneRuns.ItemBeforeNoteBeforeTick` | `TombstoneOrder.ChildrenLeafFirstExactly`; always in the other tables, `TombstoneOrder.ChildrenLeafFirst` |

## Left out

- The deletion of a trip as seen by its own feed: the log goes with the trip, so a trip's feed is claimed only while the trip lives.
- Master tables shown to members or owners only, other than trips: a grant resurfaces the trip row alone, so of the others it is claimed that a copy was its user's to see and was the row at some moment (`Sights.CopiesAreEarned`), not that it is there or current.
- The presence broadcast: it is guarded by generations as the roster broadcast is, one trip at a time.
- The order the roster lists people in, and the JSON of every frame.
- Constraints without a rule of their own here (UNIQUE, most CHECK clauses, references to users, NOT NULL without a foreign key): a world says whether they accept a write, and every result holds for either answer.
- SQLite's type affinity: a column holds the value that was written, booleans as numbers.
- Defaults read from the clock, such as `created_at`: the column is as sent, or NULL.
- Uploads of images and tracks, which write rows beside the pipeline.
- The activity log, lock events, notifications other than timed reminders, exports and backups.
- HTTP, JSON, sessions and the WebSocket transport; a device is only what its pulls made of it.
- Wrap-around of SQLite's 64-bit sequence numbers and of the hub's unsigned generation counter.
- Store.Server.DeleteMasterRow: runs with nobody writing between its reads and its transaction; over runs the two are apart, as a minted clock and a push, and the race is `Retiring.PruneIsTrueExactly`.
- Store.Server.PruneMasterItem: the same.
- Pull.PullPage: judges an entity at one moment, where a row of a trip in the master feed (internal/store/master.go:464-477) takes two reads, one for its trip and one for the membership, and a push may fall between them. For the trip itself the answer is that of one of the two moments; a row of another such table, moved from trip to trip between the two reads, may be judged by a trip it no longer hangs off.
- Convergence.Drain: pulls with nobody writing; with writers the result is `Timelines.DrainedDevicesAreRight`.
- TripRuns.TripsConverge: leaves aside the links a delete elsewhere may empty; `Deliveries.DevicesHaveRows` says when they agree too. What it asks of pushes it asks of refused ones as well.
- Deliveries.GrantDelivers: is about the trip's row, which a grant resurfaces; nothing is claimed of the membership rows a device holds.
- Staging.StrikeGoesUntold: is about rows of trip feeds, where the gaps are.
- Retiring.PruneIsTrueExactly: assumes a world whose other constraints accept the delete, since a refusal is not answered as pruned.
