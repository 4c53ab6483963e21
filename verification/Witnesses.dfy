// Runs in which the log falls short of the database. Each starts empty, asks
// only what the endpoints accept, and ends with a row a feed is wrong about
// (internal/store/tables_registry.go, notethreads.go).
module Witnesses {
  import opened Values
  import opened Vocabulary
  import opened Merging
  import opened Registry
  import opened Database
  import opened Guards
  import opened Pipeline
  import opened System
  import opened Cascading
  import opened Feeds
  import opened Discussions
  import opened Threads
  import opened Laws
  import opened Timelines
  import opened Staging
  import opened Arrivals
  import Catalog
  import Fittings
  import Gaps
  import Hlc

  /** What the runs of this module ask of a registry. */
  ghost predicate Fits(reg: Registry) {
    Lawful(reg) && TripsFit(reg) && CommentsFit(reg) && TicksFit(reg) && ItemsFit(reg)
  }

  lemma DeclarationFits()
    ensures Fits(Catalog.Declaration())
  {
    hide Catalog.Declaration, Lawful, TripsFit, CommentsFit, TicksFit, ItemsFit;
    DeclarationIsLawful();
    Fittings.TripsFitHolds();
    Fittings.CommentsFitHolds();
    Fittings.TicksFitHolds();
    Fittings.ItemsFitHolds();
  }

  /** A generator to start with. */
  predicate Starts(gen: Hlc.Gen) {
    gen.WellFormed() && gen.lastMillis < Hlc.MILLIS_LIMIT
  }

  /** A run that ends with a row gone from its trip, and the trip's devices told nothing. */
  ghost predicate Loses(reg: Registry, gen: Hlc.Gen, events: seq<Event>, trip: string, k: Key) {
    var db := Run(reg, Start(gen), events).db;
    Timeline(reg, gen, events) && Key(Trips, trip) in db.rows && k !in db.rows && !FaithfulAt(db, TripFeed(trip), k)
  }

  // ------------------------------------------------ a tick on another trip's note

  ghost function OneNote(): seq<Event> {
    TwoTrips() + [Pushed("t1", NewNote("t1", "c", "3", 3))]
  }

  /** A note of the first trip, and a tick on it in the second. */
  ghost function NoteAndTick(): seq<Event> {
    OneNote() + [Pushed("t2", NewTick("t2", "k", "c", "4", 4))]
  }

  ghost predicate HasNote(reg: Registry, gen: Hlc.Gen, s: Sys) {
    && Staged(reg, gen, OneNote(), s) && s.db.rows.Keys == TWO_TRIPS + {Key(Comments, "c")} && s.db.memo.Keys == {"1", "2", "3"}
    && Dated(s.db.rows, Key(Comments, "c"), Time(3)) && Cell(s.db.rows, Key(Comments, "c"), TripId) == Text("t1")
  }

  lemma NoteComes(reg: Registry, gen: Hlc.Gen) returns (s: Sys)
    requires Fits(reg) && Starts(gen)
    ensures HasNote(reg, gen, s)
  {
    hide Staged, Next, TwoTrips, Pushed, Time, Lawful, TripsFit, CommentsFit, TicksFit, ItemsFit;
    var m := NewNote("t1", "c", "3", 3);
    var before := TwoTripsArrive(reg, gen);
    NoteArrives(reg, gen, TwoTrips(), before, "t1", "c", "3", 3);
    s := Next(reg, before, Pushed("t1", m));
    assert Get(map[TripId := Text("t1"), ParentId := Null, TripItemId := Null, IsTask := Number(0.0)], TripId) == Text("t1");
  }

  ghost predicate HasTick(reg: Registry, gen: Hlc.Gen, s: Sys) {
    && Staged(reg, gen, NoteAndTick(), s)
    && s.db.rows.Keys == TWO_TRIPS + {Key(Comments, "c"), Key(NoteAcks, "k")} && s.db.memo.Keys == {"1", "2", "3", "4"}
    && Dated(s.db.rows, Key(Comments, "c"), Time(3)) && Cell(s.db.rows, Key(Comments, "c"), TripId) == Text("t1")
    && Cell(s.db.rows, Key(NoteAcks, "k"), TripId) == Text("t2") && Cell(s.db.rows, Key(NoteAcks, "k"), CommentId) == Text("c")
  }

  lemma TickComes(reg: Registry, gen: Hlc.Gen) returns (s: Sys)
    requires Fits(reg) && Starts(gen)
    ensures HasTick(reg, gen, s)
  {
    hide Staged, Next, OneNote, Pushed, Time, Lawful, TripsFit, CommentsFit, TicksFit, ItemsFit;
    var m := NewTick("t2", "k", "c", "4", 4);
    var before := NoteComes(reg, gen);
    TickArrives(reg, gen, OneNote(), before, "t2", "k", "c", "4", 4);
    s := Next(reg, before, Pushed("t2", m));
    StaysAsIs(before, s, {KeyOf(m)}, "4", Key(Comments, "c"));
  }

  /** A row that was there is there as it was. */
  lemma StaysAsIs(a: Sys, b: Sys, some: set<Key>, mutationId: string, k: Key)
    requires Joins(a, b, some, mutationId) && k in a.db.rows
    ensures k in b.db.rows && Load(b.db.rows, k) == Load(a.db.rows, k) && forall c :: Cell(b.db.rows, k, c) == Cell(a.db.rows, k, c)
    ensures forall at :: Dated(a.db.rows, k, at) ==> Dated(b.db.rows, k, at)
  {
  }

  lemma TickIsLostFor(reg: Registry, gen: Hlc.Gen)
    requires Fits(reg) && Starts(gen)
    ensures Loses(reg, gen, NoteAndTick() + [Pushed("t1", Strike(Comments, "c", "5", 5))], "t2", Key(NoteAcks, "k"))
  {
    hide Staged, NoteAndTick, Timeline, Run, FaithfulAt, Doomed, Striking, Time, Lawful, TripsFit, CommentsFit, TicksFit, ItemsFit, Blocked,
      ThreadsCascade, Next;
    var c, k, m := Key(Comments, "c"), Key(NoteAcks, "k"), Strike(Comments, "c", "5", 5);
    var s := TickComes(reg, gen);
    TimePasses(3, 5);
    StrikeIsStriking(reg, gen, NoteAndTick(), s, "t1", Comments, "c", "5", 5);
    LawfulIsThreaded(reg);
    DoomedIsClosed(reg, s.db.rows, {c});
    LinkDooms(reg, s.db.rows, k, CommentId, Doomed(reg, s.db.rows, {c}));
    StrikeGoesUntold(reg, gen, NoteAndTick(), s, On("t1"), Server("spare"), m, m, "t2", k);
  }

  /** Of the declared server: a tick goes with another trip's note, and its own trip's devices are told nothing. */
  lemma TickIsLost(gen: Hlc.Gen)
    requires Starts(gen)
    ensures Loses(
      Catalog.Declaration(), gen, NoteAndTick() + [Pushed("t1", Strike(Comments, "c", "5", 5))], "t2", Key(NoteAcks, "k"))
  {
    hide Catalog.Declaration, Loses, Fits, NoteAndTick;
    DeclarationFits();
    TickIsLostFor(Catalog.Declaration(), gen);
  }

  // ----------------------------------------------- a note moved onto an item

  ghost function ItemAndNote(): seq<Event> {
    TwoTrips() + [Pushed("t1", NewItem("t1", "i", "3", 3))] + [Pushed("t1", NewNote("t1", "n", "4", 4))]
  }

  /** An item of the trip, and a note on none. */
  ghost predicate HasItemAndNote(reg: Registry, gen: Hlc.Gen, s: Sys) {
    && Staged(reg, gen, ItemAndNote(), s) && s.db.rows.Keys == TWO_TRIPS + {Key(TripItems, "i"), Key(Comments, "n")}
    && s.db.memo.Keys == {"1", "2", "3", "4"} && FirstNote(s.db.rows, "t1", "n")
    && Dated(s.db.rows, Key(TripItems, "i"), Time(3)) && Dated(s.db.rows, Key(Comments, "n"), Time(4))
    && Cell(s.db.rows, Key(TripItems, "i"), TripId) == Text("t1")
  }

  lemma ItemAndNoteCome(reg: Registry, gen: Hlc.Gen) returns (s: Sys)
    requires Fits(reg) && Starts(gen)
    ensures HasItemAndNote(reg, gen, s)
  {
    hide Staged, Next, TwoTrips, Pushed, Time, FirstNote, Lawful, TripsFit, CommentsFit, TicksFit, ItemsFit;
    var item, note := NewItem("t1", "i", "3", 3), NewNote("t1", "n", "4", 4);
    var before := TwoTripsArrive(reg, gen);
    ItemArrives(reg, gen, TwoTrips(), before, "t1", "i", "3", 3);
    var first := Next(reg, before, Pushed("t1", item));
    assert Get(map[TripId := Text("t1")], TripId) == Text("t1");
    NoteArrives(reg, gen, TwoTrips() + [Pushed("t1", item)], first, "t1", "n", "4", 4);
    s := Next(reg, first, Pushed("t1", note));
    StaysAsIs(first, s, {KeyOf(note)}, "4", Key(TripItems, "i"));
    ReadsAsFirstNote(s.db.rows, "t1", "n");
  }

  lemma ReadsAsFirstNote(rows: Rows, trip: string, id: string)
    requires Key(Comments, id) in rows
    requires Reads(rows, Key(Comments, id), map[TripId := Text(trip), ParentId := Null, TripItemId := Null, IsTask := Number(0.0)])
    ensures FirstNote(rows, trip, id)
  {
    var values := map[TripId := Text(trip), ParentId := Null, TripItemId := Null, IsTask := Number(0.0)];
    assert TripId in values && ParentId in values && TripItemId in values && IsTask in values;
  }

  lemma FirstNoteIsThere(rows: Rows, trip: string, id: string)
    requires FirstNote(rows, trip, id)
    ensures Key(Comments, id) in rows && TripOf(rows, Key(Comments, id)) == Text(trip)
  {
  }

  lemma StaysFirstNote(a: Sys, b: Sys, some: set<Key>, mutationId: string, trip: string, id: string)
    requires Joins(a, b, some, mutationId) && FirstNote(a.db.rows, trip, id)
    ensures FirstNote(b.db.rows, trip, id)
  {
    StaysAsIs(a, b, some, mutationId, Key(Comments, id));
  }

  ghost function NoteAndReply(): seq<Event> {
    ItemAndNote() + [Pushed("t1", NewReply("t1", "r", "n", "5", 5))]
  }

  /** And a reply to the note. */
  ghost predicate HasReply(reg: Registry, gen: Hlc.Gen, s: Sys) {
    && Staged(reg, gen, NoteAndReply(), s)
    && s.db.rows.Keys == TWO_TRIPS + {Key(TripItems, "i"), Key(Comments, "n"), Key(Comments, "r")}
    && s.db.memo.Keys == {"1", "2", "3", "4", "5"} && FirstNote(s.db.rows, "t1", "n")
    && Dated(s.db.rows, Key(TripItems, "i"), Time(3)) && Dated(s.db.rows, Key(Comments, "n"), Time(4))
    && Cell(s.db.rows, Key(TripItems, "i"), TripId) == Text("t1") && Answering(s.db.rows, "r", "t1", "n")
  }

  /** A reply of the trip, on no item. */
  predicate Answering(rows: Rows, id: string, trip: string, parent: string) {
    && Cell(rows, Key(Comments, id), TripId) == Text(trip) && Cell(rows, Key(Comments, id), ParentId) == Text(parent)
    && Cell(rows, Key(Comments, id), TripItemId) == Null
  }

  lemma ReadsAsReply(rows: Rows, id: string, trip: string, parent: string)
    requires Reads(
      rows, Key(Comments, id), map[TripId := Text(trip), ParentId := Text(parent), TripItemId := Null, IsTask := Number(0.0)])
    ensures Answering(rows, id, trip, parent)
  {
    var values := map[TripId := Text(trip), ParentId := Text(parent), TripItemId := Null, IsTask := Number(0.0)];
    assert TripId in values && ParentId in values && TripItemId in values;
  }

  lemma ReplyComes(reg: Registry, gen: Hlc.Gen) returns (s: Sys)
    requires Fits(reg) && Starts(gen)
    ensures HasReply(reg, gen, s)
  {
    hide Staged, Next, ItemAndNote, Pushed, Time, FirstNote, Lawful, TripsFit, CommentsFit, TicksFit, ItemsFit;
    var reply := NewReply("t1", "r", "n", "5", 5);
    var before := ItemAndNoteCome(reg, gen);
    ReplyArrives(reg, gen, ItemAndNote(), before, "t1", "r", "n", "5", 5);
    s := Next(reg, before, Pushed("t1", reply));
    StaysFirstNote(before, s, {KeyOf(reply)}, "5", "t1", "n");
    StaysAsIs(before, s, {KeyOf(reply)}, "5", Key(Comments, "n"));
    StaysAsIs(before, s, {KeyOf(reply)}, "5", Key(TripItems, "i"));
    ReadsAsReply(s.db.rows, "r", "t1", "n");
  }

  /** A note with a reply, moved onto an item. */
  ghost function MovedNote(): seq<Event> {
    NoteAndReply() + [Pushed("t1", HangOn("n", "i", "6", 6))]
  }

  ghost predicate HasMovedNote(reg: Registry, gen: Hlc.Gen, s: Sys) {
    && Staged(reg, gen, MovedNote(), s)
    && s.db.rows.Keys == TWO_TRIPS + {Key(TripItems, "i"), Key(Comments, "n"), Key(Comments, "r")}
    && s.db.memo.Keys == {"1", "2", "3", "4", "5", "6"} && Dated(s.db.rows, Key(TripItems, "i"), Time(3))
    && Cell(s.db.rows, Key(TripItems, "i"), TripId) == Text("t1") && Answering(s.db.rows, "r", "t1", "n")
    && Cell(s.db.rows, Key(Comments, "n"), TripItemId) == Text("i")
  }

  lemma NoteMoves(reg: Registry, gen: Hlc.Gen) returns (s: Sys)
    requires Fits(reg) && Starts(gen)
    ensures HasMovedNote(reg, gen, s)
  {
    hide Staged, Next, NoteAndReply, Pushed, Time, FirstNote, Lawful, TripsFit, CommentsFit, TicksFit, ItemsFit;
    var m := HangOn("n", "i", "6", 6);
    var before := ReplyComes(reg, gen);
    TimePasses(4, 6);
    FirstNoteIsThere(before.db.rows, "t1", "n");
    NoteHangs(reg, gen, NoteAndReply(), before, "t1", "n", "i", "6", 6);
    s := Next(reg, before, Pushed("t1", m));
    assert Load(s.db.rows, Key(Comments, "r")) == Load(before.db.rows, Key(Comments, "r"));
    assert Load(s.db.rows, Key(TripItems, "i")) == Load(before.db.rows, Key(TripItems, "i"));
    assert Get(m.fields, TripItemId) == Text("i");
  }

  lemma ReplyIsLostFor(reg: Registry, gen: Hlc.Gen)
    requires Fits(reg) && Starts(gen)
    ensures Loses(reg, gen, MovedNote() + [Pushed("t1", Strike(TripItems, "i", "7", 7))], "t1", Key(Comments, "r"))
  {
    hide Staged, MovedNote, Timeline, Run, FaithfulAt, Doomed, Named, Striking, Time, Lawful, TripsFit, TicksFit, ItemsFit, Blocked, Next,
      ThreadsCascade, Ticked;
    var m := Strike(TripItems, "i", "7", 7);
    var s := NoteMoves(reg, gen);
    TimePasses(3, 7);
    StrikeIsStriking(reg, gen, MovedNote(), s, "t1", TripItems, "i", "7", 7);
    LawfulIsThreaded(reg);
    Gaps.RepliesGoUnnamed(reg, s.db.rows, Key(TripItems, "i"), Key(Comments, "n"), Key(Comments, "r"));
    StrikeGoesUntold(reg, gen, MovedNote(), s, On("t1"), Server("spare"), m, m, "t1", Key(Comments, "r"));
  }

  /** Of the declared server: a reply goes with the item its note was moved onto, and nobody is told. */
  lemma ReplyIsLost(gen: Hlc.Gen)
    requires Starts(gen)
    ensures Loses(Catalog.Declaration(), gen, MovedNote() + [Pushed("t1", Strike(TripItems, "i", "7", 7))], "t1", Key(Comments, "r"))
  {
    hide Catalog.Declaration, Loses, Fits, MovedNote;
    DeclarationFits();
    ReplyIsLostFor(Catalog.Declaration(), gen);
  }

  // -------------------------------------------------- a reply with the empty id

  ghost function FirstNoteOf(): seq<Event> {
    TwoTrips() + [Pushed("t1", NewNote("t1", "a", "3", 3))]
  }

  ghost predicate HasFirstNote(reg: Registry, gen: Hlc.Gen, s: Sys) {
    && Staged(reg, gen, FirstNoteOf(), s) && s.db.rows.Keys == TWO_TRIPS + {Key(Comments, "a")} && s.db.memo.Keys == {"1", "2", "3"}
    && FirstNote(s.db.rows, "t1", "a") && Dated(s.db.rows, Key(Comments, "a"), Time(3))
  }

  lemma FirstNoteComes(reg: Registry, gen: Hlc.Gen) returns (s: Sys)
    requires Fits(reg) && Starts(gen)
    ensures HasFirstNote(reg, gen, s)
  {
    hide Staged, Next, TwoTrips, Pushed, Time, FirstNote, Lawful, TripsFit, CommentsFit, TicksFit, ItemsFit;
    var before := TwoTripsArrive(reg, gen);
    NoteArrives(reg, gen, TwoTrips(), before, "t1", "a", "3", 3);
    s := Next(reg, before, Pushed("t1", NewNote("t1", "a", "3", 3)));
    ReadsAsFirstNote(s.db.rows, "t1", "a");
  }

  ghost function EmptyReply(): seq<Event> {
    FirstNoteOf() + [Pushed("t1", NewReply("t1", "", "a", "4", 4))]
  }

  ghost predicate HasEmptyReply(reg: Registry, gen: Hlc.Gen, s: Sys) {
    && Staged(reg, gen, EmptyReply(), s) && s.db.rows.Keys == TWO_TRIPS + {Key(Comments, "a"), Key(Comments, "")}
    && s.db.memo.Keys == {"1", "2", "3", "4"} && FirstNote(s.db.rows, "t1", "a") && Dated(s.db.rows, Key(Comments, "a"), Time(3))
    && Answering(s.db.rows, "", "t1", "a")
  }

  lemma EmptyReplyComes(reg: Registry, gen: Hlc.Gen) returns (s: Sys)
    requires Fits(reg) && Starts(gen)
    ensures HasEmptyReply(reg, gen, s)
  {
    hide Staged, Next, FirstNoteOf, Pushed, Time, FirstNote, Lawful, TripsFit, CommentsFit, TicksFit, ItemsFit;
    var reply := NewReply("t1", "", "a", "4", 4);
    var before := FirstNoteComes(reg, gen);
    ReplyArrives(reg, gen, FirstNoteOf(), before, "t1", "", "a", "4", 4);
    s := Next(reg, before, Pushed("t1", reply));
    StaysFirstNote(before, s, {KeyOf(reply)}, "4", "t1", "a");
    StaysAsIs(before, s, {KeyOf(reply)}, "4", Key(Comments, "a"));
    ReadsAsReply(s.db.rows, "", "t1", "a");
  }

  /** A note, a reply with the empty id, and an answer to that reply. */
  ghost function DeepThread(): seq<Event> {
    EmptyReply() + [Pushed("t1", NewReply("t1", "b", "", "5", 5))]
  }

  ghost predicate HasDeepThread(reg: Registry, gen: Hlc.Gen, s: Sys) {
    && Staged(reg, gen, DeepThread(), s) && s.db.rows.Keys == TWO_TRIPS + {Key(Comments, "a"), Key(Comments, ""), Key(Comments, "b")}
    && s.db.memo.Keys == {"1", "2", "3", "4", "5"} && FirstNote(s.db.rows, "t1", "a") && Dated(s.db.rows, Key(Comments, "a"), Time(3))
    && Answering(s.db.rows, "", "t1", "a") && Answering(s.db.rows, "b", "t1", "")
  }

  lemma DeepThreadComes(reg: Registry, gen: Hlc.Gen) returns (s: Sys)
    requires Fits(reg) && Starts(gen)
    ensures HasDeepThread(reg, gen, s)
  {
    hide Staged, Next, EmptyReply, Pushed, Time, FirstNote, Lawful, TripsFit, CommentsFit, TicksFit, ItemsFit;
    var answer := NewReply("t1", "b", "", "5", 5);
    var before := EmptyReplyComes(reg, gen);
    ReplyArrives(reg, gen, EmptyReply(), before, "t1", "b", "", "5", 5);
    s := Next(reg, before, Pushed("t1", answer));
    StaysFirstNote(before, s, {KeyOf(answer)}, "5", "t1", "a");
    StaysAsIs(before, s, {KeyOf(answer)}, "5", Key(Comments, "a"));
    StaysAsIs(before, s, {KeyOf(answer)}, "5", Key(Comments, ""));
    ReadsAsReply(s.db.rows, "b", "t1", "");
  }

  /** A run that ends with a thread deeper than one level. */
  ghost predicate Deepens(reg: Registry, gen: Hlc.Gen, events: seq<Event>) {
    Timeline(reg, gen, events) && !OneLevel(Run(reg, Start(gen), events).db.rows)
  }

  /** Of the declared server: the thread rule takes the empty id for no parent. */
  lemma ThreadDeepens(gen: Hlc.Gen)
    requires Starts(gen)
    ensures Deepens(Catalog.Declaration(), gen, DeepThread())
  {
    hide Catalog.Declaration, Fits, DeepThread, Timeline, Run;
    DeclarationFits();
    var s := DeepThreadComes(Catalog.Declaration(), gen);
    assert IsReply(s.db.rows, Key(Comments, "b")) && !ThreadOk(s.db.rows, Key(Comments, "b"));
  }

  lemma AnswerIsLostFor(reg: Registry, gen: Hlc.Gen)
    requires Fits(reg) && Starts(gen)
    ensures Loses(reg, gen, DeepThread() + [Pushed("t1", Strike(Comments, "a", "6", 6))], "t1", Key(Comments, "b"))
  {
    hide Staged, DeepThread, Timeline, Run, FaithfulAt, Doomed, Named, Striking, Time, Lawful, TripsFit, TicksFit, ItemsFit, Blocked, Next,
      ThreadsCascade, Ticked, FirstNote;
    var m := Strike(Comments, "a", "6", 6);
    var s := DeepThreadComes(reg, gen);
    TimePasses(3, 6);
    FirstNoteIsThere(s.db.rows, "t1", "a");
    StrikeIsStriking(reg, gen, DeepThread(), s, "t1", Comments, "a", "6", 6);
    LawfulIsThreaded(reg);
    Gaps.AnswersGoUnnamed(reg, s.db.rows, Key(Comments, "a"), Key(Comments, ""), Key(Comments, "b"));
    StrikeGoesUntold(reg, gen, DeepThread(), s, On("t1"), Server("spare"), m, m, "t1", Key(Comments, "b"));
  }

  /** Of the declared server: when the note is deleted the answer goes with it and nobody is told. */
  lemma AnswerIsLost(gen: Hlc.Gen)
    requires Starts(gen)
    ensures Loses(Catalog.Declaration(), gen, DeepThread() + [Pushed("t1", Strike(Comments, "a", "6", 6))], "t1", Key(Comments, "b"))
  {
    hide Catalog.Declaration, Loses, Fits, DeepThread;
    DeclarationFits();
    AnswerIsLostFor(Catalog.Declaration(), gen);
  }

  lemma TimePasses(i: int, j: int)
    requires 0 <= i < j
    ensures Time(i) < Time(j)
  {
  }
}
