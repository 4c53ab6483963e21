// The order of a delete's tombstones in runs: when it is leaf first, and two
// short runs in which every parent comes before its child
// (internal/store/partition.go, internal/store/master.go).
module TombstoneRuns {
  import opened Values
  import opened Vocabulary
  import opened Merging
  import opened Registry
  import opened Database
  import opened Guards
  import opened Pipeline
  import opened System
  import opened Cascading
  import opened Feeds
  import opened Clocks
  import opened Discussions
  import opened Threads
  import opened Laws
  import opened Reachable
  import opened Timelines
  import opened Staging
  import opened Arrivals
  import opened Witnesses
  import opened TombstoneOrder
  import Catalog
  import Hlc

  /** When the entries of a removal, and its children alone, are leaf first. */
  ghost predicate LeafFirstExactly(reg: Registry, rows: Rows, t: Step) {
    match t.act
    case Removed(w, sent, m) =>
      var k := KeyOf(m);
      var kids := KidsOf(reg, rows, k, w);
      && (LeavesFirst(reg, rows, t.notes) <==> kids == [])
      && (LeafFirst(reg, rows, kids) <==> TicksApart(rows, kids) && RepliesFirst(rows, kids))
      && (!k.table.Comments? && !k.table.TripItems? ==> LeafFirst(reg, rows, kids))
    case _ => true
  }

  /** Whatever an event of a run removes, it tells of as said. */
  lemma EveryRemoval(reg: Registry, gen: Hlc.Gen, events: seq<Event>, e: Event) returns (t: Step)
    requires Timeline(reg, gen, events) && Admissible(reg, Run(reg, Start(gen), events), e)
    ensures var s := Run(reg, Start(gen), events);
      Took(reg, s.db, Next(reg, s, e).db, t) && LeafFirstExactly(reg, s.db.rows, t)
  {
    hide Admissible, Next, Kept, Lawful, Runs, Run, Honest, Stepped, Orderly, ThreadsCascade, Ticked, LeafFirst, LeavesFirst, TicksApart,
      RepliesFirst, KidsOf, SchemaOk;
    var s := Run(reg, Start(gen), events);
    RunIsKept(reg, gen, events);
    LawfulIsStepped(reg);
    LawfulIsThreaded(reg);
    t := EventSteps(reg, s, e);
    if t.act.Removed? { RemovalIsOrdered(reg, s.db, Next(reg, s, e).db, t); }
  }

  lemma RemovalIsOrdered(reg: Registry, a: Db, b: Db, t: Step)
    requires Honest(reg) && Stepped(reg) && Orderly(reg) && ThreadsCascade(reg) && Ticked(reg)
    requires Took(reg, a, b, t) && FairStep(t) && t.act.Removed?
    ensures LeafFirstExactly(reg, a.rows, t)
  {
    hide Honest, Stepped, Orderly, ThreadsCascade, Ticked, Fair, LeafFirst, LeavesFirst, TicksApart, RepliesFirst, KidsOf, PassedGate,
      Blocked, Deleted, SchemaOk;
    var k, w := KeyOf(t.act.m), t.act.w;
    LeavesFirstExactly(reg, a.rows, w, k, t.act.m.hlc);
    ChildrenLeafFirstExactly(reg, a.rows, k, w);
    if !k.table.Comments? && !k.table.TripItems? { ChildrenLeafFirst(reg, a.rows, k, w); }
  }

  // ------------------------------------------------------------------- the witness

  /** A run whose last event tells a trip of these rows' deletes, each hanging off the one before. */
  ghost predicate TellsParentsFirst(
    reg: Registry, gen: Hlc.Gen, events: seq<Event>, e: Event, trip: string, keys: seq<Key>, at: Clock)
  {
    var a, b := Run(reg, Start(gen), events).db, Run(reg, Start(gen), events + [e]).db;
    && Timeline(reg, gen, events + [e])
    && LogOf(b, TripFeed(trip)) == LogOf(a, TripFeed(trip)) + Numbered(Notes(keys, true, at), a.head)
    && forall i: int | 0 < i < |keys| :: Hangs(reg, a.rows, keys[i], {keys[i - 1]})
  }

  lemma ListedOne(k: Key)
    ensures Listed({k}) == [k]
  {
    var x :| x in {k} && Listed({k}) == [x] + Listed({k} - {x});
    assert {k} - {x} == {};
  }

  /** What an unblocked delete tells its trip. */
  lemma StrikeTells(reg: Registry, gen: Hlc.Gen, events: seq<Event>, s: Sys, trip: string, m: Mutation)
    requires Staged(reg, gen, events, s) && Striking(reg, s, On(trip), Server("spare"), m, m) && !Blocked(reg, s.db.rows, KeyOf(m))
    ensures var e := Pushed(trip, m);
      && Timeline(reg, gen, events + [e])
      && LogOf(Run(reg, Start(gen), events + [e]).db, TripFeed(trip)) ==
           LogOf(s.db, TripFeed(trip)) + Numbered(Tombstones(reg, s.db.rows, Server("spare"), KeyOf(m), m.hlc), s.db.head)
  {
    hide SchemaOk, Blocked, Fair, Gate, Kept, Clocked, Lawful, Runs, Next, Ordered, AllLive, Admissible, Tombstones, Deleted, Valid;
    StageIsKept(reg, gen, events, s);
    LawfulIsLasting(reg);
    Strikes(reg, s, On(trip), Server("spare"), m, m);
    PushIsAdmissible(reg, s, On(trip), Server("spare"), m);
    OneMore(reg, gen, events, Pushed(trip, m));
  }

  /** An item, and a note on none with its author's tick. */
  ghost function TickedNote(): seq<Event> {
    ItemAndNote() + [Pushed("t1", NewTick("t1", "k", "n", "5", 5))]
  }

  const ITEM := Key(TripItems, "i")
  const NOTE := Key(Comments, "n")
  const TICK := Key(NoteAcks, "k")

  ghost predicate HasTickedNote(reg: Registry, gen: Hlc.Gen, s: Sys) {
    && Staged(reg, gen, TickedNote(), s) && s.db.rows.Keys == TWO_TRIPS + {ITEM, NOTE, TICK}
    && s.db.memo.Keys == {"1", "2", "3", "4", "5"} && FirstNote(s.db.rows, "t1", "n")
    && Dated(s.db.rows, ITEM, Time(3)) && Dated(s.db.rows, NOTE, Time(4))
    && Cell(s.db.rows, ITEM, TripId) == Text("t1") && Cell(s.db.rows, TICK, CommentId) == Text("n")
  }

  lemma NoteIsTicked(reg: Registry, gen: Hlc.Gen) returns (s: Sys)
    requires Fits(reg) && Starts(gen)
    ensures HasTickedNote(reg, gen, s)
  {
    hide Staged, Next, ItemAndNote, Pushed, Time, FirstNote, Lawful, TripsFit, CommentsFit, TicksFit, ItemsFit;
    var tick := NewTick("t1", "k", "n", "5", 5);
    var before := ItemAndNoteCome(reg, gen);
    TickArrives(reg, gen, ItemAndNote(), before, "t1", "k", "n", "5", 5);
    s := Next(reg, before, Pushed("t1", tick));
    StaysFirstNote(before, s, {KeyOf(tick)}, "5", "t1", "n");
    StaysAsIs(before, s, {KeyOf(tick)}, "5", NOTE);
    StaysAsIs(before, s, {KeyOf(tick)}, "5", ITEM);
  }

  const REPLIES := ChildQuery(Comments, {ParentId}, {})
  const TICKS := ChildQuery(NoteAcks, {CommentId}, {Hop(CommentId, Comments, ParentId)})

  lemma NoteQueries(rows: Rows)
    requires (forall j | j in rows && j.table.Comments? :: j == NOTE) && (forall j | j in rows && j.table.NoteAcks? :: j == TICK)
    requires TICK in rows && Cell(rows, NOTE, ParentId) == Null
    requires Cell(rows, TICK, CommentId) == Text("n")
    ensures ChildrenOf(rows, REPLIES, "n") == {} && ChildrenOf(rows, TICKS, "n") == {TICK}
  {
  }

  lemma DiscussionKeys(reg: Registry)
    requires ThreadsCascade(reg)
    ensures reg.children(Comments) == [REPLIES, TICKS] && reg.Cascades(NoteAcks, CommentId, Comments)
  {
  }

  /** What a delete of the note names. */
  lemma NoteLeads(reg: Registry, rows: Rows)
    requires ThreadsCascade(reg) && Cell(rows, TICK, CommentId) == Text("n")
    requires rows.Keys == TWO_TRIPS + {ITEM, NOTE, TICK} && Cell(rows, NOTE, ParentId) == Null
    ensures KidsOf(reg, rows, NOTE, Server("spare")) == [TICK] && Hangs(reg, rows, TICK, {NOTE})
  {
    hide Hangs, ThreadsCascade, ChildrenOf;
    DiscussionKeys(reg);
    NoteQueries(rows);
    TwoLists(REPLIES, TICKS, rows, "n", Server("spare"));
    ListedOne(TICK);
    DirectHangs(reg, rows, NOTE, TICK, CommentId);
  }

  lemma TellsInTurn(
    reg: Registry, gen: Hlc.Gen, events: seq<Event>, s: Sys, m: Mutation, kids: seq<Key>, at: Clock)
    requires Staged(reg, gen, events, s) && Striking(reg, s, On("t1"), Server("spare"), m, m) && !Blocked(reg, s.db.rows, KeyOf(m))
    requires KidsOf(reg, s.db.rows, KeyOf(m), Server("spare")) == kids && m.hlc == at
    requires forall i: int | 0 < i <= |kids| :: Hangs(reg, s.db.rows, ([KeyOf(m)] + kids)[i], {([KeyOf(m)] + kids)[i - 1]})
    ensures TellsParentsFirst(reg, gen, events, Pushed("t1", m), "t1", [KeyOf(m)] + kids, at)
  {
    hide Timeline, Run, Striking, Blocked, Next, Hangs, KidsOf, Tombstones, Server, AllLive, Faithful;
    StrikeTells(reg, gen, events, s, "t1", m);
    TellsAll(reg, s.db.rows, KeyOf(m), kids, at);
  }

  lemma NoteBeforeTickFor(reg: Registry, gen: Hlc.Gen)
    requires Fits(reg) && Starts(gen)
    ensures TellsParentsFirst(
      reg, gen, TickedNote(), Pushed("t1", Strike(Comments, "n", "6", 6)), "t1", [NOTE, TICK], Time(6))
  {
    hide Staged, TickedNote, Timeline, Run, Striking, Time, Lawful, TripsFit, CommentsFit, TicksFit, ItemsFit, Blocked, Next,
      ThreadsCascade, Hangs, FirstNote, KidsOf, Tombstones, Server, Ticked;
    var m := Strike(Comments, "n", "6", 6);
    var s := NoteIsTicked(reg, gen);
    TimePasses(4, 6);
    FirstNoteIsThere(s.db.rows, "t1", "n");
    FirstNoteIsRoot(s.db.rows, "t1", "n");
    StrikeIsStriking(reg, gen, TickedNote(), s, "t1", Comments, "n", "6", 6);
    LawfulIsThreaded(reg);
    NoteLeads(reg, s.db.rows);
    assert [NOTE] + [TICK] == [NOTE, TICK];
    TellsInTurn(reg, gen, TickedNote(), s, m, [TICK], Time(6));
  }

  lemma FirstNoteIsRoot(rows: Rows, trip: string, id: string)
    requires FirstNote(rows, trip, id)
    ensures Cell(rows, Key(Comments, id), ParentId) == Null
  {
  }

  lemma TellsAll(reg: Registry, rows: Rows, k: Key, kids: seq<Key>, at: Clock)
    requires KidsOf(reg, rows, k, Server("spare")) == kids
    ensures Tombstones(reg, rows, Server("spare"), k, at) == Notes([k] + kids, true, at)
  {
    hide KidsOf;
    assert [Note(k, true, at)] + Notes(kids, true, at) == Notes([k] + kids, true, at);
  }

  /** Of the declared server: the note's tombstone comes before its tick's. */
  lemma NoteBeforeTick(gen: Hlc.Gen)
    requires Starts(gen)
    ensures TellsParentsFirst(Catalog.Declaration(), gen,
      TickedNote(), Pushed("t1", Strike(Comments, "n", "6", 6)), "t1", [NOTE, TICK], Time(6))
  {
    hide Catalog.Declaration, TellsParentsFirst, Fits, TickedNote;
    DeclarationFits();
    NoteBeforeTickFor(Catalog.Declaration(), gen);
  }

  /** The ticked note, moved onto the item. */
  ghost function HungNote(): seq<Event> {
    TickedNote() + [Pushed("t1", HangOn("n", "i", "6", 6))]
  }

  ghost predicate HasHungNote(reg: Registry, gen: Hlc.Gen, s: Sys) {
    && Staged(reg, gen, HungNote(), s) && s.db.rows.Keys == TWO_TRIPS + {ITEM, NOTE, TICK}
    && s.db.memo.Keys == {"1", "2", "3", "4", "5", "6"} && Dated(s.db.rows, ITEM, Time(3))
    && Cell(s.db.rows, ITEM, TripId) == Text("t1") && Cell(s.db.rows, NOTE, TripItemId) == Text("i")
    && Cell(s.db.rows, TICK, CommentId) == Text("n")
  }

  lemma NoteIsHung(reg: Registry, gen: Hlc.Gen) returns (s: Sys)
    requires Fits(reg) && Starts(gen)
    ensures HasHungNote(reg, gen, s)
  {
    hide Staged, Next, TickedNote, Pushed, Time, FirstNote, Lawful, TripsFit, CommentsFit, TicksFit, ItemsFit;
    var m := HangOn("n", "i", "6", 6);
    var before := NoteIsTicked(reg, gen);
    TimePasses(4, 6);
    FirstNoteIsThere(before.db.rows, "t1", "n");
    NoteHangs(reg, gen, TickedNote(), before, "t1", "n", "i", "6", 6);
    s := Next(reg, before, Pushed("t1", m));
    assert Load(s.db.rows, ITEM) == Load(before.db.rows, ITEM) && Load(s.db.rows, TICK) == Load(before.db.rows, TICK);
    assert Get(m.fields, TripItemId) == Text("i");
  }

  const HUNG := ChildQuery(Comments, {TripItemId}, {})
  const HUNG_TICKS := ChildQuery(NoteAcks, {}, {Hop(CommentId, Comments, TripItemId)})

  lemma ItemQueries(rows: Rows)
    requires (forall j | j in rows && j.table.Comments? :: j == NOTE) && (forall j | j in rows && j.table.NoteAcks? :: j == TICK)
    requires NOTE in rows && TICK in rows && Cell(rows, NOTE, TripItemId) == Text("i") && Cell(rows, TICK, CommentId) == Text("n")
    ensures ChildrenOf(rows, HUNG, "i") == {NOTE} && ChildrenOf(rows, HUNG_TICKS, "i") == {TICK}
  {
    assert ViaHop(rows, TICK, Hop(CommentId, Comments, TripItemId), "i");
  }

  lemma ItemKeys(reg: Registry)
    requires Ticked(reg)
    ensures reg.children(TripItems) == [HUNG, HUNG_TICKS] && reg.Cascades(Comments, TripItemId, TripItems)
    ensures reg.Cascades(NoteAcks, CommentId, Comments)
  {
  }

  /** What a delete of the item names. */
  lemma ItemLeads(reg: Registry, rows: Rows)
    requires Ticked(reg) && rows.Keys == TWO_TRIPS + {ITEM, NOTE, TICK}
    requires Cell(rows, NOTE, TripItemId) == Text("i") && Cell(rows, TICK, CommentId) == Text("n")
    ensures KidsOf(reg, rows, ITEM, Server("spare")) == [NOTE, TICK]
    ensures Hangs(reg, rows, NOTE, {ITEM}) && Hangs(reg, rows, TICK, {NOTE})
  {
    hide Hangs, Ticked, ChildrenOf;
    ItemKeys(reg);
    ItemQueries(rows);
    TwoLists(HUNG, HUNG_TICKS, rows, "i", Server("spare"));
    ListedOne(NOTE);
    ListedOne(TICK);
    assert [NOTE] + [TICK] == [NOTE, TICK];
    DirectHangs(reg, rows, ITEM, NOTE, TripItemId);
    DirectHangs(reg, rows, NOTE, TICK, CommentId);
  }

  lemma ItemBeforeNoteBeforeTickFor(reg: Registry, gen: Hlc.Gen)
    requires Fits(reg) && Starts(gen)
    ensures TellsParentsFirst(
      reg, gen, HungNote(), Pushed("t1", Strike(TripItems, "i", "7", 7)), "t1", [ITEM, NOTE, TICK], Time(7))
  {
    hide Staged, HungNote, Timeline, Run, Striking, Time, Lawful, TripsFit, CommentsFit, TicksFit, ItemsFit, Blocked, Next,
      ThreadsCascade, Hangs, KidsOf, Tombstones, Server, Ticked;
    var m := Strike(TripItems, "i", "7", 7);
    var s := NoteIsHung(reg, gen);
    TimePasses(3, 7);
    StrikeIsStriking(reg, gen, HungNote(), s, "t1", TripItems, "i", "7", 7);
    LawfulIsThreaded(reg);
    ItemLeads(reg, s.db.rows);
    assert [ITEM] + [NOTE, TICK] == [ITEM, NOTE, TICK];
    TellsInTurn(reg, gen, HungNote(), s, m, [NOTE, TICK], Time(7));
  }

  /** Of the declared server: an item's tombstone comes first, and of its children's the note's before the tick's. */
  lemma ItemBeforeNoteBeforeTick(gen: Hlc.Gen)
    requires Starts(gen)
    ensures TellsParentsFirst(Catalog.Declaration(), gen,
      HungNote(), Pushed("t1", Strike(TripItems, "i", "7", 7)), "t1", [ITEM, NOTE, TICK], Time(7))
  {
    hide Catalog.Declaration, TellsParentsFirst, Fits, HungNote;
    DeclarationFits();
    ItemBeforeNoteBeforeTickFor(Catalog.Declaration(), gen);
  }
}
