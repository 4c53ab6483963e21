// Safety over whole runs: what holds after any sequence of pushes, reverts,
// takeovers and deletes, from an empty database.
module Reachable {
  import opened Values
  import opened Vocabulary
  import opened Merging
  import opened Registry
  import opened Database
  import opened Guards
  import opened Pipeline
  import opened Restoring
  import opened System
  import opened Steps
  import opened Effects
  import opened Cascading
  import opened Confinement
  import opened Feeds
  import opened Clocks
  import opened Convergence
  import opened Granting
  import opened IncludeGraph
  import opened Owners
  import opened Records
  import opened Threads
  import opened Laws
  import Hlc

  /** What a run assumes of an event: a valid clock, a listing that lists, an id never used, a wall clock before 2286. */
  ghost predicate Admissible(reg: Registry, s: Sys, e: Event) {
    && Clocking(e)
    && (!e.Look? && !e.Mint? ==> Fair(e.w))
    && (e.Push? ==> !Mentions(LogOf(s.db, MasterFeed), Key(TripMembers, e.w.memberId)))
    && (e.Mint? ==> e.seen == 0 || Hlc.IsRank(e.seen))
    && Next(reg, s, e).gen.lastMillis < Hlc.MILLIS_LIMIT
  }

  ghost predicate Runs(reg: Registry, s: Sys, events: seq<Event>) {
    events != [] ==>
      Runs(reg, s, events[..|events| - 1]) &&
      Admissible(reg, Run(reg, s, events[..|events| - 1]), events[|events| - 1])
  }

  /** Every row's clock is a valid one, and the generator can still mint one. */
  ghost predicate Ticking(s: Sys) {
    s.gen.WellFormed() && s.gen.lastMillis < Hlc.MILLIS_LIMIT && forall k | k in s.db.rows :: Hlc.IsRank(s.db.rows[k].hlc)
  }

  /** What every reachable state keeps. */
  ghost predicate Kept(reg: Registry, s: Sys) {
    && Sane(reg, s.db) && Ticking(s)
    && AllInTrip(reg, s.db.rows)
    && TwoLevel(s.db.rows)
    && OneOwner(s.db.rows)
    && RecordsMatch(s.db.rows)
    && Clocked(reg, s.db.rows)
    && Unburied(reg, s.db)
    && (forall f: Feed :: Faithful(reg, s.db, f, Sure(f)))
    && (forall f: Feed :: InOrder(s.db, f))
  }

  lemma StartIsKept(reg: Registry, gen: Hlc.Gen)
    requires gen.WellFormed() && gen.lastMillis < Hlc.MILLIS_LIMIT
    ensures Kept(reg, Start(gen))
  {
    assert forall f: Feed, k: Key :: FaithfulAt(EMPTY, f, k);
  }

  /** Observing a valid clock and minting keeps the generator well-formed. */
  lemma MintingKeeps(g: Hlc.Gen, seen: Clock, wall: int)
    requires g.WellFormed() && (seen == 0 || Hlc.IsRank(seen))
    ensures MintedAfter(g, seen, wall).WellFormed()
    ensures MintedAfter(g, seen, wall).lastMillis < Hlc.MILLIS_LIMIT ==>
      Hlc.IsRank(Hlc.Rank(MintedAfter(g, seen, wall).Reading())) &&
      Hlc.Rank(MintedAfter(g, seen, wall).Reading()) > seen
  {
    if seen != 0 {
      Hlc.UnrankRank(seen);
      if MintedAfter(g, seen, wall).lastMillis < Hlc.MILLIS_LIMIT { Hlc.MintedAbove(g, Hlc.Unranked(seen), wall); }
    }
    if MintedAfter(g, seen, wall).lastMillis < Hlc.MILLIS_LIMIT { Hlc.RankUnrank(MintedAfter(g, seen, wall).Reading()); }
  }

  /** A clock minted for a delete is past the one that was read and past all the server has seen, and no earlier than its
      wall clock; nothing else happens. */
  lemma MintIsPast(reg: Registry, s: Sys, seen: Clock, wall: int)
    requires s.gen.WellFormed() && (seen == 0 || Hlc.IsRank(seen)) && Next(reg, s, Mint(seen, wall)).gen.lastMillis < Hlc.MILLIS_LIMIT
    ensures var b := Next(reg, s, Mint(seen, wall));
      Minted(b) > seen && !s.gen.Covers(b.gen.Reading()) && b.gen.lastMillis >= wall && b.db == s.db
  {
    hide Hlc.Rank, Hlc.Unranked;
    MintingKeeps(s.gen, seen, wall);
  }

  /** A feed whose trip is gone holds nothing and says nothing. */
  lemma DeadIsFaithful(reg: Registry, db: Db, f: Feed, ts: set<Table>)
    requires Founded(reg) && Sane(reg, db) && !FeedLives(db.rows, f)
    ensures Faithful(reg, db, f, ts)
  {
    forall k: Key | Asked(reg, f, ts, k.table) ensures FaithfulAt(db, f, k) {
      if Holds(db.rows, f, k) { TripIsThere(reg, db.rows, k); }
    }
  }

  /** A server-built write leaves the generator alone or minted past the row's clock. */
  lemma RestoreMints(reg: Registry, db: Db, g: Hlc.Gen, w: Env, p: Partition, r: Reading, wall: int)
    ensures var g1 := Restore(reg, db, g, w, p, r, wall).1;
      g1 == g || (r.key in db.rows && g1 == MintedAfter(g, db.rows[r.key].hlc, wall))
  {
  }

  lemma TakeOverMints(reg: Registry, db: Db, g: Hlc.Gen, w: Env, trip: string, item: string, taker: string, wall: int)
    ensures var g1 := TakeOver(reg, db, g, w, trip, item, taker, wall).1;
      g1 == g || (Key(TripItems, item) in db.rows && g1 == MintedAfter(g, db.rows[Key(TripItems, item)].hlc, wall))
  {
  }

  /** The clock an event writes with. */
  function ClockOfEvent(e: Event, minted: Clock): Clock {
    match e
    case Push(_, m, _) => m.hlc
    case _ => minted
  }

  /** The generator after any event is well-formed, and a clock the event minted is valid. */
  lemma NextTicks(reg: Registry, s: Sys, e: Event)
    requires Ticking(s) && Admissible(reg, s, e)
    ensures Next(reg, s, e).gen.WellFormed() && Next(reg, s, e).gen.lastMillis < Hlc.MILLIS_LIMIT
    ensures Hlc.IsRank(ClockOfEvent(e, Minted(Next(reg, s, e))))
  {
    match e {
      case Revert(p, r, w, wall) =>
        RestoreMints(reg, s.db, s.gen, w, p, r, wall);
        if r.key in s.db.rows { MintingKeeps(s.gen, s.db.rows[r.key].hlc, wall); }
      case Claim(trip, item, taker, w, wall) =>
        TakeOverMints(reg, s.db, s.gen, w, trip, item, taker, wall);
        if Key(TripItems, item) in s.db.rows { MintingKeeps(s.gen, s.db.rows[Key(TripItems, item)].hlc, wall); }
      case Mint(seen, wall) => MintingKeeps(s.gen, seen, wall);
      case _ =>
    }
    Hlc.RankUnrank(Next(reg, s, e).gen.Reading());
  }

  /** Clocks stay valid: a row's is the greater of its old one and the write's. */
  lemma RowsTick(reg: Registry, a: Rows, b: Rows, t: Step, k: Key)
    requires Acted(reg, a, b, t) && (t.act.Wrote? ==> Hlc.IsRank(t.act.m.hlc))
    requires forall j | j in a :: Hlc.IsRank(a[j].hlc)
    requires k in b
    ensures Hlc.IsRank(b[k].hlc)
  {
    match t.act
    case Wrote(w, _, m, _) => WrittenRows(reg, a, t.p, w, m, k);
    case Removed(_, _, m) => DeletedCell(reg, a, KeyOf(m), k, TripId);
    case _ =>
  }

  /** The tables' own invariants survive a step. */
  lemma StepKeepsRows(reg: Registry, a: Rows, b: Rows, t: Step)
    requires Lawful(reg) && SchemaOk(reg, a) && SchemaOk(reg, b) && Acted(reg, a, b, t)
    requires AllInTrip(reg, a) && TwoLevel(a) && OneOwner(a) && RecordsMatch(a) && Clocked(reg, a)
    ensures AllInTrip(reg, b) && TwoLevel(b) && OneOwner(b) && RecordsMatch(b) && Clocked(reg, b)
  {
    hide Founded, Declared, Rostered, Composed, Itemized, SchemaOk, Acted, AllInTrip, TwoLevel, OneOwner, RecordsMatch, Clocked, Lawful;
    LawfulIsDeclared(reg);
    LawfulIsComposed(reg);
    StepKeepsInTrip(reg, a, b, t);
    StepKeepsTwoLevel(reg, a, b, t);
    StepKeepsOneOwner(reg, a, b, t);
    StepKeepsRecords(reg, a, b, t);
    StepKeepsClocked(reg, a, b, t);
  }

  /** So do the logs'. */
  lemma StepKeepsLogs(reg: Registry, a: Db, b: Db, t: Step)
    requires Lawful(reg) && Sane(reg, a) && AllInTrip(reg, a.rows)
    requires Took(reg, a, b, t) && FairStep(t) && Fresh(a, t)
    requires Unburied(reg, a) && (forall f: Feed :: Faithful(reg, a, f, Sure(f))) && (forall f: Feed :: InOrder(a, f))
    ensures Unburied(reg, b) && (forall f: Feed :: Faithful(reg, b, f, Sure(f))) && (forall f: Feed :: InOrder(b, f))
  {
    hide Founded, Declared, Rostered, AllInTrip, Lawful, Unburied, Faithful, InOrder, Acted, SchemaOk, FairStep, Fresh;
    LawfulIsDeclared(reg);
    StepKeepsUnburied(reg, a, b, t);
    forall f: Feed ensures Faithful(reg, b, f, Sure(f)) && InOrder(b, f) {
      StepKeepsOrder(a, b, t, f);
      if FeedLives(b.rows, f) { StepKeepsFaithful(reg, a, b, t, f); } else { DeadIsFaithful(reg, b, f, Sure(f)); }
    }
  }

  /** An id no entry mentions has no tombstone. */
  lemma UnmentionedIsFresh(reg: Registry, s: Sys, e: Event, t: Step)
    requires Admissible(reg, s, e) && Answers(s.db, e, Minted(Next(reg, s, e)), t)
    ensures Fresh(s.db, t)
  {
  }

  lemma EventIsFair(reg: Registry, s: Sys, e: Event, t: Step)
    requires Admissible(reg, s, e) && Answers(s.db, e, Minted(Next(reg, s, e)), t)
    ensures FairStep(t)
  {
    hide Next, Fair, Mentions;
  }

  lemma WritesWithClock(db: Db, e: Event, minted: Clock, t: Step)
    requires Answers(db, e, minted, t)
    ensures t.act.Wrote? ==> t.act.m.hlc == ClockOfEvent(e, minted)
  {
  }

  /** The tables after an event. */
  lemma NextKeepsRows(reg: Registry, s: Sys, e: Event, t: Step)
    requires Lawful(reg) && Kept(reg, s) && Admissible(reg, s, e) && Took(reg, s.db, Next(reg, s, e).db, t)
    requires Answers(s.db, e, Minted(Next(reg, s, e)), t)
    ensures var b := Next(reg, s, e).db.rows;
      AllInTrip(reg, b) && TwoLevel(b) && OneOwner(b) && RecordsMatch(b) && Clocked(reg, b)
    ensures Ticking(Next(reg, s, e))
  {
    hide Next, Acted, SchemaOk, AllInTrip, TwoLevel, OneOwner, RecordsMatch, Clocked, Unburied, Faithful, InOrder, Lawful, Admissible,
      Answers;
    NextTicks(reg, s, e);
    var b := Next(reg, s, e).db;
    StepKeepsRows(reg, s.db.rows, b.rows, t);
    WritesWithClock(s.db, e, Minted(Next(reg, s, e)), t);
    forall k | k in b.rows ensures Hlc.IsRank(b.rows[k].hlc) { RowsTick(reg, s.db.rows, b.rows, t, k); }
  }

  /** The logs after it. */
  lemma NextKeepsLogs(reg: Registry, s: Sys, e: Event, t: Step)
    requires Lawful(reg) && Kept(reg, s) && Took(reg, s.db, Next(reg, s, e).db, t) && FairStep(t) && Fresh(s.db, t)
    ensures var b := Next(reg, s, e).db;
      Unburied(reg, b) && (forall f: Feed :: Faithful(reg, b, f, Sure(f))) && (forall f: Feed :: InOrder(b, f))
  {
    hide Next, Acted, LinkOk, AllInTrip, TwoLevel, OneOwner, RecordsMatch, Clocked, Unburied, Faithful, InOrder, Lawful, Took, FairStep;
    StepKeepsLogs(reg, s.db, Next(reg, s, e).db, t);
  }

  /** Every event keeps every invariant. */
  lemma NextIsKept(reg: Registry, s: Sys, e: Event) returns (t: Step)
    requires Lawful(reg) && Kept(reg, s) && Admissible(reg, s, e)
    ensures Kept(reg, Next(reg, s, e)) && Took(reg, s.db, Next(reg, s, e).db, t) && FairStep(t)
  {
    hide Next, Acted, SchemaOk, AllInTrip, TwoLevel, OneOwner, RecordsMatch, Clocked, Unburied, Faithful, InOrder, FairStep,
      Ticking, Lawful;
    LawfulIsFounded(reg);
    t := NextTakes(reg, s, e);
    EventIsFair(reg, s, e, t);
    UnmentionedIsFresh(reg, s, e, t);
    NextKeepsRows(reg, s, e, t);
    NextKeepsLogs(reg, s, e, t);
  }

  // ---------------------------------------------------------------- note threads

  /** A push names no comment by the empty id. */
  predicate NamesComments(e: Event) {
    e.Push? && e.m.table.Comments? ==> e.m.id != ""
  }

  /** Threads are one level deep, and no comment has the empty id. */
  ghost predicate Threading(rows: Rows) {
    OneLevel(rows) && Key(Comments, "") !in rows
  }

  /** The empty id stays unused. */
  lemma EmptyIdStaysUnused(reg: Registry, a: Rows, b: Rows, t: Step)
    requires Acted(reg, a, b, t) && Key(Comments, "") !in a
    requires t.act.Wrote? ==> KeyOf(t.act.m) in a || KeyOf(t.act.m) != Key(Comments, "")
    ensures Key(Comments, "") !in b
  {
    match t.act
    case Wrote(w, _, m, _) => WrittenRows(reg, a, t.p, w, m, Key(Comments, ""));
    case _ =>
  }

  lemma NextKeepsThreads(reg: Registry, s: Sys, e: Event)
    requires Lawful(reg) && Sane(reg, s.db) && Clocking(e) && NamesComments(e) && Threading(s.db.rows)
    ensures Threading(Next(reg, s, e).db.rows)
  {
    hide Next, LinkOk, OneLevel, Lawful, Threaded, ThreadsCascade, Discussions.Ticked, Founded, Acted;
    LawfulIsFounded(reg);
    LawfulIsThreaded(reg);
    var t := NextTakes(reg, s, e);
    EmptyIdStaysUnused(reg, s.db.rows, Next(reg, s, e).db.rows, t);
    StepKeepsThreads(reg, s.db.rows, Next(reg, s, e).db.rows, t);
  }

  /** While nobody names a comment by the empty id, every reachable state has threads one level deep. */
  lemma {:induction false} RunKeepsThreads(reg: Registry, gen: Hlc.Gen, events: seq<Event>)
    requires Lawful(reg) && gen.WellFormed() && gen.lastMillis < Hlc.MILLIS_LIMIT && Runs(reg, Start(gen), events)
    requires forall e | e in events :: NamesComments(e)
    ensures Threading(Run(reg, Start(gen), events).db.rows)
  {
    hide Next, Lawful, Threading, NamesComments;
    if events == [] {
      NoThreads(gen);
    } else {
      var front, e := events[..|events| - 1], events[|events| - 1];
      RunKeepsThreads(reg, gen, front);
      RunIsKept(reg, gen, front);
      NextKeepsThreads(reg, Run(reg, Start(gen), front), e);
    }
  }

  lemma NoThreads(gen: Hlc.Gen)
    ensures Threading(Start(gen).db.rows)
  {
  }

  /** So in every reachable state the ids collected for a comment's delete are all the database takes with it. */
  lemma CommentDeletesAreExact(reg: Registry, gen: Hlc.Gen, events: seq<Event>, k: Key)
    requires Lawful(reg) && gen.WellFormed() && gen.lastMillis < Hlc.MILLIS_LIMIT && Runs(reg, Start(gen), events)
    requires forall e | e in events :: NamesComments(e)
    ensures var rows := Run(reg, Start(gen), events).db.rows;
      k in rows && k.table.Comments? ==> Doomed(reg, rows, {k}) == {k} + Named(reg, rows, k)
  {
    hide Next, Run, Runs, Doomed, Named, NamesComments, Lawful, ThreadsCascade, OneLevel;
    LawfulIsThreaded(reg);
    RunKeepsThreads(reg, gen, events);
    var rows := Run(reg, Start(gen), events).db.rows;
    if k in rows && k.table.Comments? { CommentCascadeIsExact(reg, rows, k); }
  }

  // --------------------------------------------------------------- the whole run

  /** Every reachable state keeps every invariant. */
  lemma {:induction false} RunIsKept(reg: Registry, gen: Hlc.Gen, events: seq<Event>)
    requires Lawful(reg) && gen.WellFormed() && gen.lastMillis < Hlc.MILLIS_LIMIT && Runs(reg, Start(gen), events)
    ensures Kept(reg, Run(reg, Start(gen), events))
  {
    if events == [] {
      StartIsKept(reg, gen);
    } else {
      RunIsKept(reg, gen, events[..|events| - 1]);
      var _ := NextIsKept(reg, Run(reg, Start(gen), events[..|events| - 1]), events[|events| - 1]);
    }
  }

  /** What the schema asks of a row: roles, kinds and states are of the words there are, and a link names a row that is
      there, or is NULL where it may be. */
  ghost predicate FitsSchema(reg: Registry, rows: Rows, k: Key, c: Column) {
    && (k.table.TripMembers? ==> Cell(rows, k, Role) in {Text("owner"), Text("admin"), Text("editor")})
    && (k.table.Templates? ==> Cell(rows, k, Kind) in {Text("template"), Text("group")})
    && (k.table.TripItems? ==>
         Cell(rows, k, State) in {Text("open"), Text("packing_now"), Text("partial"), Text("packed"), Text("skipped")})
    && var l := reg.link(k.table, c);
       c in reg.columns(k.table) && l.Some? && !(Cell(rows, k, c) == Null && !l.value.mandatory) ==>
         exists parent | parent in rows :: parent.table == l.value.parent && Text(parent.id) == Cell(rows, k, c)
  }

  lemma SchemaFits(reg: Registry, rows: Rows, k: Key, c: Column)
    requires SchemaOk(reg, rows) && k in rows
    ensures FitsSchema(reg, rows, k, c)
  {
    assert CheckOk(rows, k);
    if c in reg.columns(k.table) { assert LinkOk(reg, rows, k, c); }
  }

  /** And that holds of every row in every reachable state. */
  lemma RunFitsSchema(reg: Registry, gen: Hlc.Gen, events: seq<Event>, k: Key, c: Column)
    requires Lawful(reg) && gen.WellFormed() && gen.lastMillis < Hlc.MILLIS_LIMIT && Runs(reg, Start(gen), events)
    requires k in Run(reg, Start(gen), events).db.rows
    ensures FitsSchema(reg, Run(reg, Start(gen), events).db.rows, k, c)
  {
    hide Lawful, Runs, Run, FitsSchema;
    RunIsKept(reg, gen, events);
    SchemaFits(reg, Run(reg, Start(gen), events).db.rows, k, c);
  }
}
