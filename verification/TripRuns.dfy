// A trip's feed over whole runs: while pushes tie what hangs on a row to rows of
// their own trip, every device converges on every table of the trip
// (internal/store/tables_registry.go, notethreads.go, pull.go).
module TripRuns {
  import opened Vocabulary
  import opened Merging
  import opened Registry
  import opened Database
  import opened Pipeline
  import opened Restoring
  import opened System
  import opened Steps
  import opened Feeds
  import opened Convergence
  import opened Devices
  import opened Deleting
  import opened Discussions
  import opened LooseRows
  import opened Laws
  import opened Reachable
  import opened Timelines
  import Cascading
  import Hlc
  import Threads

  // ---------------------------------------------------------- comments and ticks

  /** An event ties no comment and no tick to another trip. */
  predicate Tied(s: Sys, e: Event) {
    match e
    case Push(p, m, _) => m.mutationId !in s.db.memo ==> Ties(s.db.rows, m, p.Trip())
    case Revert(p, r, _, _) => Ties(s.db.rows, RestoringMutation(r), p.Trip())
    case _ => true
  }

  /** Up to a moment every event did so, and named no comment by the empty id. */
  ghost predicate AllTied(reg: Registry, gen: Hlc.Gen, events: seq<Event>, j: int) {
    forall n | 0 <= n < j :: NamesComments(Nth(events, n)) && Tied(At(reg, gen, events, n), Nth(events, n))
  }

  lemma NextKeepsGathered(reg: Registry, s: Sys, e: Event)
    requires Lawful(reg) && Kept(reg, s) && Admissible(reg, s, e) && Kept(reg, Next(reg, s, e))
    requires Tied(s, e) && Gathered(s.db.rows) && Key(Comments, "") !in Next(reg, s, e).db.rows
    ensures Gathered(Next(reg, s, e).db.rows)
  {
    hide Next, Ties, Gathered, Kept, Acted, SchemaOk, Lawful, Threads.Threaded, Threads.ThreadsCascade, Ticked, Founded;
    LawfulIsThreaded(reg);
    KeptIsSane(reg, s);
    KeptIsSane(reg, Next(reg, s, e));
    var t := NextTakes(reg, s, e);
    TiedAsSent(s, e, Minted(Next(reg, s, e)), t);
    StepKeepsGathered(reg, s.db.rows, Next(reg, s, e).db.rows, t);
  }

  /** What a step wrote through the gate is what the event sent. */
  lemma TiedAsSent(s: Sys, e: Event, minted: Clock, t: Step)
    requires Tied(s, e) && Answers(s.db, e, minted, t)
    ensures SendsTied(s.db.rows, t)
  {
    hide Ties;
  }

  /** So comments and ticks stay gathered over the run. */
  lemma {:induction false} RunStaysGathered(reg: Registry, gen: Hlc.Gen, events: seq<Event>, n: nat)
    requires Timeline(reg, gen, events) && n <= |events| && AllTied(reg, gen, events, n)
    ensures Gathered(At(reg, gen, events, n).db.rows)
  {
    hide Kept, Next, Admissible, Gathered, Tied, NamesComments, Timeline, At, Run;
    if n == 0 {
      AtStart(reg, gen, events);
      NothingIsGathered(gen);
    } else {
      RunStaysGathered(reg, gen, events, n - 1);
      Moment(reg, gen, events, n - 1);
      TimelineIsLawful(reg, gen, events);
      ThreadsAt(reg, gen, events, n);
      NextKeepsGathered(reg, At(reg, gen, events, n - 1), Nth(events, n - 1));
    }
  }

  lemma NothingIsGathered(gen: Hlc.Gen)
    ensures Gathered(Start(gen).db.rows)
  {
  }

  /** The empty id is unused at every moment. */
  lemma ThreadsAt(reg: Registry, gen: Hlc.Gen, events: seq<Event>, n: nat)
    requires Timeline(reg, gen, events) && n <= |events| && AllTied(reg, gen, events, n)
    ensures Key(Comments, "") !in At(reg, gen, events, n).db.rows
  {
    hide Kept, Next, Admissible, Tied, NamesComments, Lawful, Run;
    RunsBefore(reg, Start(gen), events, n);
    forall e | e in Until(events, n) ensures NamesComments(e) {
      var i :| 0 <= i < n && events[i] == e;
      assert Nth(events, i) == e;
    }
    RunKeepsThreads(reg, gen, Until(events, n));
  }

  /** What a delete owns of some tables it owns of fewer. */
  lemma OwnsFewer(reg: Registry, db: Db, e: Event, f: Feed, some: set<Table>, all: set<Table>)
    requires some <= all && OwnDelete(reg, db, e, f, all)
    ensures OwnDelete(reg, db, e, f, some)
  {
    hide TakesWhatItNames, Deletes;
  }

  lemma DiscussionOwnedAt(reg: Registry, gen: Hlc.Gen, events: seq<Event>, trip: string, some: set<Table>, n: nat)
    requires Timeline(reg, gen, events) && n < |events| && AllTied(reg, gen, events, n) && some <= DISCUSSION
    ensures OwnDelete(reg, At(reg, gen, events, n).db, Nth(events, n), TripFeed(trip), some)
  {
    hide At, Kept, OwnDelete, AllTied, Gathered, SchemaOk, Runs, Lawful, Threads.Threaded, Threads.ThreadsCascade, Ticked,
      Cascading.Declared, Founded;
    LawfulIsDeclared(reg);
    LawfulIsThreaded(reg);
    AtIsKept(reg, gen, events, n);
    KeptIsSane(reg, At(reg, gen, events, n));
    RunStaysGathered(reg, gen, events, n);
    DiscussionDeletesOwn(reg, At(reg, gen, events, n).db, Nth(events, n), trip);
    OwnsFewer(reg, At(reg, gen, events, n).db, Nth(events, n), TripFeed(trip), some, DISCUSSION);
  }

  /** While comments and ticks are tied to their trip, devices converge on them too. */
  lemma DiscussionsConverge(
    reg: Registry, gen: Hlc.Gen, events: seq<Event>, trip: string, ts: set<Table>, user: string, pulls: seq<Pulling>, from: nat, t: nat)
    requires Timeline(reg, gen, events) && from <= t <= |events| && ts <= Sure(TripFeed(trip)) + DISCUSSION
    requires AllTied(reg, gen, events, t)
    requires forall n | from <= n <= t :: FeedLives(At(reg, gen, events, n).db.rows, TripFeed(trip))
    requires Scheduled(pulls, from, t) && InTime(pulls, |events| + 1)
    ensures Converging(
      reg, DeviceIn(reg, gen, events, TripFeed(trip), user, pulls), At(reg, gen, events, t).db, TripFeed(trip), ts, user)
  {
    hide Timeline, At, Converging, OwnDelete, FeedLives, Tied, NamesComments, Sure;
    forall n | 0 <= n < t ensures OwnDelete(reg, At(reg, gen, events, n).db, Nth(events, n), TripFeed(trip), ts - Sure(TripFeed(trip))) {
      DiscussionOwnedAt(reg, gen, events, trip, ts - Sure(TripFeed(trip)), n);
    }
    DevicesConverge(reg, gen, events, TripFeed(trip), ts, user, pulls, from, t);
  }

  // --------------------------------------------------------------- the loose rows

  /** An event ties no loose row to another trip. */
  predicate LooselyTied(reg: Registry, s: Sys, e: Event) {
    match e
    case Push(p, m, _) => m.mutationId !in s.db.memo ==> LooseTies(reg, s.db.rows, m, p.Trip())
    case Revert(p, r, _, _) => LooseTies(reg, s.db.rows, RestoringMutation(r), p.Trip())
    case _ => true
  }

  ghost predicate AllLooselyTied(reg: Registry, gen: Hlc.Gen, events: seq<Event>, j: int) {
    forall n | 0 <= n < j :: LooselyTied(reg, At(reg, gen, events, n), Nth(events, n))
  }

  lemma NextKeepsOwn(reg: Registry, s: Sys, e: Event)
    requires Lawful(reg) && Kept(reg, s) && Admissible(reg, s, e) && Kept(reg, Next(reg, s, e))
    requires LooselyTied(reg, s, e) && AllOwn(reg, s.db.rows)
    ensures AllOwn(reg, Next(reg, s, e).db.rows)
  {
    hide Next, LooseTies, AllOwn, Kept, Acted, SchemaOk, Lawful, Rooted, Founded;
    LawfulIsRooted(reg);
    KeptIsSane(reg, s);
    KeptIsSane(reg, Next(reg, s, e));
    var t := NextTakes(reg, s, e);
    LooselyTiedAsSent(reg, s, e, Minted(Next(reg, s, e)), t);
    StepKeepsOwn(reg, s.db.rows, Next(reg, s, e).db.rows, t);
  }

  lemma LooselyTiedAsSent(reg: Registry, s: Sys, e: Event, minted: Clock, t: Step)
    requires LooselyTied(reg, s, e) && Answers(s.db, e, minted, t)
    ensures SendsLooselyTied(reg, s.db.rows, t)
  {
    hide LooseTies;
  }

  /** So loose rows stay of the trip of what they hang on over the run. */
  lemma {:induction false} RunStaysOwn(reg: Registry, gen: Hlc.Gen, events: seq<Event>, n: nat)
    requires Timeline(reg, gen, events) && n <= |events| && AllLooselyTied(reg, gen, events, n)
    ensures AllOwn(reg, At(reg, gen, events, n).db.rows)
  {
    hide Kept, Next, Admissible, AllOwn, LooselyTied, Timeline, At, Run;
    if n == 0 {
      AtStart(reg, gen, events);
      NothingIsLoose(reg, gen);
    } else {
      RunStaysOwn(reg, gen, events, n - 1);
      Moment(reg, gen, events, n - 1);
      TimelineIsLawful(reg, gen, events);
      NextKeepsOwn(reg, At(reg, gen, events, n - 1), Nth(events, n - 1));
    }
  }

  lemma NothingIsLoose(reg: Registry, gen: Hlc.Gen)
    ensures AllOwn(reg, Start(gen).db.rows)
  {
  }

  lemma LooseOwnedAt(reg: Registry, gen: Hlc.Gen, events: seq<Event>, trip: string, n: nat)
    requires Timeline(reg, gen, events) && n < |events| && AllLooselyTied(reg, gen, events, n)
    ensures OwnDelete(reg, At(reg, gen, events, n).db, Nth(events, n), TripFeed(trip), LOOSE)
  {
    hide At, Kept, OwnDelete, AllLooselyTied, AllOwn, SchemaOk, Runs, Lawful, Rooted, Cascading.Declared, Founded;
    LawfulIsDeclared(reg);
    LawfulIsRooted(reg);
    AtIsKept(reg, gen, events, n);
    KeptIsSane(reg, At(reg, gen, events, n));
    RunStaysOwn(reg, gen, events, n);
    LooseDeletesOwn(reg, At(reg, gen, events, n).db, Nth(events, n), trip);
  }

  // -------------------------------------------------------------- the whole trip

  /** What is no confined table of a trip is a loose one or discussion. */
  lemma OwnsTheRest(reg: Registry, db: Db, e: Event, trip: string, ts: set<Table>)
    requires Rooted(reg)
    requires OwnDelete(reg, db, e, TripFeed(trip), DISCUSSION) && OwnDelete(reg, db, e, TripFeed(trip), LOOSE)
    ensures OwnDelete(reg, db, e, TripFeed(trip), ts - Sure(TripFeed(trip)))
  {
    hide TakesWhatItNames, Deletes;
    var f := TripFeed(trip);
    forall k: Key | Asked(reg, f, ts - Sure(f), k.table) ensures Asked(reg, f, DISCUSSION, k.table) || Asked(reg, f, LOOSE, k.table) {
      assert !Confined(k.table);
    }
  }

  /** While pushes tie what hangs on a row to their own trip, every device converges on every table of the trip. */
  lemma TripsConverge(
    reg: Registry, gen: Hlc.Gen, events: seq<Event>, trip: string, ts: set<Table>, user: string, pulls: seq<Pulling>, from: nat, t: nat)
    requires Timeline(reg, gen, events) && from <= t <= |events|
    requires AllTied(reg, gen, events, t) && AllLooselyTied(reg, gen, events, t)
    requires forall n | from <= n <= t :: FeedLives(At(reg, gen, events, n).db.rows, TripFeed(trip))
    requires Scheduled(pulls, from, t) && InTime(pulls, |events| + 1)
    ensures Converging(
      reg, DeviceIn(reg, gen, events, TripFeed(trip), user, pulls), At(reg, gen, events, t).db, TripFeed(trip), ts, user)
  {
    hide Timeline, At, Converging, OwnDelete, FeedLives, Tied, LooselyTied, NamesComments, Sure, Rooted, Lawful;
    TimelineIsLawful(reg, gen, events);
    LawfulIsRooted(reg);
    forall n | 0 <= n < t ensures OwnDelete(reg, At(reg, gen, events, n).db, Nth(events, n), TripFeed(trip), ts - Sure(TripFeed(trip))) {
      DiscussionOwnedAt(reg, gen, events, trip, DISCUSSION, n);
      LooseOwnedAt(reg, gen, events, trip, n);
      OwnsTheRest(reg, At(reg, gen, events, n).db, Nth(events, n), trip, ts);
    }
    DevicesConverge(reg, gen, events, TripFeed(trip), ts, user, pulls, from, t);
  }
}
