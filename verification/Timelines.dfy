// Devices over a whole run of the server: while deletes take what they name the
// logs stay faithful, and every device converges, wherever the reads of its
// pulls fall (internal/store/pull.go, partition.go, pipeline.go).
module Timelines {
  import opened Vocabulary
  import opened Merging
  import opened Registry
  import opened Database
  import opened Stamping
  import opened Guards
  import opened Pipeline
  import opened Restoring
  import opened System
  import opened Steps
  import opened Owners
  import opened Feeds
  import opened Convergence
  import opened Granting
  import opened Devices
  import opened Deleting
  import opened Laws
  import opened Reachable
  import Cascading
  import Hlc

  /** The server after the first `i` events. */
  function At(reg: Registry, gen: Hlc.Gen, events: seq<Event>, i: int): Sys {
    RunTo(reg, Start(gen), events, i)
  }

  /** An event that writes a membership names the trip the row is in. */
  predicate OpenGrant(reg: Registry, s: Sys, e: Event) {
    match e
    case Push(_, m, _) => m.table.TripMembers? ==> NamesItsTrip(s.db.rows, m)
    case Revert(_, r, _, _) =>
      r.key.table.TripMembers? ==>
        NamesItsTrip(s.db.rows, RestoringMutation(r).(hlc := Minted(Next(reg, s, e))))
    case _ => true
  }

  /** The gate strips nothing from a membership. */
  lemma MembershipIsSent(reg: Registry, a: Rows, p: Partition, w: Env, sent: Mutation, m: Mutation)
    requires Rostered(reg) && m.table.TripMembers? && PassedGate(reg, a, p, w, sent, m)
    ensures sent.table.TripMembers? && KeyOf(m) == KeyOf(sent) && m.fields == sent.fields
  {
    var m1 := StampOwned(reg.stamp(sent.table), sent, KeyOf(sent) in a, p.actor, w);
    GateLets(reg, a, p, w, sent, m);
    assert Judge(reg, a, m1, p) == JudgeMember(a, m1, p.actor);
  }

  /** Only the key, the fields and the clock of a mutation decide what it names. */
  lemma NamesAlike(a: Rows, m: Mutation, n: Mutation)
    requires KeyOf(m) == KeyOf(n) && m.fields == n.fields && m.hlc == n.hlc
    ensures NamesItsTrip(a, m) <==> NamesItsTrip(a, n)
  {
  }

  lemma OpenGrantIsOpen(reg: Registry, s: Sys, e: Event, t: Step)
    requires Rostered(reg) && OpenGrant(reg, s, e)
    requires Acted(reg, s.db.rows, Next(reg, s, e).db.rows, t) && Answers(s.db, e, Minted(Next(reg, s, e)), t)
    ensures GrantsOpenly(s.db.rows, t)
  {
    hide Next, Written, AfterChange, NamesItsTrip;
    if t.act.Wrote? && t.act.m.table.TripMembers? {
      assert t.act.source.Gated?;
      MembershipIsSent(reg, s.db.rows, t.p, t.act.w, t.act.sent, t.act.m);
      var n := if e.Push? then e.m else RestoringMutation(e.r).(hlc := Minted(Next(reg, s, e)));
      NamesAlike(s.db.rows, t.act.m, n);
    }
  }

  lemma KeptIsOrdered(reg: Registry, s: Sys)
    requires Lawful(reg) && Kept(reg, s)
    ensures Ordered(reg, s.db.rows)
  {
    hide Lawful, Founded, Cascading.Declared, Rostered, Cascading.AllInTrip, SchemaOk;
    LawfulIsDeclared(reg);
  }

  /** An event does what it owes a feed, in the tables asked about, when its delete takes what it names in those that are not sure. */
  lemma NextIsOwn(reg: Registry, s: Sys, e: Event, f: Feed, ts: set<Table>) returns (t: Step)
    requires Lawful(reg) && Kept(reg, s) && Admissible(reg, s, e)
    requires OwnDelete(reg, s.db, e, f, ts - Sure(f))
    ensures Took(reg, s.db, Next(reg, s, e).db, t) && FairStep(t)
    ensures FeedLives(Next(reg, s, e).db.rows, f) ==> OwnStep(reg, s.db.rows, t, f, ts)
    ensures OpenGrant(reg, s, e) ==> GrantsOpenly(s.db.rows, t)
  {
    hide Next, Ordered, Acted, SchemaOk, Kept, OwnDelete, OwnStep, FairStep, Sure, Lawful, Admissible, OpenGrant,
      GrantsOpenly, NamesItsTrip;
    KeptIsOrdered(reg, s);
    t := EventSteps(reg, s, e);
    if FeedLives(Next(reg, s, e).db.rows, f) {
      EventIsOwn(reg, s, e, t, f, ts - Sure(f));
      OwnBeyondSure(reg, s.db.rows, Next(reg, s, e).db.rows, t, f, ts);
    }
  }

  /** The step an event is. */
  lemma EventSteps(reg: Registry, s: Sys, e: Event) returns (t: Step)
    requires Lawful(reg) && Kept(reg, s) && Admissible(reg, s, e)
    ensures Took(reg, s.db, Next(reg, s, e).db, t) && FairStep(t)
    ensures Answers(s.db, e, Minted(Next(reg, s, e)), t)
    ensures OpenGrant(reg, s, e) ==> GrantsOpenly(s.db.rows, t)
  {
    hide Next, SchemaOk, Ticking, Faithful, InOrder, FairStep, OpenGrant, GrantsOpenly, Lawful, Founded, Cascading.Declared, Rostered;
    LawfulIsDeclared(reg);
    t := NextTakes(reg, s, e);
    EventIsFair(reg, s, e, t);
    if OpenGrant(reg, s, e) { OpenGrantIsOpen(reg, s, e, t); }
  }

  /** One event leaves a feed that lives onward. */
  lemma NextIsOnward(reg: Registry, s: Sys, e: Event, f: Feed, ts: set<Table>, user: string)
    requires Lawful(reg) && Kept(reg, s) && Admissible(reg, s, e) && (f.MasterFeed? && Trips in ts ==> OpenGrant(reg, s, e))
    requires OwnDelete(reg, s.db, e, f, ts - Sure(f)) && FeedLives(Next(reg, s, e).db.rows, f)
    ensures Onward(reg, s.db, Next(reg, s, e).db, f, ts, user)
  {
    hide Next, Ordered, Took, Kept, Lawful, Admissible, OpenGrant, GrantsOpenly, FairStep, OwnStep, OwnDelete, Sure, Onward;
    KeptIsOrdered(reg, s);
    var t := NextIsOwn(reg, s, e, f, ts);
    StepIsOnward(reg, s.db, Next(reg, s, e).db, t, f, ts, user);
  }

  /** And faithful, where it was; a feed that ended says nothing and holds nothing. */
  lemma NextIsFaithful(reg: Registry, s: Sys, e: Event, f: Feed, ts: set<Table>)
    requires Lawful(reg) && Kept(reg, s) && Admissible(reg, s, e) && Kept(reg, Next(reg, s, e))
    requires OwnDelete(reg, s.db, e, f, ts - Sure(f)) && Faithful(reg, s.db, f, ts)
    ensures Faithful(reg, Next(reg, s, e).db, f, ts)
  {
    hide Next, Ordered, Acted, SchemaOk, Kept, Lawful, Admissible, FairStep, OwnStep, OwnDelete, Sure, Faithful, Founded;
    KeptIsOrdered(reg, s);
    KeptIsSane(reg, Next(reg, s, e));
    var t := NextIsOwn(reg, s, e, f, ts);
    var b := Next(reg, s, e).db;
    if FeedLives(b.rows, f) { StepKeepsFaithfulExactly(reg, s.db, b, t, f, ts); } else { DeadIsFaithful(reg, b, f, ts); }
  }

  lemma KeptIsSane(reg: Registry, s: Sys)
    requires Lawful(reg) && Kept(reg, s)
    ensures Founded(reg) && Sane(reg, s.db)
  {
    LawfulIsFounded(reg);
  }

  /** Up to a moment, every delete takes from the feed what it names there, in the tables asked about that are not sure. */
  ghost predicate OwnDeletes(reg: Registry, gen: Hlc.Gen, events: seq<Event>, f: Feed, ts: set<Table>, j: int) {
    forall n | 0 <= n < j :: OwnDelete(reg, At(reg, gen, events, n).db, Nth(events, n), f, ts - Sure(f))
  }

  /** The feed lives from one moment to another; its deletes are its own; and where its trips are asked about, every
      membership written meanwhile is an open one. */
  ghost predicate Steadily(reg: Registry, gen: Hlc.Gen, events: seq<Event>, f: Feed, ts: set<Table>, i: int, j: int) {
    && (forall n | i <= n <= j :: FeedLives(At(reg, gen, events, n).db.rows, f))
    && OwnDeletes(reg, gen, events, f, ts, j)
    && (f.MasterFeed? && Trips in ts ==> forall n | i <= n < j :: OpenGrant(reg, At(reg, gen, events, n), Nth(events, n)))
  }

  /** A run, and the registry it runs with. */
  ghost predicate Timeline(reg: Registry, gen: Hlc.Gen, events: seq<Event>) {
    Lawful(reg) && gen.WellFormed() && gen.lastMillis < Hlc.MILLIS_LIMIT && Runs(reg, Start(gen), events)
  }

  lemma {:induction false} RunsBefore(reg: Registry, s: Sys, events: seq<Event>, i: nat)
    requires Runs(reg, s, events) && i <= |events|
    ensures Runs(reg, s, Until(events, i))
    ensures i < |events| ==> Admissible(reg, RunTo(reg, s, events, i), Nth(events, i))
  {
    hide Next, Admissible;
    var n := |events| - 1;
    if i <= n {
      assert events[..n][..i] == events[..i];
      RunsBefore(reg, s, events[..n], i);
    } else {
      assert events[..i] == events;
    }
  }

  lemma AtIsKept(reg: Registry, gen: Hlc.Gen, events: seq<Event>, i: nat)
    requires Timeline(reg, gen, events) && i <= |events|
    ensures Kept(reg, At(reg, gen, events, i))
  {
    hide Kept, Lawful, Next, Admissible;
    RunsBefore(reg, Start(gen), events, i);
    RunIsKept(reg, gen, Until(events, i));
  }

  /** The databases of a run, one per moment. */
  function History(reg: Registry, gen: Hlc.Gen, events: seq<Event>): seq<Db> {
    seq(|events| + 1, n => At(reg, gen, events, n).db)
  }

  lemma HistoryAt(reg: Registry, gen: Hlc.Gen, events: seq<Event>, n: nat)
    requires n <= |events|
    ensures |History(reg, gen, events)| == |events| + 1 && History(reg, gen, events)[n] == At(reg, gen, events, n).db
  {
    hide At;
  }

  /** A moment of a run, and the event that follows it. */
  lemma Moment(reg: Registry, gen: Hlc.Gen, events: seq<Event>, n: nat)
    requires Timeline(reg, gen, events) && n < |events|
    ensures Kept(reg, At(reg, gen, events, n)) && Kept(reg, At(reg, gen, events, n + 1))
    ensures Admissible(reg, At(reg, gen, events, n), Nth(events, n))
    ensures At(reg, gen, events, n + 1) == Next(reg, At(reg, gen, events, n), Nth(events, n))
  {
    hide Kept, Next, Admissible, Lawful;
    AtIsKept(reg, gen, events, n);
    AtIsKept(reg, gen, events, n + 1);
    OneFurther(reg, Start(gen), events, n);
    RunsBefore(reg, Start(gen), events, n);
  }

  /** While deletes take what they name, the log is faithful at every moment of a run. */
  lemma {:induction false} RunStaysFaithful(reg: Registry, gen: Hlc.Gen, events: seq<Event>, f: Feed, ts: set<Table>, n: nat)
    requires Timeline(reg, gen, events) && n <= |events| && OwnDeletes(reg, gen, events, f, ts, n)
    ensures Faithful(reg, At(reg, gen, events, n).db, f, ts)
  {
    hide Kept, Next, Admissible, Faithful, Timeline, OwnDelete, Sure;
    if n == 0 {
      AtStart(reg, gen, events);
      NothingIsFaithful(reg, gen, f, ts);
    } else {
      RunStaysFaithful(reg, gen, events, f, ts, n - 1);
      Moment(reg, gen, events, n - 1);
      TimelineIsLawful(reg, gen, events);
      NextIsFaithful(reg, At(reg, gen, events, n - 1), Nth(events, n - 1), f, ts);
    }
  }

  lemma AtStart(reg: Registry, gen: Hlc.Gen, events: seq<Event>)
    ensures At(reg, gen, events, 0) == Start(gen)
  {
    hide Next;
    assert events[..0] == [];
  }

  lemma NothingIsFaithful(reg: Registry, gen: Hlc.Gen, f: Feed, ts: set<Table>)
    ensures Faithful(reg, Start(gen).db, f, ts)
  {
    assert forall k: Key :: FaithfulAt(EMPTY, f, k);
  }

  lemma TimelineIsLawful(reg: Registry, gen: Hlc.Gen, events: seq<Event>)
    requires Timeline(reg, gen, events)
    ensures Lawful(reg)
  {
    hide Lawful, Runs;
  }

  lemma KeptIsInOrder(reg: Registry, s: Sys, f: Feed)
    requires Kept(reg, s)
    ensures InOrder(s.db, f)
  {
  }

  /** One moment to the next. */
  lemma MomentIsOnward(reg: Registry, gen: Hlc.Gen, events: seq<Event>, f: Feed, ts: set<Table>, user: string, n: nat)
    requires Timeline(reg, gen, events) && n < |events| && FeedLives(At(reg, gen, events, n + 1).db.rows, f)
    requires OwnDelete(reg, At(reg, gen, events, n).db, Nth(events, n), f, ts - Sure(f))
    requires f.MasterFeed? && Trips in ts ==> OpenGrant(reg, At(reg, gen, events, n), Nth(events, n))
    ensures Onward(reg, At(reg, gen, events, n).db, At(reg, gen, events, n + 1).db, f, ts, user)
  {
    hide Kept, Next, Admissible, Onward, OpenGrant, OwnDelete, At, Timeline, Sure, FeedLives;
    Moment(reg, gen, events, n);
    TimelineIsLawful(reg, gen, events);
    NextIsOnward(reg, At(reg, gen, events, n), Nth(events, n), f, ts, user);
  }

  lemma RunFlowsAt(reg: Registry, gen: Hlc.Gen, events: seq<Event>, f: Feed, ts: set<Table>, user: string, i: nat, j: nat, n: nat)
    requires Timeline(reg, gen, events) && i <= n <= j <= |events| && Steadily(reg, gen, events, f, ts, i, j)
    ensures Faithful(reg, At(reg, gen, events, n).db, f, ts) && InOrder(At(reg, gen, events, n).db, f)
    ensures n < j ==> Onward(reg, At(reg, gen, events, n).db, At(reg, gen, events, n + 1).db, f, ts, user)
  {
    hide Kept, Faithful, InOrder, Onward, OpenGrant, OwnDelete, At, Timeline, Sure, FeedLives;
    RunStaysFaithful(reg, gen, events, f, ts, n);
    AtIsKept(reg, gen, events, n);
    KeptIsInOrder(reg, At(reg, gen, events, n), f);
    if n < j { MomentIsOnward(reg, gen, events, f, ts, user, n); }
  }

  /** While a feed goes steadily, it flows. */
  lemma RunFlows(reg: Registry, gen: Hlc.Gen, events: seq<Event>, f: Feed, ts: set<Table>, user: string, i: nat, j: nat)
    requires Timeline(reg, gen, events) && i <= j <= |events| && Steadily(reg, gen, events, f, ts, i, j)
    ensures Flows(reg, History(reg, gen, events), f, ts, user, i, j)
  {
    hide Timeline, Steadily, Faithful, InOrder, Onward, At, History;
    HistoryAt(reg, gen, events, 0);
    forall n | i <= n <= j ensures FlowsAt(reg, History(reg, gen, events), f, ts, user, n, j) {
      RunFlowsAt(reg, gen, events, f, ts, user, i, j, n);
      HistoryAt(reg, gen, events, n);
      if n < j { HistoryAt(reg, gen, events, n + 1); }
    }
  }

  /** A device that made these pulls while the run went on. */
  function DeviceIn(reg: Registry, gen: Hlc.Gen, events: seq<Event>, f: Feed, user: string, pulls: seq<Pulling>): Replica {
    if InTime(pulls, |events| + 1) then Device(reg, History(reg, gen, events), f, user, pulls) else Replica(0, map[])
  }

  /** Whatever is pushed between two pulls, or between the reads of one, every device converges on what the server has. */
  lemma DevicesConverge(
    reg: Registry, gen: Hlc.Gen, events: seq<Event>, f: Feed, ts: set<Table>, user: string, pulls: seq<Pulling>, from: nat, t: nat)
    requires Timeline(reg, gen, events) && from <= t <= |events| && Steadily(reg, gen, events, f, ts, from, t)
    requires Scheduled(pulls, from, t) && InTime(pulls, |events| + 1)
    ensures Converging(reg, DeviceIn(reg, gen, events, f, user, pulls), At(reg, gen, events, t).db, f, ts, user)
  {
    hide Timeline, Steadily, Flows, At, Converging, Run;
    RunFlows(reg, gen, events, f, ts, user, from, t);
    HistoryAt(reg, gen, events, t);
    DeviceConverges(reg, History(reg, gen, events), f, ts, user, pulls, from, t);
  }

  /** The last page said no more, and no entry was added since it was read. */
  predicate Drained(reg: Registry, gen: Hlc.Gen, events: seq<Event>, f: Feed, user: string, pulls: seq<Pulling>, t: int) {
    && pulls != [] && InTime(pulls, |events| + 1) && !LastPage(reg, History(reg, gen, events), f, user, pulls).more
    && LogOf(At(reg, gen, events, t).db, f) == LogOf(At(reg, gen, events, pulls[|pulls| - 1].times[0]).db, f)
  }

  /** A drained device has every entity right. */
  lemma DrainedDevicesAreRight(
    reg: Registry, gen: Hlc.Gen, events: seq<Event>, f: Feed, ts: set<Table>, user: string, pulls: seq<Pulling>, from: nat, t: nat, k: Key)
    requires Timeline(reg, gen, events) && from <= t <= |events| && Steadily(reg, gen, events, f, ts, from, t)
    requires Scheduled(pulls, from, t) && Drained(reg, gen, events, f, user, pulls, t) && Pulled(reg, f, ts, k.table)
    ensures Right(reg, DeviceIn(reg, gen, events, f, user, pulls).rows, At(reg, gen, events, t).db, f, user, k)
  {
    hide Timeline, Steadily, Flows, At, Right, Scheduled, Run;
    RunFlows(reg, gen, events, f, ts, user, from, t);
    HistoryAt(reg, gen, events, t);
    HistoryAt(reg, gen, events, pulls[|pulls| - 1].times[0]);
    DrainedIsRight(reg, History(reg, gen, events), f, ts, user, pulls, from, t, k);
  }
}
