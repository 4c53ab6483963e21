// Over runs: who a row says did a thing is the actor of an event that said so of
// that row (internal/store/stamp.go).
module Credits {
  import opened Values
  import opened Vocabulary
  import opened Merging
  import opened Registry
  import opened Database
  import opened Guards
  import opened Pipeline
  import opened Restoring
  import opened System
  import opened Steps
  import opened Laws
  import opened Reachable
  import opened Identities
  import Hlc

  /** The mutation says a thing is done, on a new row or an old one. */
  predicate Says(reg: Registry, m: Mutation, k: Key, c: Column) {
    exists existed :: Said(reg.stamp(k.table), m, existed, c) == Done
  }

  /** The event is this user's, on this row, and says that they did what the column names. */
  predicate Speaks(reg: Registry, e: Event, k: Key, c: Column, user: Value) {
    match e
    case Push(p, m, _) => Text(p.actor) == user && KeyOf(m) == k && Says(reg, m, k, c)
    case Revert(p, r, _, _) => Text(p.actor) == user && r.key == k && Says(reg, RestoringMutation(r), k, c)
    case Claim(_, item, taker, _, _) => Text(taker) == user && k == Key(TripItems, item) && c.PackingNowBy?
    case _ => false
  }

  /** Nobody, the column's default, or somebody who said so in one of the events. */
  predicate Acknowledged(reg: Registry, events: seq<Event>, k: Key, c: Column, v: Value) {
    v == Null || v == Get(reg.defaults(k.table), c) || exists i :: 0 <= i < |events| && Speaks(reg, events[i], k, c, v)
  }

  /** A takeover says one thing: who holds the claim. */
  lemma ClaimSays(reg: Registry, a: Rows, s: Step, k: Key, c: Column)
    requires Named(reg) && s.act.Wrote? && s.act.source.Claiming?
    requires s.act.m == TakeOverMutation(s.act.m.id, s.p.actor, s.act.w.now, s.act.m.hlc)
    requires SaysDone(reg, a, s, k, c) && c in Identity(reg.stamp(k.table))
    ensures c.PackingNowBy?
  {
  }

  /** A step that says so is an event that says so. */
  lemma StepSpeaks(reg: Registry, s: Sys, e: Event, t: Step, b: Rows, k: Key, c: Column)
    requires Named(reg) && Acted(reg, s.db.rows, b, t) && Answers(s.db, e, Minted(Next(reg, s, e)), t)
    requires SaysDone(reg, s.db.rows, t, k, c) && c in Identity(reg.stamp(k.table))
    ensures Speaks(reg, e, k, c, Text(t.p.actor))
  {
    hide Next, Written, AfterChange, PassedGate, Named, Said, Identity;
    if e.Claim? { ClaimSays(reg, s.db.rows, t, k, c); }
    else if t.act.source.Gated? { GateLets(reg, s.db.rows, t.p, t.act.w, t.act.sent, t.act.m); }
  }

  /** So one more event leaves every name acknowledged. */
  lemma NextAcknowledges(reg: Registry, s: Sys, events: seq<Event>, e: Event, k: Key, c: Column)
    requires Lawful(reg) && Sane(reg, s.db) && Clocking(e) && c in Identity(reg.stamp(k.table))
    requires k in s.db.rows ==> Acknowledged(reg, events, k, c, Cell(s.db.rows, k, c))
    requires k in Next(reg, s, e).db.rows
    ensures Acknowledged(reg, events + [e], k, c, Cell(Next(reg, s, e).db.rows, k, c))
  {
    hide Next, Lawful, Sane, Acted, Named, Identity, Speaks, SaysDone, Founded, Answers, Acknowledged;
    LawfulIsFounded(reg);
    LawfulIsNamed(reg);
    var t := NextTakes(reg, s, e);
    var v := Cell(Next(reg, s, e).db.rows, k, c);
    StepCredits(reg, s.db.rows, Next(reg, s, e).db.rows, t, k, c);
    if SaysDone(reg, s.db.rows, t, k, c) && v == Text(t.p.actor) { StepSpeaks(reg, s, e, t, Next(reg, s, e).db.rows, k, c); }
    Accumulates(reg, events, e, k, c, v);
  }

  lemma Accumulates(reg: Registry, events: seq<Event>, e: Event, k: Key, c: Column, v: Value)
    ensures v == Null || v == Get(reg.defaults(k.table), c) || Speaks(reg, e, k, c, v) || Acknowledged(reg, events, k, c, v) ==>
      Acknowledged(reg, events + [e], k, c, v)
  {
    hide Speaks;
    if Speaks(reg, e, k, c, v) {
      assert (events + [e])[|events|] == e;
    } else if i :| 0 <= i < |events| && Speaks(reg, events[i], k, c, v) {
      assert (events + [e])[i] == events[i];
    }
  }

  /** In every reachable state, whoever a row names did say so of that row; what a client sent of others is nowhere. */
  lemma {:induction false} RunAcknowledges(reg: Registry, gen: Hlc.Gen, events: seq<Event>, k: Key, c: Column)
    requires Lawful(reg) && gen.WellFormed() && gen.lastMillis < Hlc.MILLIS_LIMIT && Runs(reg, Start(gen), events)
    requires c in Identity(reg.stamp(k.table)) && k in Run(reg, Start(gen), events).db.rows
    ensures Acknowledged(reg, events, k, c, Cell(Run(reg, Start(gen), events).db.rows, k, c))
  {
    hide Next, Lawful, Kept, Admissible, Acknowledged, Identity;
    if events != [] {
      var front, e := events[..|events| - 1], events[|events| - 1];
      var s := Run(reg, Start(gen), front);
      RunIsKept(reg, gen, front);
      KeptIsClocking(reg, s, e);
      if k in s.db.rows { RunAcknowledges(reg, gen, front, k, c); }
      NextAcknowledges(reg, s, front, e, k, c);
      assert events == front + [e];
    }
  }

  lemma KeptIsClocking(reg: Registry, s: Sys, e: Event)
    requires Kept(reg, s) && Admissible(reg, s, e)
    ensures Sane(reg, s.db) && Clocking(e)
  {
    hide Next;
  }
}
