// The server as one state machine: its database, its clock generator and the
// reads reverts have in flight. Every event reduces to one step on the tables
// and one feed, which is what the invariants reason about.
module System {
  import opened Values
  import opened Vocabulary
  import opened Merging
  import opened Registry
  import opened Database
  import opened Stamping
  import opened Guards
  import opened Pipeline
  import opened Restoring
  import Hlc

  datatype Sys = Sys(db: Db, gen: Hlc.Gen, readings: set<Reading>)

  datatype Event =
    /** One mutation of a push, or of the deletes and prunes that mint one. */
    | Push(p: Partition, m: Mutation, w: Env)
    /** The reads a revert makes before its transaction. */
    | Look(p: Partition, id: ConflictId)
    | Revert(p: Partition, r: Reading, w: Env, wall: int)
    | Claim(trip: string, item: string, taker: string, w: Env, wall: int)
    /** A clock minted past one that was read: how a delete endpoint starts. */
    | Mint(seen: Clock, wall: int)

  function Next(reg: Registry, s: Sys, e: Event): Sys {
    match e
    case Push(p, m, w) => s.(db := Apply(reg, s.db, w, p, m).0)
    case Look(p, id) =>
      var (_, r) := ReadGroup(reg, s.db, p, id);
      if r.Some? then s.(readings := s.readings + {r.value}) else s
    case Revert(p, r, w, wall) =>
      var (db, gen, _) := Restore(reg, s.db, s.gen, w, p, r, wall);
      s.(db := db, gen := gen)
    case Claim(trip, item, taker, w, wall) =>
      var (db, gen, _) := TakeOver(reg, s.db, s.gen, w, trip, item, taker, wall);
      s.(db := db, gen := gen)
    case Mint(seen, wall) => s.(gen := MintedAfter(s.gen, seen, wall))
  }

  function Run(reg: Registry, s: Sys, events: seq<Event>): Sys {
    if events == [] then s else Next(reg, Run(reg, s, events[..|events| - 1]), events[|events| - 1])
  }

  /** The first `i` events, and the one after them; past the end nothing happens but a tick of the clock. */
  function Until(events: seq<Event>, i: int): seq<Event> {
    if 0 <= i <= |events| then events[..i] else events
  }

  function Nth(events: seq<Event>, i: int): Event {
    if 0 <= i < |events| then events[i] else Mint(0, 0)
  }

  function RunTo(reg: Registry, s: Sys, events: seq<Event>, i: int): Sys {
    Run(reg, s, Until(events, i))
  }

  lemma OneFurther(reg: Registry, s: Sys, events: seq<Event>, n: nat)
    requires n < |events|
    ensures RunTo(reg, s, events, n + 1) == Next(reg, RunTo(reg, s, events, n), Nth(events, n))
  {
    hide Next;
    assert events[..n + 1][..n] == events[..n];
  }

  const EMPTY := Db(map[], map[], 0, map[], map[])

  function Start(gen: Hlc.Gen): Sys {
    Sys(EMPTY, gen, {})
  }

  // ------------------------------------------------------------ what a step does

  /** Where an accepted write came from. */
  datatype Source = Gated | Retiring | Claiming

  datatype Act =
    | Quiet
    | Refused(w: Env, m: Mutation)
    | Wrote(w: Env, sent: Mutation, m: Mutation, source: Source)
    | Removed(w: Env, sent: Mutation, m: Mutation)

  datatype Step = Step(p: Partition, act: Act, notes: seq<Note>)

  /** What the gate says of a mutation once it is stamped. */
  function Gate(reg: Registry, rows: Rows, p: Partition, w: Env, sent: Mutation): Verdict {
    Scope(reg, rows, StampOwned(reg.stamp(sent.table), sent, KeyOf(sent) in rows, p.actor, w), p)
  }

  predicate GateSays(reg: Registry, rows: Rows, p: Partition, w: Env, sent: Mutation, v: Verdict) {
    v == Gate(reg, rows, p, w, sent)
  }

  /** `m` is what the stamp and the gate made of `sent`, its clock aside; GateLets looks the verdict up. */
  ghost predicate PassedGate(reg: Registry, rows: Rows, p: Partition, w: Env, sent: Mutation, m: Mutation) {
    forall v {:trigger GateSays(reg, rows, p, w, sent, v)} | GateSays(reg, rows, p, w, sent, v) :: v.Pass? && m == v.m.(hlc := m.hlc)
  }

  /** A mutation that passed: the verdict, and what the gate and the stamp have in common. */
  lemma GateLets(reg: Registry, rows: Rows, p: Partition, w: Env, sent: Mutation, m: Mutation)
    requires PassedGate(reg, rows, p, w, sent, m)
    ensures var v := Gate(reg, rows, p, w, sent);
      v.Pass? && m == v.m.(hlc := m.hlc) && Sound(v, StampOwned(reg.stamp(sent.table), sent, KeyOf(sent) in rows, p.actor, w))
    ensures KeyOf(m) == KeyOf(sent)
  {
    hide Judge, StampOwned;
    assert GateSays(reg, rows, p, w, sent, Gate(reg, rows, p, w, sent));
    ScopeIsSound(reg, rows, StampOwned(reg.stamp(sent.table), sent, KeyOf(sent) in rows, p.actor, w), p);
    StampKeeps(reg.stamp(sent.table), sent, KeyOf(sent) in rows, p.actor, w);
  }

  ghost predicate Sourced(reg: Registry, rows: Rows, p: Partition, w: Env, sent: Mutation, m: Mutation, source: Source) {
    match source
    case Gated => PassedGate(reg, rows, p, w, sent, m)
    case Retiring =>
      p.Retires(reg, m.table) && KeyOf(m) in rows && m == RetireInstead(m, w.now) && m.hlc > rows[KeyOf(m)].hlc
    case Claiming =>
      p.feed.TripFeed? && KeyOf(m) in rows && m == TakeOverMutation(m.id, p.actor, w.now, m.hlc) &&
      Cell(rows, KeyOf(m), State) == Text(PACKING_NOW) && Cell(rows, KeyOf(m), TripId) == Text(p.feed.trip)
  }

  function Founder(p: Partition, w: Env, rows: Rows, m: Mutation): Rows {
    if Founds(p, m, KeyOf(m) in rows, false) then map[Key(TripMembers, w.memberId) := FounderRow(m, p.actor)] else map[]
  }

  /** The tables after an accepted upsert. */
  function Written(reg: Registry, rows: Rows, p: Partition, w: Env, m: Mutation): Rows {
    Persisted(reg, rows, m, Resolve(Load(rows, KeyOf(m)), m)) + Founder(p, w, rows, m)
  }

  /** The entries of a delete: the row's tombstone, then one for each child it names. */
  function Tombstones(reg: Registry, rows: Rows, w: Env, k: Key, hlc: Clock): seq<Note> {
    [Note(k, true, hlc)] + Notes(KidsOf(reg, rows, k, w), true, hlc)
  }

  ghost predicate Acted(reg: Registry, a: Rows, b: Rows, s: Step) {
    match s.act
    case Quiet => b == a && s.notes == []
    case Refused(w, m) =>
      && b == a && s.notes == Relogged(reg, a, w, m)
      && reg.side(m.table) == SideOf(s.p.feed)
      && (KeyOf(m) in a ==> Holds(a, s.p.feed, KeyOf(m)))
    case Wrote(w, sent, m, source) =>
      && b == Written(reg, a, s.p, w, m) && !m.op.Delete?
      && reg.side(m.table) == SideOf(s.p.feed)
      && Sourced(reg, a, s.p, w, sent, m, source)
      && (Founds(s.p, m, KeyOf(m) in a, false) ==> Key(TripMembers, w.memberId) !in a)
      && s.notes == [Note(KeyOf(m), false, m.hlc)] + AfterChange(reg, b, w, s.p, m, Load(a, KeyOf(m)), false, source.Retiring?)
    case Removed(w, sent, m) =>
      && KeyOf(m) in a && b == Deleted(reg, a, KeyOf(m)) && m.op.Delete? && m.hlc > a[KeyOf(m)].hlc
      && reg.side(m.table) == SideOf(s.p.feed)
      && PassedGate(reg, a, s.p, w, sent, m) && !Blocked(reg, a, KeyOf(m))
      && s.notes == Tombstones(reg, a, w, KeyOf(m), m.hlc)
  }

  /** The feed's log after a step: longer by the step's notes, or gone with its trip. */
  function LogAfter(a: Db, b: Rows, s: Step, f: Feed): seq<Entry> {
    if !FeedLives(b, f) then [] else LogOf(a, f) + (if f == s.p.feed then Numbered(s.notes, a.head) else [])
  }

  /** What every commit keeps: the constraints, and logs only for feeds that live. */
  ghost predicate Sane(reg: Registry, db: Db) {
    SchemaOk(reg, db.rows) && forall f | f in db.logs :: FeedLives(db.rows, f)
  }

  /** A row is created only above every tombstone its feed holds for it. */
  predicate NewlyNamed(db: Db, f: Feed, m: Mutation) {
    KeyOf(m) !in db.rows ==> m.hlc > NewestTombstone(LogOf(db, f), KeyOf(m))
  }

  ghost predicate Took(reg: Registry, a: Db, b: Db, s: Step) {
    && Acted(reg, a.rows, b.rows, s) && Sane(reg, b)
    && (s.notes != [] ==> FeedLives(b.rows, s.p.feed))
    && (s.act.Wrote? ==> NewlyNamed(a, s.p.feed, s.act.m))
    && b.head == a.head + |s.notes|
    && forall f :: LogOf(b, f) == LogAfter(a, b.rows, s, f)
  }
}
