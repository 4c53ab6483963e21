// Every step leaves the feeds onward: what changed, and every trip a user came
// to see, has a newer entry (internal/store/master.go, masterAfterChange).
module Granting {
  import opened Values
  import opened Vocabulary
  import opened Merging
  import opened Registry
  import opened Database
  import opened Guards
  import opened Pipeline
  import opened System
  import opened Steps
  import opened Effects
  import opened Owners
  import opened Feeds
  import opened Pull
  import opened Convergence

  /** A membership write names no trip but the one its row ends in, and that trip has an id. */
  predicate NamesItsTrip(a: Rows, m: Mutation) {
    var k, named := KeyOf(m), Names(m, TripId);
    if k !in a then named != Some("")
    else if named.Some? && named.value != "" then Wins(a[k], m, TripId) || Cell(a, k, TripId) == Text(named.value)
    else Cell(a, k, TripId) != Text("") && (named.Some? ==> !Wins(a[k], m, TripId))
  }

  /** The trip a membership row ends in is the one the write resurfaces, exactly when it names no other. */
  lemma GrantResurfaces(reg: Registry, a: Rows, b: Rows, m: Mutation)
    requires Founded(reg) && Rostered(reg) && SchemaOk(reg, a) && SchemaOk(reg, b) && !m.op.Delete? && m.table.TripMembers?
    requires KeyOf(m) in b && b[KeyOf(m)] == RowAfter(reg, a, m)
    ensures Cell(b, KeyOf(m), TripId).Text?
    ensures NamesItsTrip(a, m) <==> MemberTrip(Load(a, KeyOf(m)), m) == Some(Cell(b, KeyOf(m), TripId).text)
  {
    WrittenCell(reg, a, m, TripId);
    LinkNames(reg, b, KeyOf(m), TripId);
    if KeyOf(m) in a { LinkNames(reg, a, KeyOf(m), TripId); }
  }

  /** A step's membership write, if it made one, names its own trip. */
  predicate GrantsOpenly(a: Rows, s: Step) {
    s.act.Wrote? && s.act.m.table.TripMembers? ==> NamesItsTrip(a, s.act.m)
  }

  /** A delete grants nobody anything. */
  lemma DeleteGrantsNothing(reg: Registry, a: Rows, gone: Key, j: Key, trip: string, user: string)
    requires Founded(reg) && Membership(Deleted(reg, a, gone), j, trip, user)
    ensures Membership(a, j, trip, user)
  {
    DeletedCell(reg, a, gone, j, TripId);
    DeletedCell(reg, a, gone, j, UserId);
  }

  /** A membership a write made is its own row or, for a new trip, the founder's. */
  lemma WriteGrantsOwn(reg: Registry, a: Rows, p: Partition, w: Env, m: Mutation, j: Key, trip: string, user: string)
    requires !m.op.Delete? && Membership(Written(reg, a, p, w, m), j, trip, user)
    ensures Membership(a, j, trip, user) || j == KeyOf(m) || (IsFounder(p, w, a, m, j) && trip == m.id)
  {
    WrittenRows(reg, a, p, w, m, j);
  }

  /** A user who came to see a trip that was there is told of it. */
  lemma NewlySeenIsTold(reg: Registry, a: Rows, b: Rows, s: Step, user: string, trip: string)
    requires Founded(reg) && Rostered(reg) && SchemaOk(reg, a) && SchemaOk(reg, b) && Acted(reg, a, b, s)
    requires GrantsOpenly(a, s) && Key(Trips, trip) in a && !IsMember(a, trip, user) && IsMember(b, trip, user)
    ensures Told(s, MasterFeed, Key(Trips, trip))
  {
    var j :| Membership(b, j, trip, user);
    assert !Membership(a, j, trip, user);
    match s.act
    case Wrote(w, _, m, _) =>
      WriteGrantsOwn(reg, a, s.p, w, m, j, trip, user);
      WrittenRows(reg, a, s.p, w, m, j);
      if j == KeyOf(m) {
        GrantResurfaces(reg, a, b, m);
        TouchIsTold(reg, a, b, s, trip);
      }
    case Removed(_, _, m) => DeleteGrantsNothing(reg, a, KeyOf(m), j, trip, user);
    case _ =>
  }

  lemma TouchIsTold(reg: Registry, a: Rows, b: Rows, s: Step, trip: string)
    requires Founded(reg) && Acted(reg, a, b, s) && s.act.Wrote? && s.act.m.table.TripMembers?
    requires MemberTrip(Load(a, KeyOf(s.act.m)), s.act.m) == Some(trip)
    ensures Told(s, MasterFeed, Key(Trips, trip))
  {
    var n := Note(Key(Trips, trip), false, s.act.m.hlc);
    assert n in AfterChange(reg, b, s.act.w, s.p, s.act.m, Load(a, KeyOf(s.act.m)), false, s.act.source.Retiring?);
    assert n in s.notes;
  }

  /** A step's entries are numbered on from the head. */
  lemma StepKeepsOrder(a: Db, b: Db, s: Step, f: Feed)
    requires InOrder(a, f) && b.head == a.head + |s.notes|
    requires LogOf(b, f) == [] || LogOf(b, f) == LogOf(a, f) + (if f == s.p.feed then Numbered(s.notes, a.head) else [])
    ensures InOrder(b, f)
  {
    var more := if f == s.p.feed then Numbered(s.notes, a.head) else [];
    forall e | e in LogOf(a, f) + more ensures 0 < e.at <= b.head { if e in more { } }
  }

  /** What came into a user's sight was told of. */
  lemma SightIsTold(reg: Registry, a: Rows, b: Rows, s: Step, f: Feed, ts: set<Table>, user: string, k: Key)
    requires Ordered(reg, a) && SchemaOk(reg, b) && Acted(reg, a, b, s) && FairStep(s) && FeedLives(b, f)
    requires OwnStep(reg, a, s, f, ts) && (f.MasterFeed? && Trips in ts ==> GrantsOpenly(a, s))
    requires Pulled(reg, f, ts, k.table) && !Shown(reg, a, f, user, k) && Sight(reg, b, f, user, k).Some?
    ensures Told(s, f, k)
  {
    assert f.MasterFeed? && k.table.Trips? by { MasterTripOnly(reg, a, f, ts, user, k); }
    if k in a { NewlySeenIsTold(reg, a, b, s, user, k.id); }
    else if !Told(s, f, k) { UntoldIsUnchanged(reg, a, b, s, f, k); }
  }

  /** The only rows a feed keeps from somebody are the master feed's trips. */
  lemma MasterTripOnly(reg: Registry, rows: Rows, f: Feed, ts: set<Table>, user: string, k: Key)
    requires Pulled(reg, f, ts, k.table) && !Shown(reg, rows, f, user, k)
    ensures f.MasterFeed? && k.table.Trips?
  {
    if Open(reg, f, k.table) { OpenIsShown(reg, rows, f, user, k); }
  }

  /** A feed that grew by `more` is onward when `more` is numbered on and speaks of all that came into sight. */
  lemma GrownIsOnward(reg: Registry, a: Db, b: Db, f: Feed, ts: set<Table>, user: string, more: seq<Entry>)
    requires Later(reg, a, b, f, ts) && LogOf(b, f) == LogOf(a, f) + more && a.head <= b.head && forall e | e in more :: e.at > a.head
    requires forall k: Key | Pulled(reg, f, ts, k.table) && !Shown(reg, a.rows, f, user, k) && Sight(reg, b.rows, f, user, k).Some? ::
      Mentions(more, k)
    ensures Onward(reg, a, b, f, ts, user)
  {
    assert LogOf(b, f)[|LogOf(a, f)|..] == more;
  }

  lemma SightIsMentioned(reg: Registry, a: Db, b: Db, s: Step, f: Feed, ts: set<Table>, user: string, k: Key)
    requires Ordered(reg, a.rows) && Took(reg, a, b, s) && FairStep(s) && FeedLives(b.rows, f)
    requires OwnStep(reg, a.rows, s, f, ts) && (f.MasterFeed? && Trips in ts ==> GrantsOpenly(a.rows, s))
    requires Pulled(reg, f, ts, k.table) && !Shown(reg, a.rows, f, user, k) && Sight(reg, b.rows, f, user, k).Some?
    ensures f == s.p.feed && Mentions(Numbered(s.notes, a.head), k)
  {
    SightIsTold(reg, a.rows, b.rows, s, f, ts, user, k);
    TellingIsMentioning(s, a.head, f, k);
  }

  lemma SightsAreMentioned(reg: Registry, a: Db, b: Db, s: Step, f: Feed, ts: set<Table>, user: string)
    requires Ordered(reg, a.rows) && Took(reg, a, b, s) && FairStep(s) && FeedLives(b.rows, f)
    requires OwnStep(reg, a.rows, s, f, ts) && (f.MasterFeed? && Trips in ts ==> GrantsOpenly(a.rows, s))
    ensures forall k: Key | Pulled(reg, f, ts, k.table) && !Shown(reg, a.rows, f, user, k) && Sight(reg, b.rows, f, user, k).Some? ::
      f == s.p.feed && Mentions(Numbered(s.notes, a.head), k)
  {
    forall k: Key | Pulled(reg, f, ts, k.table) && !Shown(reg, a.rows, f, user, k) && Sight(reg, b.rows, f, user, k).Some?
      ensures f == s.p.feed && Mentions(Numbered(s.notes, a.head), k)
    {
      SightIsMentioned(reg, a, b, s, f, ts, user, k);
    }
  }

  lemma TookGrows(reg: Registry, a: Db, b: Db, s: Step, f: Feed)
    requires Took(reg, a, b, s) && FeedLives(b.rows, f)
    ensures var more := if f == s.p.feed then Numbered(s.notes, a.head) else [];
      LogOf(b, f) == LogOf(a, f) + more && a.head <= b.head && forall e | e in more :: e.at > a.head
  {
  }

  /** Every step leaves a live feed onward. */
  lemma StepIsOnward(reg: Registry, a: Db, b: Db, s: Step, f: Feed, ts: set<Table>, user: string)
    requires Ordered(reg, a.rows) && Took(reg, a, b, s) && FairStep(s) && FeedLives(b.rows, f)
    requires OwnStep(reg, a.rows, s, f, ts) && (f.MasterFeed? && Trips in ts ==> GrantsOpenly(a.rows, s))
    ensures Onward(reg, a, b, f, ts, user)
  {
    StepIsLater(reg, a, b, s, f, ts);
    TookGrows(reg, a, b, s, f);
    SightsAreMentioned(reg, a, b, s, f, ts, user);
    GrownIsOnward(reg, a, b, f, ts, user, if f == s.p.feed then Numbered(s.notes, a.head) else []);
  }

  /** What is onward step by step is onward over all of them. */
  lemma OnwardTwice(reg: Registry, a: Db, b: Db, c: Db, f: Feed, ts: set<Table>, user: string)
    requires Onward(reg, a, b, f, ts, user) && Onward(reg, b, c, f, ts, user)
    ensures Onward(reg, a, c, f, ts, user)
  {
    var x, y, z := LogOf(a, f), LogOf(b, f), LogOf(c, f);
    assert z[|x|..] == y[|x|..] + z[|y|..];
    forall k: Key | Mentions(y[|x|..], k) || Mentions(z[|y|..], k) ensures Mentions(z[|x|..], k) { }
  }

  lemma {:induction false} OnwardThroughout(reg: Registry, dbs: seq<Db>, f: Feed, ts: set<Table>, user: string, i: nat, j: nat)
    requires i <= j < |dbs|
    requires forall n | i <= n < j :: Onward(reg, dbs[n], dbs[n + 1], f, ts, user)
    ensures Onward(reg, dbs[i], dbs[j], f, ts, user)
    decreases j
  {
    if i == j {
      OnwardInPlace(reg, dbs[i], f, ts, user);
    } else {
      OnwardThroughout(reg, dbs, f, ts, user, i, j - 1);
      assert Onward(reg, dbs[j - 1], dbs[j - 1 + 1], f, ts, user);
      OnwardTwice(reg, dbs[i], dbs[j - 1], dbs[j], f, ts, user);
    }
  }
}
