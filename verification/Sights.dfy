// What a page of the master feed may show, and must: rows of owners to their
// owner, rows of trips to their members, everything else to everybody
// (internal/store/master.go, tripScopedVisible and ownedBy; internal/store/pull.go).
module Sights {
  import opened Values
  import opened Vocabulary
  import opened Merging
  import opened Registry
  import opened Database
  import opened Guards
  import opened Restoring
  import opened Feeds
  import opened Pull
  import opened Convergence
  import opened Devices

  /** The tables whose rows are one user's. */
  const OWNED: set<Table> := {TripSeries, DestinationProfiles, DestinationChecklistItems, DestinationTasks}

  /** The master tables whose rows are a trip's. */
  const SHARED: set<Table> := {Trips, TripMembers, TripTemplateSources, TripAppliedChanges}

  /** What the registry must say of who sees what. */
  ghost predicate Sighted(reg: Registry) {
    forall t: Table {:trigger reg.visible(t)} ::
      reg.visible(t) == if reg.side(t) == OnTrip then Hidden else if t in OWNED then OfOwner else if t in SHARED then OfTrip else Everyone
  }

  // ------------------------------------------------------------- who is entitled

  predicate OwnsSeries(rows: Rows, user: string, series: string) {
    Key(TripSeries, series) in rows && Get(rows[Key(TripSeries, series)].fields, OwnerId) == Text(user)
  }

  /** The profile hangs off a series of the user's. */
  ghost predicate OwnsProfile(rows: Rows, user: string, profile: string) {
    exists series :: Cell(rows, Key(DestinationProfiles, profile), SeriesId) == Text(series) && OwnsSeries(rows, user, series)
  }

  /** A membership row has the user on the trip. */
  ghost predicate OnTheTrip(rows: Rows, user: string, trip: string) {
    exists k | k in rows && k.table.TripMembers? :: Cell(rows, k, TripId) == Text(trip) && Cell(rows, k, UserId) == Text(user)
  }

  /** Whose a row of the master feed is. */
  ghost predicate Entitled(rows: Rows, user: string, k: Key) {
    match k.table
    case TripSeries => OwnsSeries(rows, user, k.id)
    case DestinationProfiles => OwnsProfile(rows, user, k.id)
    case DestinationChecklistItems | DestinationTasks =>
      exists profile :: Cell(rows, k, ProfileId) == Text(profile) && OwnsProfile(rows, user, profile)
    case Trips => k in rows && OnTheTrip(rows, user, k.id)
    case TripMembers | TripTemplateSources | TripAppliedChanges =>
      exists trip :: Cell(rows, k, TripId) == Text(trip) && OnTheTrip(rows, user, trip)
    case _ => true
  }

  lemma ProfileSeenExactly(rows: Rows, user: string, profile: string)
    ensures ProfileOwner(rows, profile) == Text(user) <==> OwnsProfile(rows, user, profile)
  {
    var series := Cell(rows, Key(DestinationProfiles, profile), SeriesId);
    if series.Text? { assert ProfileOwner(rows, profile) == Text(user) <==> OwnsSeries(rows, user, series.text); }
  }

  lemma MemberExactly(rows: Rows, user: string, trip: string)
    ensures IsMember(rows, trip, user) <==> OnTheTrip(rows, user, trip)
  {
    if k :| k in rows && k.table.TripMembers? && Cell(rows, k, TripId) == Text(trip) && Cell(rows, k, UserId) == Text(user) {
      assert Membership(rows, k, trip, user);
    }
  }

  /** The pull's judgement is exactly that. */
  lemma SeenExactly(reg: Registry, rows: Rows, user: string, k: Key)
    requires Sighted(reg)
    ensures Visible(reg, rows, user, k) <==> reg.side(k.table) == OnMaster && Entitled(rows, user, k)
  {
    hide OwnsProfile, OnTheTrip, IsMember, ProfileOwner;
    if reg.side(k.table) == OnMaster {
      if k.table in OWNED { OwnedSeenExactly(reg, rows, user, k); } else if k.table in SHARED { SharedSeenExactly(reg, rows, user, k); }
    }
  }

  lemma OwnedSeenExactly(reg: Registry, rows: Rows, user: string, k: Key)
    requires k.table in OWNED
    ensures OwnerOf(rows, k) == Text(user) <==> Entitled(rows, user, k)
  {
    hide OwnsProfile, ProfileOwner;
    ProfileSeenExactly(rows, user, k.id);
    if Cell(rows, k, ProfileId).Text? { ProfileSeenExactly(rows, user, Cell(rows, k, ProfileId).text); }
  }

  lemma SharedSeenExactly(reg: Registry, rows: Rows, user: string, k: Key)
    requires k.table in SHARED && reg.visible(k.table).OfTrip?
    ensures Visible(reg, rows, user, k) <==> Entitled(rows, user, k)
  {
    hide OnTheTrip, IsMember;
    MemberExactly(rows, user, k.id);
    if Cell(rows, k, TripId).Text? { MemberExactly(rows, user, Cell(rows, k, TripId).text); }
  }

  // --------------------------------------------------------------------- the page

  /** The whole row as it is, or nothing where it is gone. */
  predicate Copies(row: Option<Image>, rows: Rows, k: Key) {
    row == if k in rows then Some(Image(rows[k].fields, rows[k].hlc)) else None
  }

  /** Change `c` is what entry `i` of the compacted ones becomes: a tombstone for everybody, a snapshot for the entitled. */
  ghost predicate Becomes(reg: Registry, met: seq<Db>, user: string, entries: seq<Entry>, i: nat, c: Change)
    requires i < |entries| && |met| > 2 * |entries|
  {
    var e := entries[i];
    && c.at == e.at && c.key == e.key && c.deleted == e.deleted
    && (if e.deleted then c.row == None
        else reg.side(e.key.table) == OnMaster && Entitled(met[2 * i + 1].rows, user, e.key) && Copies(c.row, met[2 * i + 2].rows, e.key))
  }

  lemma ChangeBecomes(reg: Registry, met: seq<Db>, user: string, entries: seq<Entry>, i: nat, c: Change)
    requires Sighted(reg) && i < |entries| && |met| > 2 * |entries|
    ensures c in ChangeOf(reg, met[2 * i + 1].rows, met[2 * i + 2].rows, MasterFeed, user, entries[i]) <==>
      Becomes(reg, met, user, entries, i, c)
  {
    hide Entitled, Visible, Sighted;
    SeenExactly(reg, met[2 * i + 1].rows, user, entries[i].key);
  }

  /** It is what one of the first `n` entries becomes. */
  ghost predicate Told(reg: Registry, met: seq<Db>, user: string, entries: seq<Entry>, n: nat, c: Change)
    requires n <= |entries| && |met| > 2 * |entries|
  {
    exists i: nat :: i < n && Becomes(reg, met, user, entries, i, c)
  }

  lemma OneMoreTold(reg: Registry, met: seq<Db>, user: string, entries: seq<Entry>, n: nat, c: Change)
    requires 0 < n <= |entries| && |met| > 2 * |entries|
    ensures Told(reg, met, user, entries, n, c) <==>
      Told(reg, met, user, entries, n - 1, c) || Becomes(reg, met, user, entries, n - 1, c)
  {
    hide Becomes;
  }

  lemma OneMoreResolved(reg: Registry, met: seq<Db>, user: string, entries: seq<Entry>, i: nat, c: Change)
    requires i < |entries| && |met| > 2 * |entries|
    ensures c in Resolved(reg, met, MasterFeed, user, entries, i + 1) <==>
      || c in Resolved(reg, met, MasterFeed, user, entries, i)
      || c in ChangeOf(reg, met[2 * i + 1].rows, met[2 * i + 2].rows, MasterFeed, user, entries[i])
  {
    hide ChangeOf;
    assert 2 * (i + 1) - 1 == 2 * i + 1;
  }

  /** A page has exactly those changes. */
  lemma {:induction false} ResolvedExactly(reg: Registry, met: seq<Db>, user: string, entries: seq<Entry>, n: nat, c: Change)
    requires Sighted(reg) && n <= |entries| && |met| > 2 * |entries|
    ensures c in Resolved(reg, met, MasterFeed, user, entries, n) <==> Told(reg, met, user, entries, n, c)
  {
    hide Becomes, ChangeOf, Sighted, Entitled, Visible, Copies;
    if n > 0 {
      hide Resolved, Told;
      ResolvedExactly(reg, met, user, entries, n - 1, c);
      OneMoreResolved(reg, met, user, entries, n - 1, c);
      ChangeBecomes(reg, met, user, entries, n - 1, c);
      OneMoreTold(reg, met, user, entries, n, c);
    }
  }

  /** The entries a page lists. */
  function Listed(met: seq<Db>, cursor: nat, limit: nat): (r: seq<Entry>)
    requires |met| > 0
  {
    var entries := Taken(LogOf(met[0], MasterFeed), cursor, limit);
    Compacted(entries, |entries|)
  }

  lemma ListedIsShort(met: seq<Db>, cursor: nat, limit: nat)
    requires |met| > 2 * limit
    ensures |Listed(met, cursor, limit)| <= limit
  {
    CompactedIsShort(Taken(LogOf(met[0], MasterFeed), cursor, limit), |Taken(LogOf(met[0], MasterFeed), cursor, limit)|);
  }

  /** Whatever a page shows of a live row, its reader was entitled to when it was judged, and it is the row as read next. */
  lemma PageShowsEntitled(reg: Registry, met: seq<Db>, user: string, cursor: nat, limit: nat, c: Change)
    requires Sighted(reg) && |met| > 2 * limit && !c.deleted && c in PageOf(reg, met, MasterFeed, user, cursor, limit).changes
    ensures exists n: nat :: 2 * n + 2 < |met| && Entitled(met[2 * n + 1].rows, user, c.key) && Copies(c.row, met[2 * n + 2].rows, c.key)
  {
    hide Entitled, Sighted, Taken, Compacted, Resolved;
    var latest := Listed(met, cursor, limit);
    ListedIsShort(met, cursor, limit);
    ResolvedExactly(reg, met, user, latest, |latest|, c);
    var i: nat :| i < |latest| && Becomes(reg, met, user, latest, i, c);
    assert 2 * i + 2 < |met|;
  }

  /** And every listed entry is told: a tombstone to everybody, a live row to whoever is entitled to it when it is judged. */
  lemma PageTellsEntitled(reg: Registry, met: seq<Db>, user: string, cursor: nat, limit: nat, i: nat)
    requires Sighted(reg) && |met| > 2 * limit && i < |Listed(met, cursor, limit)| <= limit
    requires var e := Listed(met, cursor, limit)[i];
      e.deleted || (reg.side(e.key.table) == OnMaster && Entitled(met[2 * i + 1].rows, user, e.key))
    ensures var e := Listed(met, cursor, limit)[i];
      exists c | c in PageOf(reg, met, MasterFeed, user, cursor, limit).changes ::
        && c.at == e.at && c.key == e.key && c.deleted == e.deleted
        && (if e.deleted then c.row == None else Copies(c.row, met[2 * i + 2].rows, e.key))
  {
    hide Entitled, Sighted, Taken, Compacted, Resolved;
    var latest, e := Listed(met, cursor, limit), Listed(met, cursor, limit)[i];
    var c := Change(e.at, e.key, e.deleted, if e.deleted then None else ImageOf(met[2 * i + 2].rows, e.key));
    ResolvedExactly(reg, met, user, latest, |latest|, c);
    assert Becomes(reg, met, user, latest, i, c);
  }

  /** The page lists an entity's last entry between its two cursors, and nothing else. */
  lemma ListedExactly(met: seq<Db>, cursor: nat, limit: nat, next: nat, e: Entry)
    requires |met| > 0 && Ascending(LogOf(met[0], MasterFeed))
    requires next == Cursor(Taken(LogOf(met[0], MasterFeed), cursor, limit), cursor)
    ensures e in Listed(met, cursor, limit) <==>
      && e in LogOf(met[0], MasterFeed) && cursor < e.at <= next
      && forall d | d in LogOf(met[0], MasterFeed) && d.key == e.key && cursor < d.at <= next :: d.at <= e.at
  {
    hide Taken, Compacted;
    var log := LogOf(met[0], MasterFeed);
    var entries := Taken(log, cursor, limit);
    forall d ensures d in entries <==> d in log && cursor < d.at <= next { TakenExactly(log, cursor, limit, d); }
    TakenIsAscending(log, cursor, limit);
    LastExactly(entries, e);
  }

  lemma TakenExactly(log: seq<Entry>, cursor: nat, limit: nat, d: Entry)
    requires Ascending(log)
    ensures d in Taken(log, cursor, limit) <==> d in log && cursor < d.at <= Cursor(Taken(log, cursor, limit), cursor)
  {
    if d in log { TakenIsBetween(log, cursor, limit, d); }
    PastIsAscending(log, cursor);
  }

  /** The entries between two cursors, in order. */
  ghost predicate Between(log: seq<Entry>, cursor: nat, next: nat, entries: seq<Entry>) {
    Ascending(entries) && forall e :: e in entries <==> e in log && cursor < e.at <= next
  }

  /** A page of either feed says there is more exactly while the log goes on past its new cursor; until then it is full. */
  lemma MoreExactly(reg: Registry, met: seq<Db>, f: Feed, user: string, cursor: nat, limit: nat)
    requires |met| > 2 * limit && Ascending(LogOf(met[0], f))
    ensures var log, page := LogOf(met[0], f), PageOf(reg, met, f, user, cursor, limit);
      && (page.more <==> exists e | e in log :: e.at > page.next)
      && (exists entries | Between(log, cursor, page.next, entries) :: if page.more then |entries| == limit else |entries| <= limit)
  {
    hide Past, Compacted, Resolved;
    var log := LogOf(met[0], f);
    var past, entries, next := Past(log, cursor), Taken(log, cursor, limit), Cursor(Taken(log, cursor, limit), cursor);
    PastIsAscending(log, cursor);
    forall d ensures d in entries <==> d in log && cursor < d.at <= next { TakenExactly(log, cursor, limit, d); }
    TakenIsAscending(log, cursor, limit);
    assert Between(log, cursor, next, entries);
    if |past| > limit {
      assert past[limit] in log && past[limit].at > next;
    } else if e :| e in log && e.at > next {
      PastHas(log, cursor, e);
    }
  }

  lemma LastExactly(entries: seq<Entry>, e: Entry)
    requires Ascending(entries)
    ensures e in Compacted(entries, |entries|) <==> e in entries && forall d | d in entries && d.key == e.key :: d.at <= e.at
  {
    hide Compacted;
    if e in Compacted(entries, |entries|) {
      CompactedIsLast(entries, |entries|, e);
      var j :| 0 <= j < |entries| && entries[j] == e && IsLast(entries, j);
      forall d | d in entries && d.key == e.key ensures d.at <= e.at { var i :| 0 <= i < |entries| && entries[i] == d; }
    } else if e in entries {
      var j :| 0 <= j < |entries| && entries[j] == e;
      if IsLast(entries, j) { CompactedHasLast(entries, |entries|, j); }
      else { var i :| j < i < |entries| && entries[i].key == e.key; assert entries[i].at > e.at; }
    }
  }

  // -------------------------------------------------------------------- the device

  /** A copy was its holder's to see at some moment, and is the row as it was at some moment. */
  ghost predicate Earned(dbs: seq<Db>, user: string, k: Key, image: Image) {
    && (exists n: nat :: n < |dbs| && Entitled(dbs[n].rows, user, k))
    && (exists n: nat :: n < |dbs| && Copies(Some(image), dbs[n].rows, k))
  }

  lemma {:induction false} AppliedHave(rows: map<Key, Image>, changes: seq<Change>, k: Key)
    requires k in ApplyAll(rows, changes)
    ensures (k in rows && ApplyAll(rows, changes)[k] == rows[k]) ||
      exists c :: c in changes && !c.deleted && c.key == k && c.row == Some(ApplyAll(rows, changes)[k])
  {
    if changes != [] {
      var front, last := changes[..|changes| - 1], changes[|changes| - 1];
      assert changes == front + [last];
      if k in ApplyAll(rows, front) { AppliedHave(rows, front, k); }
    }
  }

  /** Whatever pulls a device made, and whatever was written in between, each copy it holds was its user's to see. */
  lemma {:induction false} CopiesAreEarned(reg: Registry, dbs: seq<Db>, user: string, pulls: seq<Pulling>, k: Key)
    requires Sighted(reg) && InTime(pulls, |dbs|) && k in Device(reg, dbs, MasterFeed, user, pulls).rows
    ensures Earned(dbs, user, k, Device(reg, dbs, MasterFeed, user, pulls).rows[k])
  {
    hide Entitled, Sighted, PageOf, ApplyAll, Copies;
    var last, front := pulls[|pulls| - 1], pulls[..|pulls| - 1];
    var before, met := Device(reg, dbs, MasterFeed, user, front), Met(dbs, last.times);
    var page := PageOf(reg, met, MasterFeed, user, before.cursor, last.limit);
    AppliedHave(before.rows, page.changes, k);
    if c :| c in page.changes && !c.deleted && c.key == k && c.row == Some(ApplyAll(before.rows, page.changes)[k]) {
      PageShowsEntitled(reg, met, user, before.cursor, last.limit, c);
      var n: nat :| 2 * n + 2 < |met| && Entitled(met[2 * n + 1].rows, user, c.key) && Copies(c.row, met[2 * n + 2].rows, c.key);
      assert met[2 * n + 1] == dbs[last.times[2 * n + 1]] && met[2 * n + 2] == dbs[last.times[2 * n + 2]];
    } else {
      CopiesAreEarned(reg, dbs, user, front, k);
    }
  }

  // ------------------------------------------------------------------ the conflicts

  /** Nobody reads a conflict of a master row that is not theirs to see. */
  lemma LooksAreEntitled(reg: Registry, db: Db, p: Partition, id: ConflictId)
    requires Sighted(reg) && p.feed.MasterFeed? && ReadGroup(reg, db, p, id).1.Some?
    ensures Entitled(db.rows, p.actor, id.key)
  {
    hide Entitled, Visible, Sighted;
    SeenExactly(reg, db.rows, p.actor, id.key);
  }
}
