// A replica's copy of a row, links and all: it is the row as the server had it
// at some moment after which the log says nothing of it. So the two differ only
// by links a delete emptied since, the one change no entry tells of
// (internal/store/pull.go, internal/store/schema.sql).
module WholeRows {
  import opened Values
  import opened Vocabulary
  import opened Registry
  import opened Database
  import opened Feeds
  import opened Pull
  import opened Convergence
  import opened Devices

  /** The feed says something of the entity between two moments. */
  predicate Since(a: Db, b: Db, f: Feed, k: Key) {
    |LogOf(a, f)| <= |LogOf(b, f)| && Mentions(LogOf(b, f)[|LogOf(a, f)|..], k)
  }

  /** The row as it was at some moment after which nothing was said of it. */
  ghost predicate Dates(dbs: seq<Db>, f: Feed, k: Key, from: nat, t: nat, image: Image)
    requires t < |dbs|
  {
    exists m | from <= m <= t :: Content(dbs[m].rows, f, k) == Some(image) && !Since(dbs[m], dbs[t], f, k)
  }

  /** With nothing left to pull for it, an entity in sight is there as it was at such a moment. */
  ghost predicate Dated(reg: Registry, dbs: seq<Db>, f: Feed, user: string, r: Replica, from: nat, t: nat, k: Key)
    requires t < |dbs|
  {
    !Behind(LogOf(dbs[t], f), r.cursor, k) && Sight(reg, dbs[t].rows, f, user, k).Some? ==>
      k in r.rows && Dates(dbs, f, k, from, t, r.rows[k])
  }

  /** Two silences in a row are one. */
  lemma SilenceJoins(a: Db, b: Db, c: Db, f: Feed, k: Key)
    requires LogOf(a, f) <= LogOf(b, f) <= LogOf(c, f)
    ensures Since(a, c, f, k) <==> Since(a, b, f, k) || Since(b, c, f, k)
  {
    var x, y, z := LogOf(a, f), LogOf(b, f), LogOf(c, f);
    assert z[|x|..] == y[|x|..] + z[|y|..];
    forall e ensures e in z[|x|..] <==> e in y[|x|..] || e in z[|y|..] { }
  }

  lemma FlowGrows(reg: Registry, dbs: seq<Db>, f: Feed, ts: set<Table>, user: string, from: nat, t: nat, i: nat, j: nat)
    requires Flows(reg, dbs, f, ts, user, from, t) && from <= i <= j <= t
    ensures LogOf(dbs[i], f) <= LogOf(dbs[j], f)
  {
    FlowIsOnward(reg, dbs, f, ts, user, from, t, i, j);
  }

  /** The copy the page's entry makes is dated by the read it came from. */
  lemma TurnDates(
    reg: Registry, dbs: seq<Db>, times: seq<nat>, f: Feed, ts: set<Table>, user: string, latest: seq<Entry>, i: nat,
    rows: map<Key, Image>, from: nat, t: nat, k: Key)
    requires (forall n | 0 <= n < |times| :: from <= times[n] <= t) && t < |dbs|
    requires Meets(reg, Met(dbs, times), dbs[t], f, ts, user) && Pulled(reg, f, ts, k.table)
    requires 0 < i <= |latest| && 2 * |latest| < |times| && latest[i - 1].key == k
    requires Newest(LogOf(dbs[times[0]], f), k) == Some(latest[i - 1])
    requires !Since(dbs[times[0]], dbs[t], f, k) && Sight(reg, dbs[t].rows, f, user, k).Some?
    ensures var after := Turn(reg, Met(dbs, times), f, user, latest, i, rows);
      k in after && Dates(dbs, f, k, from, t, after[k])
  {
    hide Onward, Newest, Shown, Ascending, InOrder, Behind;
    var met, e, m := Met(dbs, times), latest[i - 1], times[2 * i];
    LogGrew(reg, met, dbs[t], f, ts, user);
    SilentLooksSame(reg, met, dbs[t], f, ts, user, k, 2 * i - 1);
    SilentLooksSame(reg, met, dbs[t], f, ts, user, k, 2 * i);
    FirstIsFaithful(reg, met, dbs[t], f, ts, user, k);
    OneChange(reg, rows, met[2 * i - 1].rows, met[2 * i].rows, f, user, e);
    MetBetween(reg, met, dbs[t], f, ts, user, 2 * i);
    SilenceJoins(met[0], met[2 * i], dbs[t], f, k);
    assert Content(dbs[m].rows, f, k) == ImageOf(met[2 * i].rows, k);
  }

  lemma MetBetween(reg: Registry, met: seq<Db>, z: Db, f: Feed, ts: set<Table>, user: string, i: nat)
    requires Meets(reg, met, z, f, ts, user) && i < |met|
    ensures LogOf(met[0], f) <= LogOf(met[i], f) <= LogOf(z, f)
  {
  }

  /** A copy stays dated while nothing is said. */
  lemma StaysDated(reg: Registry, dbs: seq<Db>, f: Feed, ts: set<Table>, user: string, from: nat, s: nat, t: nat, k: Key, image: Image)
    requires Flows(reg, dbs, f, ts, user, from, t) && from <= s <= t
    requires Dates(dbs, f, k, from, s, image) && !Since(dbs[s], dbs[t], f, k)
    ensures Dates(dbs, f, k, from, t, image)
  {
    hide FlowsAt, Since;
    var m :| from <= m <= s && Content(dbs[m].rows, f, k) == Some(image) && !Since(dbs[m], dbs[s], f, k);
    FlowGrows(reg, dbs, f, ts, user, from, t, m, s);
    FlowGrows(reg, dbs, f, ts, user, from, t, s, t);
    SilenceJoins(dbs[m], dbs[s], dbs[t], f, k);
  }

  /** A page dates what it lists. */
  lemma PageDates(
    reg: Registry, dbs: seq<Db>, p: Pulling, r: Replica, f: Feed, ts: set<Table>, user: string, from: nat, t: nat, k: Key)
    requires t < |dbs| && |p.times| > 2 * p.limit && forall n | 0 <= n < |p.times| :: from <= p.times[n] <= t
    requires Meets(reg, Met(dbs, p.times), dbs[t], f, ts, user) && Pulled(reg, f, ts, k.table)
    requires var page := PageOf(reg, Met(dbs, p.times), f, user, r.cursor, p.limit);
      !Behind(LogOf(dbs[t], f), page.next, k) && page.next <= dbs[p.times[0]].head
    requires Sight(reg, dbs[t].rows, f, user, k).Some?
    ensures !Since(dbs[p.times[0]], dbs[t], f, k)
    ensures var after, log := Receive(r, PageOf(reg, Met(dbs, p.times), f, user, r.cursor, p.limit)).rows, LogOf(dbs[p.times[0]], f);
      if Mentions(Compacted(Taken(log, r.cursor, p.limit), |Taken(log, r.cursor, p.limit)|), k)
      then k in after && Dates(dbs, f, k, from, t, after[k])
      else Same(after, r.rows, k) && !Behind(log, r.cursor, k)
  {
    hide Meets, Dates, Sight, Behind, Taken, Compacted, Cursor, Newest, Resolved, Turn;
    var met, log := Met(dbs, p.times), LogOf(dbs[p.times[0]], f);
    var entries := Taken(log, r.cursor, p.limit);
    var latest := Compacted(entries, |entries|);
    CompactedIsShort(entries, |entries|);
    TakenIsShort(log, r.cursor, p.limit);
    LogGrew(reg, met, dbs[t], f, ts, user);
    MetIsOrdered(reg, met, dbs[t], f, ts, user);
    var next := Cursor(entries, r.cursor);
    if Mentions(LogOf(dbs[t], f)[|log|..], k) { ExtensionIsPast(log, LogOf(dbs[t], f), met[0].head, next, k); }
    PrefixNotBehind(log, LogOf(dbs[t], f), next, k);
    var good := (rows: map<Key, Image>) => k in rows && Dates(dbs, f, k, from, t, rows[k]);
    forall i: nat, rows: map<Key, Image> | 0 < i <= |latest| && latest[i - 1].key == k
      ensures good(Turn(reg, met, f, user, latest, i, rows))
    {
      CompactedIsNewest(log, r.cursor, p.limit, latest[i - 1]);
      TurnDates(reg, dbs, p.times, f, ts, user, latest, i, rows, from, t, k);
    }
    ChangesDecide(reg, r.rows, met, f, user, latest, |latest|, k, good);
    assert latest[..|latest|] == latest;
    if !Mentions(latest, k) { UnlistedIsNotBehind(log, r.cursor, p.limit, k); }
  }

  lemma TakenIsShort(log: seq<Entry>, cursor: nat, limit: nat)
    ensures |Taken(log, cursor, limit)| <= limit
  {
  }

  lemma MetIsOrdered(reg: Registry, met: seq<Db>, z: Db, f: Feed, ts: set<Table>, user: string)
    requires Meets(reg, met, z, f, ts, user)
    ensures Ascending(LogOf(z, f)) && forall e | e in LogOf(z, f)[|LogOf(met[0], f)|..] :: e.at > met[0].head
  {
  }

  /** Nothing said of an entity in sight: it was in sight before. */
  lemma InSightBefore(reg: Registry, a: Db, b: Db, f: Feed, ts: set<Table>, user: string, k: Key)
    requires Onward(reg, a, b, f, ts, user) && Pulled(reg, f, ts, k.table) && !Since(a, b, f, k)
    requires Sight(reg, b.rows, f, user, k).Some?
    ensures Sight(reg, a.rows, f, user, k).Some?
  {
    UnspokenKeeps(reg, a, b, f, ts, user, k);
  }

  /** Whatever is written in between, every copy a device holds is dated. */
  lemma {:induction false} DeviceIsDated(
    reg: Registry, dbs: seq<Db>, f: Feed, ts: set<Table>, user: string, pulls: seq<Pulling>, from: nat, t: nat, k: Key)
    requires Flows(reg, dbs, f, ts, user, from, t) && Scheduled(pulls, from, t) && InTime(pulls, |dbs|)
    requires Pulled(reg, f, ts, k.table)
    ensures Dated(reg, dbs, f, user, Device(reg, dbs, f, user, pulls), from, t, k)
  {
    hide FlowsAt, Onward, Sight, Dates, Behind, PageOf, Meets, Since;
    if pulls == [] {
      if !Behind(LogOf(dbs[t], f), 0, k) { NothingInSight(reg, dbs, f, ts, user, from, t, k); }
    } else {
      var last, front := pulls[|pulls| - 1], pulls[..|pulls| - 1];
      var start, before := last.times[0], Device(reg, dbs, f, user, front);
      ScheduledInOrder(front, from, start);
      FlowEndsEarlier(reg, dbs, f, ts, user, from, t, start);
      DeviceIsDated(reg, dbs, f, ts, user, front, from, start, k);
      DeviceConverges(reg, dbs, f, ts, user, front, from, start);
      DeviceConverges(reg, dbs, f, ts, user, pulls, from, t);
      PullingMeets(reg, dbs, f, ts, user, last, from, t);
      if !Behind(LogOf(dbs[t], f), Device(reg, dbs, f, user, pulls).cursor, k) && Sight(reg, dbs[t].rows, f, user, k).Some? {
        PageStops(reg, dbs, last, before, f, ts, user, t);
        PageDates(reg, dbs, last, before, f, ts, user, from, t, k);
        FlowIsOnward(reg, dbs, f, ts, user, from, t, start, t);
        InSightBefore(reg, dbs[start], dbs[t], f, ts, user, k);
        if Same(Device(reg, dbs, f, user, pulls).rows, before.rows, k) && !Behind(LogOf(dbs[start], f), before.cursor, k) {
          StaysDated(reg, dbs, f, ts, user, from, start, t, k, before.rows[k]);
        }
      }
    }
  }

  /** A page ends no later than the log it was read from. */
  lemma PageStops(reg: Registry, dbs: seq<Db>, p: Pulling, r: Replica, f: Feed, ts: set<Table>, user: string, t: nat)
    requires t < |dbs| && |p.times| > 2 * p.limit && forall n | 0 <= n < |p.times| :: p.times[n] < |dbs|
    requires Meets(reg, Met(dbs, p.times), dbs[t], f, ts, user) && Converging(reg, r, dbs[p.times[0]], f, ts, user)
    requires r.cursor <= dbs[p.times[0]].head
    ensures PageOf(reg, Met(dbs, p.times), f, user, r.cursor, p.limit).next <= dbs[p.times[0]].head
  {
    hide Meets, Converging, PageOf;
    PageKeepsConverging(reg, r, Met(dbs, p.times), dbs[t], f, ts, user, p.limit);
  }

  lemma NothingInSight(reg: Registry, dbs: seq<Db>, f: Feed, ts: set<Table>, user: string, from: nat, t: nat, k: Key)
    requires Flows(reg, dbs, f, ts, user, from, t) && Pulled(reg, f, ts, k.table) && !Behind(LogOf(dbs[t], f), 0, k)
    ensures Sight(reg, dbs[t].rows, f, user, k).None?
  {
    assert FlowsAt(reg, dbs, f, ts, user, t, t);
    assert FaithfulAt(dbs[t], f, k);
  }

  /** Every change of the row as it travels has an entry by the moment `t`. */
  ghost predicate Spoken(dbs: seq<Db>, f: Feed, k: Key, from: nat, t: nat)
    requires t < |dbs|
  {
    forall n | from <= n < t :: Content(dbs[n].rows, f, k) != Content(dbs[n + 1].rows, f, k) ==> Since(dbs[n], dbs[t], f, k)
  }

  /** A dated copy of a row whose every change is spoken of is the row. */
  lemma {:induction false} DatedIsCurrent(
    reg: Registry, dbs: seq<Db>, f: Feed, ts: set<Table>, user: string, from: nat, m: nat, t: nat, k: Key)
    requires Flows(reg, dbs, f, ts, user, from, t) && from <= m <= t
    requires Spoken(dbs, f, k, from, t) && !Since(dbs[m], dbs[t], f, k)
    ensures Content(dbs[m].rows, f, k) == Content(dbs[t].rows, f, k)
    decreases t - m
  {
    hide FlowsAt, Since;
    if m < t {
      FlowGrows(reg, dbs, f, ts, user, from, t, m, m + 1);
      FlowGrows(reg, dbs, f, ts, user, from, t, m + 1, t);
      SilenceJoins(dbs[m], dbs[m + 1], dbs[t], f, k);
      DatedIsCurrent(reg, dbs, f, ts, user, from, m + 1, t, k);
    }
  }

  /** The replica's copy is the server's row, links and all. */
  predicate HasRow(r: Replica, rows: Rows, k: Key) {
    k in r.rows && Some(r.rows[k]) == ImageOf(rows, k)
  }

  /** So the device has the whole row of every entity in sight whose changes were all spoken of. */
  lemma DeviceHasRow(
    reg: Registry, dbs: seq<Db>, f: Feed, ts: set<Table>, user: string, pulls: seq<Pulling>, from: nat, t: nat, k: Key)
    requires Flows(reg, dbs, f, ts, user, from, t) && Scheduled(pulls, from, t) && InTime(pulls, |dbs|)
    requires Pulled(reg, f, ts, k.table) && Spoken(dbs, f, k, from, t)
    requires Sight(reg, dbs[t].rows, f, user, k).Some?
    requires !Behind(LogOf(dbs[t], f), Device(reg, dbs, f, user, pulls).cursor, k)
    ensures HasRow(Device(reg, dbs, f, user, pulls), dbs[t].rows, k)
  {
    hide FlowsAt, Behind, Since, Spoken, Sight;
    DeviceIsDated(reg, dbs, f, ts, user, pulls, from, t, k);
    var rows := Device(reg, dbs, f, user, pulls).rows;
    var m :| from <= m <= t && Content(dbs[m].rows, f, k) == Some(rows[k]) && !Since(dbs[m], dbs[t], f, k);
    DatedIsCurrent(reg, dbs, f, ts, user, from, m, t, k);
  }
}
