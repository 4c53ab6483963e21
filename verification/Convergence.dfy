// Replicas converge: between any two pages, an entity with no log entry past
// the cursor is equal in the replica and on the server, and draining the pages
// makes that every entity of the feed (internal/store/pull.go).
module Convergence {
  import opened Values
  import opened Vocabulary
  import opened Registry
  import opened Database
  import opened Restoring
  import opened Feeds
  import opened Pull

  /** A device: what it pulled, and how far. */
  datatype Replica = Replica(cursor: nat, rows: map<Key, Image>)

  /** A tombstone removes the row, a snapshot replaces it, an entry without one is passed over. */
  function Applied(rows: map<Key, Image>, c: Change): map<Key, Image> {
    if c.deleted then rows - {c.key} else if c.row.Some? then rows[c.key := c.row.value] else rows
  }

  function ApplyAll(rows: map<Key, Image>, changes: seq<Change>): map<Key, Image> {
    if changes == [] then rows
    else Applied(ApplyAll(rows, changes[..|changes| - 1]), changes[|changes| - 1])
  }

  function Receive(r: Replica, page: Page): Replica {
    Replica(page.next, ApplyAll(r.rows, page.changes))
  }

  /** The tables whose rows a pull delivers to everybody who reads the feed. */
  predicate Open(reg: Registry, f: Feed, t: Table) {
    reg.side(t) == SideOf(f) && (f.MasterFeed? ==> reg.visible(t) == Everyone)
  }

  /** The tables a pull is asked to be right about: of those asked about, the open ones and, in the master feed, the trips. */
  predicate Pulled(reg: Registry, f: Feed, ts: set<Table>, t: Table) {
    Asked(reg, f, ts, t) && (Open(reg, f, t) || t.Trips?)
  }

  /** What the puller is to see of an entity. */
  function Sight(reg: Registry, rows: Rows, f: Feed, user: string, k: Key): Option<Image> {
    if Shown(reg, rows, f, user, k) then View(reg, rows, f, k) else None
  }

  /** What happens in between: the feed speaks of every change, and of every trip the user comes to see. */
  ghost predicate Onward(reg: Registry, a: Db, b: Db, f: Feed, ts: set<Table>, user: string) {
    && Later(reg, a, b, f, ts) && a.head <= b.head
    && (forall e | e in LogOf(b, f)[|LogOf(a, f)|..] :: e.at > a.head)
    && forall k: Key | Pulled(reg, f, ts, k.table) && !Shown(reg, a.rows, f, user, k) && Sight(reg, b.rows, f, user, k).Some? ::
         Mentions(LogOf(b, f)[|LogOf(a, f)|..], k)
  }

  /** A feed's entries are numbered in order, none past the last number drawn. */
  predicate InOrder(db: Db, f: Feed) {
    Ascending(LogOf(db, f)) && forall e | e in LogOf(db, f) :: 0 < e.at <= db.head
  }

  predicate Behind(log: seq<Entry>, cursor: nat, k: Key) {
    exists e | e in log :: e.key == k && e.at > cursor
  }

  /** The rows have the entity as the puller is to see it, severable links aside; an open one that is gone is gone. */
  predicate Right(reg: Registry, rows: map<Key, Image>, db: Db, f: Feed, user: string, k: Key) {
    var sight := Sight(reg, db.rows, f, user, k);
    (sight.Some? ==> k in rows && Some(Image(Steady(reg, k.table, rows[k].fields), rows[k].hlc)) == sight) &&
    (Open(reg, f, k.table) && sight.None? ==> k !in rows)
  }

  /** With nothing left to pull for an entity, the replica has it as the server does; and an open one it has gone when it is gone. */
  predicate UpToDate(reg: Registry, r: Replica, db: Db, f: Feed, user: string, k: Key) {
    !Behind(LogOf(db, f), r.cursor, k) ==> Right(reg, r.rows, db, f, user, k)
  }

  ghost predicate Converging(reg: Registry, r: Replica, db: Db, f: Feed, ts: set<Table>, user: string) {
    forall k: Key | Pulled(reg, f, ts, k.table) :: UpToDate(reg, r, db, f, user, k)
  }

  // ---------------------------------------------------------------- log and page

  lemma PrefixNotBehind(a: seq<Entry>, b: seq<Entry>, cursor: nat, k: Key)
    requires a <= b && !Behind(b, cursor, k)
    ensures !Behind(a, cursor, k)
  {
  }

  lemma ExtensionIsPast(a: seq<Entry>, b: seq<Entry>, head: nat, cursor: nat, k: Key)
    requires a <= b && Ascending(b) && cursor <= head && (forall e | e in b[|a|..] :: e.at > head)
    requires Mentions(b[|a|..], k)
    ensures Behind(b, cursor, k)
  {
    var e :| e in b[|a|..] && e.key == k;
    assert e in b;
  }

  /** An open entity is shown to every puller. */
  lemma OpenIsShown(reg: Registry, rows: Rows, f: Feed, user: string, k: Key)
    requires Open(reg, f, k.table)
    ensures Shown(reg, rows, f, user, k)
  {
  }

  /** What looks different now, or has come into sight, is spoken of since. */
  lemma UnspokenKeeps(reg: Registry, a: Db, b: Db, f: Feed, ts: set<Table>, user: string, k: Key)
    requires Onward(reg, a, b, f, ts, user) && Pulled(reg, f, ts, k.table) && !Mentions(LogOf(b, f)[|LogOf(a, f)|..], k)
    ensures View(reg, b.rows, f, k) == View(reg, a.rows, f, k)
    ensures Sight(reg, b.rows, f, user, k).Some? ==> Shown(reg, a.rows, f, user, k)
  {
  }

  /** An untold entity stays as right as it was. */
  lemma UntoldStaysRight(reg: Registry, r: Replica, a: Db, b: Db, f: Feed, ts: set<Table>, user: string, k: Key)
    requires Onward(reg, a, b, f, ts, user) && Pulled(reg, f, ts, k.table) && !Mentions(LogOf(b, f)[|LogOf(a, f)|..], k)
    requires UpToDate(reg, r, a, f, user, k) && !Behind(LogOf(a, f), r.cursor, k)
    ensures Right(reg, r.rows, b, f, user, k)
  {
    UnspokenKeeps(reg, a, b, f, ts, user, k);
    if Open(reg, f, k.table) {
      OpenIsShown(reg, a.rows, f, user, k);
      OpenIsShown(reg, b.rows, f, user, k);
    }
  }

  /** A push between pages spoils nothing: what it touched has an entry past the cursor. */
  lemma PushKeepsConverging(reg: Registry, r: Replica, a: Db, b: Db, f: Feed, ts: set<Table>, user: string)
    requires Converging(reg, r, a, f, ts, user) && Onward(reg, a, b, f, ts, user)
    requires r.cursor <= a.head && Ascending(LogOf(b, f))
    ensures Converging(reg, r, b, f, ts, user)
  {
    forall k: Key | Pulled(reg, f, ts, k.table) && !Behind(LogOf(b, f), r.cursor, k) ensures Right(reg, r.rows, b, f, user, k) {
      PrefixNotBehind(LogOf(a, f), LogOf(b, f), r.cursor, k);
      if Mentions(LogOf(b, f)[|LogOf(a, f)|..], k) { ExtensionIsPast(LogOf(a, f), LogOf(b, f), a.head, r.cursor, k); }
      UntoldStaysRight(reg, r, a, b, f, ts, user, k);
    }
  }

  /** The newest entry of an entity is the last of its entries. */
  lemma {:induction false} NewestIsLast(log: seq<Entry>, k: Key, e: Entry)
    requires Ascending(log) && e in log && e.key == k
    ensures Newest(log, k).Some? && e.at <= Newest(log, k).value.at
  {
    var n := |log| - 1;
    if log[n].key != k {
      assert e in log[..n];
      NewestIsLast(log[..n], k, e);
    } else {
      var i :| 0 <= i < |log| && log[i] == e;
    }
  }

  lemma {:induction false} PastHas(log: seq<Entry>, cursor: nat, e: Entry)
    requires e in log && e.at > cursor
    ensures e in Past(log, cursor)
  {
    if e != log[|log| - 1] {
      assert e in log[..|log| - 1];
      PastHas(log[..|log| - 1], cursor, e);
    }
  }

  /** A page holds exactly the entries between the two cursors. */
  lemma TakenIsBetween(log: seq<Entry>, cursor: nat, limit: nat, e: Entry)
    requires Ascending(log) && e in log
    ensures cursor <= Cursor(Taken(log, cursor, limit), cursor)
    ensures e in Taken(log, cursor, limit) <==> cursor < e.at <= Cursor(Taken(log, cursor, limit), cursor)
  {
    var past, taken := Past(log, cursor), Taken(log, cursor, limit);
    PastIsAscending(log, cursor);
    if e.at > cursor {
      PastHas(log, cursor, e);
      var i :| 0 <= i < |past| && past[i] == e;
      assert i < |taken| ==> taken[i] == e;
    }
  }

  /** A compacted entry is the page's last about its entity. */
  lemma {:induction false} CompactedIsLast(entries: seq<Entry>, n: nat, e: Entry)
    requires n <= |entries| && e in Compacted(entries, n)
    ensures exists j | 0 <= j < n :: entries[j] == e && IsLast(entries, j)
  {
    if e in Compacted(entries, n - 1) { CompactedIsLast(entries, n - 1, e); }
  }

  /** And every entity of the page has one. */
  lemma {:induction false} CompactedHasLast(entries: seq<Entry>, n: nat, j: nat)
    requires j < n <= |entries| && IsLast(entries, j)
    ensures entries[j] in Compacted(entries, n)
  {
    if j < n - 1 { CompactedHasLast(entries, n - 1, j); }
  }

  lemma {:induction false} LastOf(entries: seq<Entry>, n: nat, k: Key) returns (j: nat)
    requires n <= |entries| && Mentions(entries[..n], k) && forall i | n <= i < |entries| :: entries[i].key != k
    ensures j < n && entries[j].key == k && IsLast(entries, j)
  {
    if entries[n - 1].key == k {
      j := n - 1;
    } else {
      assert forall e | e in entries[..n] :: e.key == k ==> e in entries[..n - 1];
      j := LastOf(entries, n - 1, k);
    }
  }

  lemma EarlierIsOlder(entries: seq<Entry>, i: nat, j: nat)
    requires Ascending(entries) && i < |entries| && j < |entries| && entries[j].at <= entries[i].at
    ensures j <= i
  {
  }

  /** With no entry past the page, an entity's newest entry is on it. */
  lemma NewestIsOnPage(log: seq<Entry>, cursor: nat, limit: nat, e: Entry)
    requires Ascending(log) && e in Taken(log, cursor, limit)
    requires !Behind(log, Cursor(Taken(log, cursor, limit), cursor), e.key)
    ensures var newest := Newest(log, e.key);
      newest.Some? && newest.value in Taken(log, cursor, limit) && e.at <= newest.value.at
    ensures Ascending(Taken(log, cursor, limit))
  {
    PastIsAscending(log, cursor);
    assert e in Past(log, cursor);
    NewestIsLast(log, e.key, e);
    TakenIsBetween(log, cursor, limit, e);
    TakenIsBetween(log, cursor, limit, Newest(log, e.key).value);
  }

  /** So an entity's compacted entry is its newest in the whole log. */
  lemma CompactedIsNewest(log: seq<Entry>, cursor: nat, limit: nat, e: Entry)
    requires Ascending(log)
    requires e in Compacted(Taken(log, cursor, limit), |Taken(log, cursor, limit)|)
    requires !Behind(log, Cursor(Taken(log, cursor, limit), cursor), e.key)
    ensures Newest(log, e.key) == Some(e)
  {
    hide Compacted, Taken, Behind, Cursor;
    var entries := Taken(log, cursor, limit);
    CompactedIsLast(entries, |entries|, e);
    var j :| 0 <= j < |entries| && entries[j] == e && IsLast(entries, j);
    NewestIsOnPage(log, cursor, limit, e);
    var i :| 0 <= i < |entries| && entries[i] == Newest(log, e.key).value;
    EarlierIsOlder(entries, i, j);
  }

  /** The states one page's reads meet, and one no earlier than any of them. */
  ghost predicate Meets(reg: Registry, met: seq<Db>, z: Db, f: Feed, ts: set<Table>, user: string) {
    && met != [] && Faithful(reg, met[0], f, ts)
    && (forall i | 0 <= i < |met| :: Onward(reg, met[0], met[i], f, ts, user) && Onward(reg, met[i], z, f, ts, user))
    && InOrder(z, f) && InOrder(met[0], f)
  }

  /** Between the first state and the last the log says nothing of the entity. */
  lemma SilentBetween(a: seq<Entry>, m: seq<Entry>, z: seq<Entry>, k: Key)
    requires a <= m <= z && !Mentions(z[|a|..], k)
    ensures !Mentions(m[|a|..], k) && !Mentions(z[|m|..], k)
  {
    forall e | e in m[|a|..] ensures e in z[|a|..] {
      var i :| 0 <= i < |m[|a|..]| && m[|a|..][i] == e;
      assert z[|a|..][i] == e;
    }
    forall e | e in z[|m|..] ensures e in z[|a|..] {
      var i :| 0 <= i < |z[|m|..]| && z[|m|..][i] == e;
      assert z[|a|..][i + |m| - |a|] == e;
    }
  }

  /** A silent entity looks in every state the page met as it does at the end. */
  lemma SilentLooksSame(reg: Registry, met: seq<Db>, z: Db, f: Feed, ts: set<Table>, user: string, k: Key, i: nat)
    requires Meets(reg, met, z, f, ts, user) && i < |met| && Pulled(reg, f, ts, k.table)
    requires !Mentions(LogOf(z, f)[|LogOf(met[0], f)|..], k)
    ensures View(reg, met[i].rows, f, k) == View(reg, met[0].rows, f, k) == View(reg, z.rows, f, k)
    ensures Sight(reg, z.rows, f, user, k).Some? ==> Shown(reg, met[i].rows, f, user, k)
  {
    SilentBetween(LogOf(met[0], f), LogOf(met[i], f), LogOf(z, f), k);
    UnspokenKeeps(reg, met[0], met[i], f, ts, user, k);
    UnspokenKeeps(reg, met[i], z, f, ts, user, k);
  }

  /** What one entry does to the rows. */
  lemma OneChange(reg: Registry, rows: map<Key, Image>, judged: Rows, read: Rows, f: Feed, user: string, e: Entry)
    ensures ApplyAll(rows, ChangeOf(reg, judged, read, f, user, e)) ==
      if e.deleted then rows - {e.key}
      else if Shown(reg, judged, f, user, e.key) && ImageOf(read, e.key).Some? then rows[e.key := ImageOf(read, e.key).value]
      else rows
  {
    hide Shown, ImageOf;
    var changes := ChangeOf(reg, judged, read, f, user, e);
    if changes != [] { assert changes[..0] == [] && ApplyAll(rows, changes) == Applied(rows, changes[0]); }
  }

  /** An entity's newest entry makes it right wherever nothing was said of it since. */
  lemma NewestMakesRight(reg: Registry, rows: map<Key, Image>, a: Db, judged: Rows, read: Rows, z: Db, f: Feed,
    ts: set<Table>, user: string, e: Entry)
    requires FaithfulAt(a, f, e.key) && Newest(LogOf(a, f), e.key) == Some(e) && Pulled(reg, f, ts, e.key.table)
    requires View(reg, read, f, e.key) == View(reg, a.rows, f, e.key) == View(reg, z.rows, f, e.key)
    requires Sight(reg, z.rows, f, user, e.key).Some? ==> Shown(reg, judged, f, user, e.key)
    ensures Right(reg, ApplyAll(rows, ChangeOf(reg, judged, read, f, user, e)), z, f, user, e.key)
  {
    hide Newest, Visible, ChangeOf;
    OneChange(reg, rows, judged, read, f, user, e);
    if Open(reg, f, e.key.table) {
      OpenIsShown(reg, judged, f, user, e.key);
      OpenIsShown(reg, z.rows, f, user, e.key);
    }
  }

  /** One compacted entry makes its entity right, when nothing newer is in the log. */
  lemma ChangeMakesRight(reg: Registry, rows: map<Key, Image>, met: seq<Db>, z: Db, f: Feed, ts: set<Table>, user: string, e: Entry, n: nat)
    requires Meets(reg, met, z, f, ts, user) && 0 < n && 2 * n < |met| && Pulled(reg, f, ts, e.key.table)
    requires !Mentions(LogOf(z, f)[|LogOf(met[0], f)|..], e.key)
    requires Newest(LogOf(met[0], f), e.key) == Some(e)
    ensures Right(reg, ApplyAll(rows, ChangeOf(reg, met[2 * n - 1].rows, met[2 * n].rows, f, user, e)), z, f, user, e.key)
  {
    hide Pulled, FaithfulAt, ChangeOf, Right, View, Sight, Shown;
    SilentLooksSame(reg, met, z, f, ts, user, e.key, 2 * n - 1);
    SilentLooksSame(reg, met, z, f, ts, user, e.key, 2 * n);
    FirstIsFaithful(reg, met, z, f, ts, user, e.key);
    NewestMakesRight(reg, rows, met[0], met[2 * n - 1].rows, met[2 * n].rows, z, f, ts, user, e);
  }

  lemma FirstIsFaithful(reg: Registry, met: seq<Db>, z: Db, f: Feed, ts: set<Table>, user: string, k: Key)
    requires Meets(reg, met, z, f, ts, user) && Pulled(reg, f, ts, k.table)
    ensures FaithfulAt(met[0], f, k)
  {
    hide FaithfulAt, Onward, InOrder;
  }

  /** Changes apply one after the other. */
  lemma {:induction false} ApplyInTurn(rows: map<Key, Image>, a: seq<Change>, b: seq<Change>)
    ensures ApplyAll(rows, a + b) == ApplyAll(ApplyAll(rows, a), b)
  {
    if b == [] {
      assert a + b == a;
    } else {
      ApplyInTurn(rows, a, b[..|b| - 1]);
      assert (a + b)[..|a + b| - 1] == a + b[..|b| - 1];
    }
  }

  /** An entry leaves every other entity alone. */
  lemma ChangeSparesOthers(reg: Registry, rows: map<Key, Image>, judged: Rows, read: Rows, f: Feed, user: string, e: Entry, k: Key)
    requires e.key != k
    ensures var after := ApplyAll(rows, ChangeOf(reg, judged, read, f, user, e));
      (k in after <==> k in rows) && (k in rows ==> after[k] == rows[k])
  {
    var changes := ChangeOf(reg, judged, read, f, user, e);
    if changes != [] {
      assert changes[..0] == [];
      assert ApplyAll(rows, changes) == Applied(rows, changes[0]);
    }
  }

  predicate Same(a: map<Key, Image>, b: map<Key, Image>, k: Key) {
    (k in a <==> k in b) && (k in a ==> a[k] == b[k])
  }

  /** The rows once the page's entry `i - 1` is applied. */
  function Turn(reg: Registry, met: seq<Db>, f: Feed, user: string, latest: seq<Entry>, i: nat, from: map<Key, Image>): map<Key, Image>
    requires 0 < i <= |latest| && 2 * |latest| < |met|
  {
    ApplyAll(from, ChangeOf(reg, met[2 * i - 1].rows, met[2 * i].rows, f, user, latest[i - 1]))
  }

  /** The changes for one page leave an entity none of them is about, and one of them about it decides what it is. */
  lemma {:induction false} ChangesDecide(
    reg: Registry, rows: map<Key, Image>, met: seq<Db>, f: Feed, user: string, latest: seq<Entry>, n: nat, k: Key,
    good: map<Key, Image> -> bool)
    requires n <= |latest| && 2 * |latest| < |met|
    requires forall i: nat, from: map<Key, Image> | 0 < i <= |latest| && latest[i - 1].key == k ::
      good(Turn(reg, met, f, user, latest, i, from))
    requires forall a: map<Key, Image>, b: map<Key, Image> | Same(a, b, k) :: good(b) ==> good(a)
    ensures var after := ApplyAll(rows, Resolved(reg, met, f, user, latest, n));
      if Mentions(latest[..n], k) then good(after) else Same(after, rows, k)
  {
    hide ChangeOf;
    if n > 0 {
      var e, before := latest[n - 1], Resolved(reg, met, f, user, latest, n - 1);
      var change := ChangeOf(reg, met[2 * n - 1].rows, met[2 * n].rows, f, user, e);
      ChangesDecide(reg, rows, met, f, user, latest, n - 1, k, good);
      ApplyInTurn(rows, before, change);
      assert latest[..n] == latest[..n - 1] + [e];
      if e.key == k {
        assert good(Turn(reg, met, f, user, latest, n, ApplyAll(rows, before)));
      } else {
        ChangeSparesOthers(reg, ApplyAll(rows, before), met[2 * n - 1].rows, met[2 * n].rows, f, user, e, k);
        assert Same(ApplyAll(ApplyAll(rows, before), change), ApplyAll(rows, before), k);
      }
    }
  }

  /** So a page makes every entity it lists right, and leaves every other as it was. */
  lemma ChangesMakeRight(reg: Registry, rows: map<Key, Image>, met: seq<Db>, z: Db, f: Feed, ts: set<Table>, user: string,
    latest: seq<Entry>, k: Key)
    requires Meets(reg, met, z, f, ts, user) && 2 * |latest| < |met| && Pulled(reg, f, ts, k.table)
    requires !Mentions(LogOf(z, f)[|LogOf(met[0], f)|..], k)
    requires forall e | e in latest && e.key == k :: Newest(LogOf(met[0], f), k) == Some(e)
    ensures var after := ApplyAll(rows, Resolved(reg, met, f, user, latest, |latest|));
      if Mentions(latest, k) then Right(reg, after, z, f, user, k) else Same(after, rows, k)
  {
    hide ChangeOf, Right, Sight, View;
    var good := (r: map<Key, Image>) => Right(reg, r, z, f, user, k);
    forall i: nat, from: map<Key, Image> | 0 < i <= |latest| && latest[i - 1].key == k
      ensures good(Turn(reg, met, f, user, latest, i, from))
    {
      ChangeMakesRight(reg, from, met, z, f, ts, user, latest[i - 1], i);
    }
    forall a: map<Key, Image>, b: map<Key, Image> | Same(a, b, k) ensures good(b) ==> good(a) {
      if good(b) { SameIsRight(reg, b, a, z, f, user, k); }
    }
    ChangesDecide(reg, rows, met, f, user, latest, |latest|, k, good);
    assert latest[..|latest|] == latest;
  }

  /** A page, its reads spread over any later states, keeps the replica converging. */
  lemma PageKeepsConverging(reg: Registry, r: Replica, met: seq<Db>, z: Db, f: Feed, ts: set<Table>, user: string, limit: nat)
    requires Meets(reg, met, z, f, ts, user) && |met| > 2 * limit
    requires Converging(reg, r, met[0], f, ts, user) && r.cursor <= met[0].head
    ensures Converging(reg, Receive(r, PageOf(reg, met, f, user, r.cursor, limit)), z, f, ts, user)
    ensures r.cursor <= PageOf(reg, met, f, user, r.cursor, limit).next <= met[0].head
  {
    var log, page := LogOf(met[0], f), PageOf(reg, met, f, user, r.cursor, limit);
    var entries := Taken(log, r.cursor, limit);
    var latest := Compacted(entries, |entries|);
    CompactedIsShort(entries, |entries|);
    assert Ascending(log);
    PastIsAscending(log, r.cursor);
    forall k: Key | Pulled(reg, f, ts, k.table) && !Behind(LogOf(z, f), page.next, k)
      ensures Right(reg, Receive(r, page).rows, z, f, user, k)
    {
      PageMakesRight(reg, r, met, z, f, ts, user, limit, k);
    }
  }

  /** An entity that is right stays right where the rows agree. */
  lemma SameIsRight(reg: Registry, a: map<Key, Image>, b: map<Key, Image>, db: Db, f: Feed, user: string, k: Key)
    requires Right(reg, a, db, f, user, k) && Same(b, a, k)
    ensures Right(reg, b, db, f, user, k)
  {
  }

  lemma PageMakesRight(reg: Registry, r: Replica, met: seq<Db>, z: Db, f: Feed, ts: set<Table>, user: string, limit: nat, k: Key)
    requires Meets(reg, met, z, f, ts, user) && |met| > 2 * limit
    requires UpToDate(reg, r, met[0], f, user, k) && r.cursor <= met[0].head && Pulled(reg, f, ts, k.table)
    requires !Behind(LogOf(z, f), PageOf(reg, met, f, user, r.cursor, limit).next, k)
    requires PageOf(reg, met, f, user, r.cursor, limit).next <= met[0].head
    ensures Right(reg, Receive(r, PageOf(reg, met, f, user, r.cursor, limit)).rows, z, f, user, k)
  {
    var log, head, page := LogOf(met[0], f), met[0].head, PageOf(reg, met, f, user, r.cursor, limit);
    var entries := Taken(log, r.cursor, limit);
    var latest := Compacted(entries, |entries|);
    CompactedIsShort(entries, |entries|);
    LogGrew(reg, met, z, f, ts, user);
    if Mentions(LogOf(z, f)[|log|..], k) { ExtensionIsPast(log, LogOf(z, f), head, page.next, k); }
    PrefixNotBehind(log, LogOf(z, f), page.next, k);
    forall e | e in latest && e.key == k ensures Newest(log, k) == Some(e) { CompactedIsNewest(log, r.cursor, limit, e); }
    ChangesMakeRight(reg, r.rows, met, z, f, ts, user, latest, k);
    if !Mentions(latest, k) {
      UnlistedIsNotBehind(log, r.cursor, limit, k);
      UntoldStaysRight(reg, r, met[0], z, f, ts, user, k);
      SameIsRight(reg, r.rows, Receive(r, page).rows, z, f, user, k);
    }
  }

  lemma LogGrew(reg: Registry, met: seq<Db>, z: Db, f: Feed, ts: set<Table>, user: string)
    requires Meets(reg, met, z, f, ts, user)
    ensures LogOf(met[0], f) <= LogOf(z, f) && Ascending(LogOf(met[0], f)) && Onward(reg, met[0], z, f, ts, user)
  {
  }

  /** An entity the page does not list had nothing to pull. */
  lemma UnlistedIsNotBehind(log: seq<Entry>, cursor: nat, limit: nat, k: Key)
    requires Ascending(log) && !Behind(log, Cursor(Taken(log, cursor, limit), cursor), k)
    requires !Mentions(Compacted(Taken(log, cursor, limit), |Taken(log, cursor, limit)|), k)
    ensures !Behind(log, cursor, k)
  {
    var entries := Taken(log, cursor, limit);
    if Mentions(entries, k) {
      assert entries[..|entries|] == entries;
      var j := LastOf(entries, |entries|, k);
      CompactedHasLast(entries, |entries|, j);
    }
    forall e | e in log && e.key == k ensures e.at <= cursor { TakenIsBetween(log, cursor, limit, e); }
  }

  // -------------------------------------------------------------------- draining

  /** Pulls until nothing is left, with nobody writing in between. */
  method Drain(reg: Registry, db: Db, f: Feed, ts: set<Table>, user: string, r: Replica, limit: nat) returns (done: Replica)
    requires limit > 0 && r.cursor <= db.head
    requires Faithful(reg, db, f, ts) && InOrder(db, f) && Converging(reg, r, db, f, ts, user)
    ensures forall k: Key | Pulled(reg, f, ts, k.table) :: Right(reg, done.rows, db, f, user, k)
    ensures forall e | e in LogOf(db, f) :: e.at <= done.cursor
  {
    var met := seq(2 * limit + 1, i => db);
    OnwardInPlace(reg, db, f, ts, user);
    done := r;
    var more := true;
    while more
      invariant Converging(reg, done, db, f, ts, user) && done.cursor <= db.head
      invariant !more ==> Past(LogOf(db, f), done.cursor) == []
      decreases |Past(LogOf(db, f), done.cursor)|, more
    {
      PageKeepsConverging(reg, done, met, db, f, ts, user, limit);
      PageAdvances(LogOf(db, f), done.cursor, limit);
      var page := PullPage(reg, met, f, user, done.cursor, limit);
      done := Receive(done, page);
      more := page.more;
    }
    forall e | e in LogOf(db, f) ensures e.at <= done.cursor {
      if e.at > done.cursor { PastHas(LogOf(db, f), done.cursor, e); }
    }
  }

  lemma OnwardInPlace(reg: Registry, db: Db, f: Feed, ts: set<Table>, user: string)
    ensures Onward(reg, db, db, f, ts, user)
  {
  }

  /** A page leaves fewer entries to pull, and none when it says there are no more. */
  lemma PageAdvances(log: seq<Entry>, cursor: nat, limit: nat)
    requires Ascending(log) && limit > 0
    ensures var next := Cursor(Taken(log, cursor, limit), cursor);
      if |Past(log, cursor)| > limit then |Past(log, next)| < |Past(log, cursor)| else Past(log, next) == []
  {
    var past, next := Past(log, cursor), Cursor(Taken(log, cursor, limit), cursor);
    PastIsAscending(log, cursor);
    if past != [] {
      var n := if |past| > limit then limit else |past|;
      assert next == past[n - 1].at;
      PastOfPast(log, cursor, next);
      PastSplits(past, n);
    }
  }

  lemma {:induction false} PastOfPast(log: seq<Entry>, cursor: nat, next: nat)
    requires cursor <= next
    ensures Past(log, next) == Past(Past(log, cursor), next)
  {
    if log != [] {
      var front, last := log[..|log| - 1], log[|log| - 1];
      PastOfPast(front, cursor, next);
      if last.at > cursor { PastExtends(Past(front, cursor), last, next); }
      assert last.at <= cursor ==> Past(log, cursor) == Past(front, cursor);
    }
  }

  lemma PastExtends(log: seq<Entry>, e: Entry, cursor: nat)
    ensures Past(log + [e], cursor) == Past(log, cursor) + if e.at > cursor then [e] else []
  {
    assert (log + [e])[..|log + [e]| - 1] == log;
  }

  /** Past the `n`-th of an ascending list are the ones after it. */
  lemma {:induction false} PastSplits(past: seq<Entry>, n: nat)
    requires Ascending(past) && 0 < n <= |past|
    ensures Past(past, past[n - 1].at) == past[n..]
  {
    if n == |past| {
      PastIsEmpty(past, past[n - 1].at);
    } else {
      PastSplits(past[..|past| - 1], n);
      assert past[..|past| - 1][n..] + [past[|past| - 1]] == past[n..];
    }
  }

  lemma {:induction false} PastIsEmpty(log: seq<Entry>, cursor: nat)
    requires forall e | e in log :: e.at <= cursor
    ensures Past(log, cursor) == []
  {
    if log != [] { PastIsEmpty(log[..|log| - 1], cursor); }
  }
}
