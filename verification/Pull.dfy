// The pull both partitions serve (internal/store/pull.go): a page of log
// entries, compacted per entity and resolved to snapshots read after it. A
// replica that applies pages converges, whatever is pushed in between.
module Pull {
  import opened Values
  import opened Registry
  import opened Database
  import opened Restoring
  import opened Feeds

  datatype Change = Change(at: nat, key: Key, deleted: bool, row: Option<Image>)

  datatype Page = Page(changes: seq<Change>, next: nat, more: bool)

  // ------------------------------------------------------------------- the page

  /** `WHERE seq > ? ORDER BY seq`. */
  function Past(log: seq<Entry>, cursor: nat): seq<Entry> {
    if log == [] then []
    else Past(log[..|log| - 1], cursor) + (if log[|log| - 1].at > cursor then [log[|log| - 1]] else [])
  }

  function Taken(log: seq<Entry>, cursor: nat, limit: nat): seq<Entry> {
    var past := Past(log, cursor);
    if |past| > limit then past[..limit] else past
  }

  /** No later entry of the page is about the same entity. */
  predicate IsLast(entries: seq<Entry>, i: nat)
    requires i < |entries|
  {
    forall j | i < j < |entries| :: entries[j].key != entries[i].key
  }

  /** The latest entry per entity among the first `n`, in order. */
  function Compacted(entries: seq<Entry>, n: nat): seq<Entry>
    requires n <= |entries|
  {
    if n == 0 then []
    else Compacted(entries, n - 1) + (if IsLast(entries, n - 1) then [entries[n - 1]] else [])
  }

  /** Whether a live entry is shown: everything in a trip's feed, what the user may see in the master's. */
  predicate Shown(reg: Registry, rows: Rows, f: Feed, user: string, k: Key) {
    f.TripFeed? || Visible(reg, rows, user, k)
  }

  function ImageOf(rows: Rows, k: Key): Option<Image> {
    if k in rows then Some(Image(rows[k].fields, rows[k].hlc)) else None
  }

  /** What becomes of one compacted entry: a tombstone, a snapshot, or nothing the puller may see. */
  function ChangeOf(reg: Registry, judged: Rows, read: Rows, f: Feed, user: string, e: Entry): seq<Change> {
    if e.deleted then [Change(e.at, e.key, true, None)]
    else if !Shown(reg, judged, f, user, e.key) then []
    else [Change(e.at, e.key, false, ImageOf(read, e.key))]
  }

  /** The changes for the first `n` compacted entries; entry `i` is judged in `met[2 * i + 1]` and read in the next. */
  function Resolved(reg: Registry, met: seq<Db>, f: Feed, user: string, entries: seq<Entry>, n: nat): seq<Change>
    requires n <= |entries| && |met| > 2 * n
  {
    if n == 0 then []
    else
      Resolved(reg, met, f, user, entries, n - 1) +
      ChangeOf(reg, met[2 * n - 1].rows, met[2 * n].rows, f, user, entries[n - 1])
  }

  function Cursor(entries: seq<Entry>, cursor: nat): nat {
    if entries == [] then cursor else entries[|entries| - 1].at
  }

  /** One page: entries from the first state read, the rest from the states the met met. */
  function PageOf(reg: Registry, met: seq<Db>, f: Feed, user: string, cursor: nat, limit: nat): Page
    requires |met| > 2 * limit
  {
    var log := LogOf(met[0], f);
    var entries := Taken(log, cursor, limit);
    var latest := Compacted(entries, |entries|);
    CompactedIsShort(entries, |entries|);
    Page(Resolved(reg, met, f, user, latest, |latest|), Cursor(entries, cursor), |Past(log, cursor)| > limit)
  }

  lemma {:induction false} CompactedIsShort(entries: seq<Entry>, n: nat)
    requires n <= |entries|
    ensures |Compacted(entries, n)| <= n
  {
    if n > 0 { CompactedIsShort(entries, n - 1); }
  }

  lemma {:induction false} PastIsAscending(log: seq<Entry>, cursor: nat)
    requires Ascending(log)
    ensures Ascending(Past(log, cursor))
    ensures forall e | e in Past(log, cursor) :: e in log && e.at > cursor
  {
    if log != [] {
      var front, last := log[..|log| - 1], log[|log| - 1];
      PastIsAscending(front, cursor);
      forall e | e in Past(front, cursor) ensures e in log && e.at < last.at {
        var i :| 0 <= i < |front| && front[i] == e;
        assert log[i] == e;
      }
    }
  }

  /** Sequence numbers grow along the log. */
  predicate Ascending(log: seq<Entry>) {
    forall i, j | 0 <= i < j < |log| :: log[i].at < log[j].at
  }

  /** The position of the last of the first `n` entries about each entity. */
  predicate Latest(latest: map<Key, nat>, entries: seq<Entry>, n: nat)
    requires n <= |entries|
  {
    && (forall j | 0 <= j < n :: entries[j].key in latest && entries[j].at <= latest[entries[j].key])
    && (forall k | k in latest :: exists j | 0 <= j < n :: entries[j].key == k && entries[j].at == latest[k])
  }

  lemma LatestGrows(latest: map<Key, nat>, entries: seq<Entry>, n: nat)
    requires Ascending(entries) && n < |entries| && Latest(latest, entries, n)
    ensures Latest(latest[entries[n].key := entries[n].at], entries, n + 1)
  {
  }

  /** An entry is its entity's last when its position is the latest. */
  lemma LatestIsLast(latest: map<Key, nat>, entries: seq<Entry>, i: nat)
    requires Ascending(entries) && i < |entries| && Latest(latest, entries, |entries|)
    ensures entries[i].key in latest
    ensures latest[entries[i].key] == entries[i].at <==> IsLast(entries, i)
  {
    var j :| 0 <= j < |entries| && entries[j].key == entries[i].key && entries[j].at == latest[entries[i].key];
    if j <= i { assert forall n | i < n < |entries| :: entries[n].at > entries[i].at; }
  }

  /** `compact`: one pass for the last position of each entity, one to keep those. */
  method Compact(entries: seq<Entry>) returns (out: seq<Entry>)
    requires Ascending(entries)
    ensures out == Compacted(entries, |entries|)
  {
    hide Ascending, IsLast;
    var latest: map<Key, nat> := map[];
    for i := 0 to |entries|
      invariant Latest(latest, entries, i)
    {
      LatestGrows(latest, entries, i);
      latest := latest[entries[i].key := entries[i].at];
    }
    out := [];
    for i := 0 to |entries|
      invariant out == Compacted(entries, i)
    {
      LatestIsLast(latest, entries, i);
      if latest[entries[i].key] == entries[i].at { out := out + [entries[i]]; }
    }
  }

  /** The listed entities, one read each. */
  method Resolve(reg: Registry, met: seq<Db>, f: Feed, user: string, latest: seq<Entry>) returns (changes: seq<Change>)
    requires |met| > 2 * |latest|
    ensures changes == Resolved(reg, met, f, user, latest, |latest|)
  {
    changes := [];
    var i := 0;
    while i < |latest|
      invariant i <= |latest|
      invariant changes == Resolved(reg, met, f, user, latest, i)
    {
      var e := latest[i];
      i := i + 1;
      if e.deleted {
        changes := changes + [Change(e.at, e.key, true, None)];
      } else if Shown(reg, met[2 * i - 1].rows, f, user, e.key) {
        changes := changes + [Change(e.at, e.key, false, ImageOf(met[2 * i].rows, e.key))];
      }
    }
  }

  /** Reading one entry more than the page holds tells whether more are left. */
  lemma OneMore(log: seq<Entry>, cursor: nat, limit: nat, read: seq<Entry>)
    requires read == if |Past(log, cursor)| > limit + 1 then Past(log, cursor)[..limit + 1] else Past(log, cursor)
    ensures |read| > limit <==> |Past(log, cursor)| > limit
    ensures Taken(log, cursor, limit) == if |read| > limit then read[..limit] else read
  {
    hide Past;
  }

  /** The page as it is built: the entries first, then one read per listed entity, each in its own transaction. */
  method PullPage(reg: Registry, met: seq<Db>, f: Feed, user: string, cursor: nat, limit: nat) returns (page: Page)
    requires |met| > 2 * limit && Ascending(LogOf(met[0], f))
    ensures page == PageOf(reg, met, f, user, cursor, limit)
  {
    hide Past, Taken, Compacted, Resolved, Ascending;
    var past := Past(LogOf(met[0], f), cursor);
    var entries := if |past| > limit + 1 then past[..limit + 1] else past;
    OneMore(LogOf(met[0], f), cursor, limit, entries);
    TakenIsAscending(LogOf(met[0], f), cursor, limit);
    var more := |entries| > limit;
    if more { entries := entries[..limit]; }
    var next := cursor;
    if |entries| > 0 { next := entries[|entries| - 1].at; }
    var latest := Compact(entries);
    CompactedIsShort(entries, |entries|);
    var changes := Resolve(reg, met, f, user, latest);
    page := Page(changes, next, more);
  }

  lemma TakenIsAscending(log: seq<Entry>, cursor: nat, limit: nat)
    requires Ascending(log)
    ensures Ascending(Taken(log, cursor, limit)) && |Taken(log, cursor, limit)| <= limit
  {
    PastIsAscending(log, cursor);
  }
}
