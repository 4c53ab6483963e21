// A device that pulls a feed again and again while others write: each read of
// each pull falls at its own moment (internal/store/pull.go).
module Devices {
  import opened Vocabulary
  import opened Registry
  import opened Database
  import opened Feeds
  import opened Pull
  import opened Convergence
  import opened Granting

  /** At moment `n` the feed is faithful and in order, and it is onward to the next one before `j`. */
  ghost predicate FlowsAt(reg: Registry, dbs: seq<Db>, f: Feed, ts: set<Table>, user: string, n: nat, j: nat)
    requires n <= j < |dbs|
  {
    Faithful(reg, dbs[n], f, ts) && InOrder(dbs[n], f) && (n < j ==> Onward(reg, dbs[n], dbs[n + 1], f, ts, user))
  }

  ghost predicate Flows(reg: Registry, dbs: seq<Db>, f: Feed, ts: set<Table>, user: string, i: nat, j: nat) {
    i <= j < |dbs| && forall n | i <= n <= j :: FlowsAt(reg, dbs, f, ts, user, n, j)
  }

  /** One pull: when each of its reads falls, and its page size. */
  datatype Pulling = Pulling(times: seq<nat>, limit: nat)

  /** Reads fall one after the other, the first no earlier than `from`, the last no later than `to`. */
  predicate Between(p: Pulling, from: nat, to: nat) {
    && |p.times| > 2 * p.limit && from <= p.times[0] && p.times[|p.times| - 1] <= to
    && forall i, j | 0 <= i <= j < |p.times| :: p.times[i] <= p.times[j]
  }

  /** The pulls come one after the other, from `from` to `to`. */
  predicate Scheduled(pulls: seq<Pulling>, from: nat, to: nat) {
    if pulls == [] then from <= to
    else
      var last := pulls[|pulls| - 1];
      |last.times| > 2 * last.limit && Between(last, last.times[0], to) && Scheduled(pulls[..|pulls| - 1], from, last.times[0])
  }

  /** Every read of every pull falls within `n` moments. */
  predicate InTime(pulls: seq<Pulling>, n: int) {
    forall p | p in pulls :: |p.times| > 2 * p.limit && forall i | 0 <= i < |p.times| :: p.times[i] < n
  }

  function Met(dbs: seq<Db>, times: seq<nat>): seq<Db>
    requires forall i | 0 <= i < |times| :: times[i] < |dbs|
  {
    seq(|times|, i requires 0 <= i < |times| => dbs[times[i]])
  }

  /** A device that started empty and made these pulls. */
  function Device(reg: Registry, dbs: seq<Db>, f: Feed, user: string, pulls: seq<Pulling>): Replica
    requires InTime(pulls, |dbs|)
  {
    if pulls == [] then Replica(0, map[])
    else
      var last, before := pulls[|pulls| - 1], Device(reg, dbs, f, user, pulls[..|pulls| - 1]);
      Receive(before, PageOf(reg, Met(dbs, last.times), f, user, before.cursor, last.limit))
  }

  lemma {:induction false} ScheduledInOrder(pulls: seq<Pulling>, from: nat, to: nat)
    requires Scheduled(pulls, from, to)
    ensures from <= to
  {
    if pulls != [] {
      var last := pulls[|pulls| - 1];
      ScheduledInOrder(pulls[..|pulls| - 1], from, last.times[0]);
    }
  }

  /** A device that pulled nothing is right about every entity the log has nothing of. */
  lemma EmptyConverges(reg: Registry, db: Db, f: Feed, ts: set<Table>, user: string)
    requires Faithful(reg, db, f, ts) && InOrder(db, f)
    ensures Converging(reg, Replica(0, map[]), db, f, ts, user)
  {
    forall k: Key | Pulled(reg, f, ts, k.table) && !Behind(LogOf(db, f), 0, k) ensures Right(reg, map[], db, f, user, k) {
      assert FaithfulAt(db, f, k);
    }
  }

  /** From one moment to any later one. */
  lemma FlowIsOnward(reg: Registry, dbs: seq<Db>, f: Feed, ts: set<Table>, user: string, from: nat, to: nat, i: nat, j: nat)
    requires Flows(reg, dbs, f, ts, user, from, to) && from <= i <= j <= to
    ensures Onward(reg, dbs[i], dbs[j], f, ts, user)
  {
    forall n | i <= n < j ensures Onward(reg, dbs[n], dbs[n + 1], f, ts, user) {
      assert FlowsAt(reg, dbs, f, ts, user, n, to);
    }
    OnwardThroughout(reg, dbs, f, ts, user, i, j);
  }

  lemma FlowEndsEarlier(reg: Registry, dbs: seq<Db>, f: Feed, ts: set<Table>, user: string, from: nat, to: nat, j: nat)
    requires Flows(reg, dbs, f, ts, user, from, to) && from <= j <= to
    ensures Flows(reg, dbs, f, ts, user, from, j)
  {
    forall n | from <= n <= j ensures FlowsAt(reg, dbs, f, ts, user, n, j) {
      assert FlowsAt(reg, dbs, f, ts, user, n, to);
    }
  }

  /** The states a pull meets are those its page needs. */
  lemma PullingMeets(reg: Registry, dbs: seq<Db>, f: Feed, ts: set<Table>, user: string, p: Pulling, from: nat, t: nat)
    requires Flows(reg, dbs, f, ts, user, from, t) && Between(p, from, t) && forall i | 0 <= i < |p.times| :: p.times[i] < |dbs|
    ensures Meets(reg, Met(dbs, p.times), dbs[t], f, ts, user)
    ensures dbs[p.times[0]].head <= dbs[t].head
  {
    assert FlowsAt(reg, dbs, f, ts, user, t, t) && FlowsAt(reg, dbs, f, ts, user, p.times[0], t);
    forall i | 0 <= i < |p.times|
      ensures Onward(reg, dbs[p.times[0]], dbs[p.times[i]], f, ts, user) && Onward(reg, dbs[p.times[i]], dbs[t], f, ts, user)
    {
      assert p.times[i] <= p.times[|p.times| - 1];
      FlowIsOnward(reg, dbs, f, ts, user, from, t, p.times[0], p.times[i]);
      FlowIsOnward(reg, dbs, f, ts, user, from, t, p.times[i], t);
    }
  }

  /** Whatever is written in between, and between the reads of one page, the device converges. */
  lemma {:induction false} DeviceConverges(
    reg: Registry, dbs: seq<Db>, f: Feed, ts: set<Table>, user: string, pulls: seq<Pulling>, from: nat, t: nat)
    requires Flows(reg, dbs, f, ts, user, from, t) && Scheduled(pulls, from, t) && InTime(pulls, |dbs|)
    ensures Converging(reg, Device(reg, dbs, f, user, pulls), dbs[t], f, ts, user)
    ensures Device(reg, dbs, f, user, pulls).cursor <= dbs[t].head
  {
    assert FlowsAt(reg, dbs, f, ts, user, t, t);
    if pulls == [] {
      EmptyConverges(reg, dbs[t], f, ts, user);
    } else {
      var last, front := pulls[|pulls| - 1], pulls[..|pulls| - 1];
      var start := last.times[0];
      ScheduledInOrder(front, from, start);
      FlowEndsEarlier(reg, dbs, f, ts, user, from, t, start);
      DeviceConverges(reg, dbs, f, ts, user, front, from, start);
      PullingMeets(reg, dbs, f, ts, user, last, from, t);
      PageKeepsConverging(reg, Device(reg, dbs, f, user, front), Met(dbs, last.times), dbs[t], f, ts, user, last.limit);
    }
  }

  /** The page the device pulled last. */
  function LastPage(reg: Registry, dbs: seq<Db>, f: Feed, user: string, pulls: seq<Pulling>): Page
    requires pulls != [] && InTime(pulls, |dbs|)
  {
    var last := pulls[|pulls| - 1];
    PageOf(reg, Met(dbs, last.times), f, user, Device(reg, dbs, f, user, pulls[..|pulls| - 1]).cursor, last.limit)
  }

  /** A page that says no more leaves no entry past it. */
  lemma NoMoreIsAll(log: seq<Entry>, cursor: nat, limit: nat, k: Key)
    requires Ascending(log) && |Past(log, cursor)| <= limit
    ensures !Behind(log, Cursor(Taken(log, cursor, limit), cursor), k)
  {
    hide Ascending, Past;
    var next := Cursor(Taken(log, cursor, limit), cursor);
    if limit > 0 { PageAdvances(log, cursor, limit); }
    forall e | e in log ensures e.at <= next {
      if e.at > next { PastHas(log, next, e); }
    }
  }

  /** A device whose last page said no more, with nothing added since, has every entity right. */
  lemma DrainedIsRight(reg: Registry, dbs: seq<Db>, f: Feed, ts: set<Table>, user: string, pulls: seq<Pulling>, from: nat, t: nat, k: Key)
    requires Flows(reg, dbs, f, ts, user, from, t) && Scheduled(pulls, from, t) && InTime(pulls, |dbs|)
    requires pulls != [] && !LastPage(reg, dbs, f, user, pulls).more
    requires LogOf(dbs[t], f) == LogOf(dbs[pulls[|pulls| - 1].times[0]], f)
    requires Pulled(reg, f, ts, k.table)
    ensures Right(reg, Device(reg, dbs, f, user, pulls).rows, dbs[t], f, user, k)
  {
    hide Flows, Right, Taken, Ascending;
    FlowIsOrdered(reg, dbs, f, ts, user, from, t);
    DeviceConverges(reg, dbs, f, ts, user, pulls, from, t);
    var last, before := pulls[|pulls| - 1], Device(reg, dbs, f, user, pulls[..|pulls| - 1]);
    assert Met(dbs, last.times)[0] == dbs[last.times[0]];
    NoMoreIsAll(LogOf(dbs[t], f), before.cursor, last.limit, k);
  }

  lemma FlowIsOrdered(reg: Registry, dbs: seq<Db>, f: Feed, ts: set<Table>, user: string, from: nat, t: nat)
    requires Flows(reg, dbs, f, ts, user, from, t)
    ensures t < |dbs| && Ascending(LogOf(dbs[t], f))
  {
    assert FlowsAt(reg, dbs, f, ts, user, t, t);
  }
}
