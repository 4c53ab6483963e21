// The child queries of the registry against the foreign keys the database
// acts on: what a delete names is what a delete takes
// (internal/store/master.go, cascadeChildren; internal/store/tables_registry.go).
module Cascading {
  import opened Values
  import opened Vocabulary
  import opened Merging
  import opened Registry
  import opened Database
  import opened Guards
  import opened Pipeline
  import opened Steps

  /** The rows a delete of `k` names. */
  function Named(reg: Registry, rows: Rows, k: Key): set<Key> {
    set q, j | q in reg.children(k.table) && j in ChildrenOf(rows, q, k.id) :: j
  }

  predicate Direct(reg: Registry, parent: Table, child: Table, c: Column) {
    exists q | q in reg.children(parent) :: q.table == child && c in q.direct
  }

  predicate Through(reg: Registry, parent: Table, child: Table, h: Hop) {
    exists q | q in reg.children(parent) :: q.table == child && h in q.via
  }

  /** Every query follows cascading links, and stays on its parent's feed. */
  ghost predicate Honest(reg: Registry) {
    forall t, q | q in reg.children(t) ::
      && reg.side(q.table) == reg.side(t)
      && (forall c | c in q.direct :: reg.Cascades(q.table, c, t))
      && (forall h | h in q.via :: reg.Cascades(q.table, h.column, h.through) && reg.Cascades(h.through, h.link, t))
  }

  /** On the master feed every cascading link is a query, two levels down, and no third exists. */
  ghost predicate MasterComplete(reg: Registry) {
    && (forall t, c, p :: reg.Cascades(t, c, p) && reg.side(t) == OnMaster ==> reg.side(p) == OnMaster && Direct(reg, p, t, c))
    && (forall t, c, p, u, d :: reg.Cascades(t, c, p) && reg.Cascades(u, d, t) && reg.side(u) == OnMaster ==>
         Through(reg, p, u, Hop(d, t, c)))
    && (forall t, c, p, u, d, v, e :: reg.side(v) == OnMaster && reg.Cascades(t, c, p) && reg.Cascades(u, d, t) ==>
         !reg.Cascades(v, e, u))
  }

  /** A confined table hangs off its trip and off guarded parents that hang off nothing else. */
  ghost predicate TripComplete(reg: Registry) {
    && (forall t, c, p :: reg.side(t) == OnTrip && reg.Cascades(t, c, p) && reg.side(p) == OnMaster ==> p.Trips? && c.TripId?)
    && (forall c, p :: !reg.Cascades(Trips, c, p)) && (forall c, p :: reg.Cascades(TripItems, c, p) ==> p.Trips?)
    && (forall t | Confined(t) :: reg.side(t) == OnTrip && forall c, p :: reg.Cascades(t, c, p) && !p.Trips? ==>
         && Confined(p) && Direct(reg, p, t, c) && KeepsInTrip(reg.guard(t), c, p)
         && c in reg.columns(t) && !c.TripId? && Get(reg.defaults(t), c) == Null
         && (forall d, q :: reg.Cascades(p, d, q) ==> q.Trips?))
  }

  ghost predicate Declared(reg: Registry) {
    Honest(reg) && MasterComplete(reg) && TripComplete(reg)
  }

  /** A confined row and the trip rows it hangs off are of one trip. */
  predicate InTrip(reg: Registry, rows: Rows, j: Key) {
    forall c | c in reg.columns(j.table) ::
      var t := TargetOf(reg, rows, j, c);
      t.Some? && !t.value.table.Trips? && reg.Cascades(j.table, c, t.value.table) ==>
        t.value in rows && TripOf(rows, t.value) == TripOf(rows, j)
  }

  ghost predicate AllInTrip(reg: Registry, rows: Rows) {
    forall j {:trigger InTrip(reg, rows, j)} | j in rows && Confined(j.table) :: InTrip(reg, rows, j)
  }

  lemma InNamed(reg: Registry, rows: Rows, k: Key, q: ChildQuery, j: Key)
    requires q in reg.children(k.table) && IsChild(rows, q, k.id, j)
    ensures j in Named(reg, rows, k)
  {
    assert j in ChildrenOf(rows, q, k.id);
  }

  /** What `Hangs` found. */
  lemma HangsBy(reg: Registry, rows: Rows, j: Key, s: set<Key>) returns (c: Column, x: Key)
    requires Hangs(reg, rows, j, s)
    ensures c in rows[j].fields && TargetOf(reg, rows, j, c) == Some(x) && x in s && reg.Cascades(j.table, c, x.table)
  {
    c :| c in rows[j].fields && TargetOf(reg, rows, j, c).Some? && TargetOf(reg, rows, j, c).value in s &&
      reg.link(j.table, c).value.onDelete == Cascade;
    x := TargetOf(reg, rows, j, c).value;
  }

  lemma NamedDirectly(reg: Registry, rows: Rows, k: Key, j: Key, c: Column)
    requires Direct(reg, k.table, j.table, c) && TargetOf(reg, rows, j, c) == Some(k)
    ensures j in Named(reg, rows, k)
  {
    var q :| q in reg.children(k.table) && q.table == j.table && c in q.direct;
    InNamed(reg, rows, k, q, j);
  }

  /** Why a row is named: its own link, or its link to a row whose link it is. */
  lemma NamedBy(reg: Registry, rows: Rows, k: Key, x: Key) returns (c: Column, middle: Table, d: Column)
    requires Honest(reg) && x in Named(reg, rows, k)
    ensures reg.side(x.table) == reg.side(k.table)
    ensures (TargetOf(reg, rows, x, c) == Some(k) && reg.Cascades(x.table, c, k.table)) ||
      (ViaHop(rows, x, Hop(c, middle, d), k.id) && reg.Cascades(x.table, c, middle) && reg.Cascades(middle, d, k.table))
  {
    var q :| q in reg.children(k.table) && x in ChildrenOf(rows, q, k.id);
    if e :| e in q.direct && Cell(rows, x, e) == Text(k.id) {
      c, middle, d := e, k.table, e;
    } else {
      var h :| h in q.via && ViaHop(rows, x, h, k.id);
      c, middle, d := h.column, h.through, h.link;
    }
  }

  /** On the master feed, whatever hangs off a named row is named. */
  lemma MasterHangs(reg: Registry, rows: Rows, k: Key, j: Key, x: Key, c: Column)
    requires Declared(reg) && reg.side(j.table) == OnMaster
    requires TargetOf(reg, rows, j, c) == Some(x) && reg.Cascades(j.table, c, x.table)
    requires x == k || x in Named(reg, rows, k)
    ensures j in Named(reg, rows, k)
  {
    if x == k {
      NamedDirectly(reg, rows, k, j, c);
    } else {
      var d, _, _ := NamedBy(reg, rows, k, x);
      var h := Hop(c, x.table, d);
      if TargetOf(reg, rows, x, d) == Some(k) && reg.Cascades(x.table, d, k.table) {
        assert Through(reg, k.table, j.table, h);
        var r :| r in reg.children(k.table) && r.table == j.table && h in r.via;
        assert ViaHop(rows, j, h, k.id);
        InNamed(reg, rows, k, r, j);
      }
    }
  }

  /** A row hanging off the trip alone is named by no trip row's delete. */
  lemma RootIsUnnamed(reg: Registry, rows: Rows, k: Key, x: Key)
    requires Declared(reg) && Founded(reg) && (reg.side(x.table) == OnTrip || x.table.Trips?)
    requires forall d, q :: reg.Cascades(x.table, d, q) ==> q.Trips?
    ensures x !in Named(reg, rows, k)
  {
    if x in Named(reg, rows, k) {
      var _, _, _ := NamedBy(reg, rows, k, x);
    }
  }

  /** What a delete of `k` may take: what it names, its trip's rows, and rows of unconfined tables. */
  function Reach(reg: Registry, rows: Rows, k: Key): set<Key> {
    {k} + Named(reg, rows, k) +
    (set j | j in rows && reg.side(j.table) == OnTrip && !Confined(j.table)) +
    (set j | j in rows && reg.side(j.table) == OnTrip && k.table.Trips? && TripOf(rows, j) == Text(k.id))
  }

  lemma ReachIsClosed(reg: Registry, rows: Rows, k: Key, j: Key)
    requires Declared(reg) && Founded(reg) && SchemaOk(reg, rows) && AllInTrip(reg, rows)
    requires j in rows && Hangs(reg, rows, j, Reach(reg, rows, k))
    ensures j in Reach(reg, rows, k)
  {
    var c, x := HangsBy(reg, rows, j, Reach(reg, rows, k));
    if reg.side(j.table) == OnMaster {
      MasterReached(reg, rows, k, j, x, c);
    } else if Confined(j.table) {
      if x.table.Trips? {
        TripReached(reg, rows, k, j, x, c);
      } else {
        ConfinedHangs(reg, rows, k, j, x, c);
      }
    }
  }

  lemma MasterReached(reg: Registry, rows: Rows, k: Key, j: Key, x: Key, c: Column)
    requires Declared(reg) && j in rows && reg.side(j.table) == OnMaster && x in Reach(reg, rows, k)
    requires TargetOf(reg, rows, j, c) == Some(x) && reg.Cascades(j.table, c, x.table)
    ensures j in Reach(reg, rows, k)
  {
    hide Honest, TripComplete, Named;
    assert reg.side(x.table) == OnMaster;
    MasterHangs(reg, rows, k, j, x, c);
  }

  lemma TripReached(reg: Registry, rows: Rows, k: Key, j: Key, x: Key, c: Column)
    requires Declared(reg) && Founded(reg) && j in rows && reg.side(j.table) == OnTrip && x.table.Trips? && x in Reach(reg, rows, k)
    requires TargetOf(reg, rows, j, c) == Some(x) && reg.Cascades(j.table, c, Trips)
    ensures j in Reach(reg, rows, k)
  {
    hide SchemaOk, Honest, MasterComplete, Named;
    assert reg.side(Trips) == OnMaster && c.TripId?;
    RootIsUnnamed(reg, rows, k, x);
  }

  lemma ConfinedHangs(reg: Registry, rows: Rows, k: Key, j: Key, x: Key, c: Column)
    requires Declared(reg) && Founded(reg) && SchemaOk(reg, rows) && AllInTrip(reg, rows)
    requires j in rows && Confined(j.table) && !x.table.Trips? && x in Reach(reg, rows, k)
    requires TargetOf(reg, rows, j, c) == Some(x) && reg.Cascades(j.table, c, x.table)
    ensures j in Reach(reg, rows, k)
  {
    hide SchemaOk, Honest, MasterComplete, Founded, Hangs, Named;
    assert InTrip(reg, rows, j);
    assert Confined(x.table) && Direct(reg, x.table, j.table, c);
    if x == k {
      NamedDirectly(reg, rows, k, j, c);
    } else {
      RootIsUnnamed(reg, rows, k, x);
    }
  }

  /** A delete takes no row of the master feed, and none of a confined table, beyond what it names and its trip's own. */
  lemma DoomIsReached(reg: Registry, rows: Rows, k: Key)
    requires Declared(reg) && Founded(reg) && SchemaOk(reg, rows) && AllInTrip(reg, rows)
    ensures Doomed(reg, rows, {k}) <= Reach(reg, rows, k)
  {
    forall j | j in rows && Hangs(reg, rows, j, Reach(reg, rows, k)) ensures j in Reach(reg, rows, k) {
      ReachIsClosed(reg, rows, k, j);
    }
    DoomedIsLeast(reg, rows, {k}, Reach(reg, rows, k));
  }

  /** Whatever a delete names it takes. */
  lemma NamedIsDoomed(reg: Registry, rows: Rows, k: Key, j: Key)
    requires Honest(reg) && k in rows && j in Named(reg, rows, k)
    ensures j in Doomed(reg, rows, {k})
  {
    var doomed := Doomed(reg, rows, {k});
    DoomedIsClosed(reg, rows, {k});
    var c, middle, d := NamedBy(reg, rows, k, j);
    if TargetOf(reg, rows, j, c) == Some(k) && reg.Cascades(j.table, c, k.table) {
      LinkDooms(reg, rows, j, c, doomed);
    } else {
      LinkDooms(reg, rows, Key(middle, Cell(rows, j, c).text), d, doomed);
      LinkDooms(reg, rows, j, c, doomed);
    }
  }

  /** A row whose cascading link names a doomed row is doomed. */
  lemma LinkDooms(reg: Registry, rows: Rows, j: Key, c: Column, doomed: set<Key>)
    requires ClosedUnder(reg, rows, doomed)
    requires TargetOf(reg, rows, j, c).Some? && TargetOf(reg, rows, j, c).value in doomed
    requires reg.link(j.table, c).value.onDelete == Cascade
    ensures j in doomed
  {
    assert Hangs(reg, rows, j, doomed);
  }
}
