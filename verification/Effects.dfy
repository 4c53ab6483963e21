// What one step does to a single cell, and what the gate said about it: the
// facts every table's invariant is kept with.
module Effects {
  import opened Values
  import opened Vocabulary
  import opened Merging
  import opened Registry
  import opened Database
  import opened Stamping
  import opened Guards
  import opened Pipeline
  import opened System
  import opened Steps

  /** The write's own row, after it. */
  function RowAfter(reg: Registry, rows: Rows, m: Mutation): Row {
    var merged := Resolve(Load(rows, KeyOf(m)), m);
    if KeyOf(m) in rows then Updated(rows[KeyOf(m)], merged)
    else Inserted(merged, reg.columns(m.table), reg.defaults(m.table))
  }

  predicate IsFounder(p: Partition, w: Env, rows: Rows, m: Mutation, k: Key) {
    Founds(p, m, KeyOf(m) in rows, false) && k == Key(TripMembers, w.memberId)
  }

  /** A write touches its own row and, for a new trip, adds the founder's. */
  lemma WrittenRows(reg: Registry, a: Rows, p: Partition, w: Env, m: Mutation, k: Key)
    requires !m.op.Delete?
    ensures var b := Written(reg, a, p, w, m);
      && (k in b <==> k in a || k == KeyOf(m) || IsFounder(p, w, a, m, k))
      && (k in b ==>
           b[k] == if IsFounder(p, w, a, m, k) then FounderRow(m, p.actor)
                   else if k == KeyOf(m) then RowAfter(reg, a, m) else a[k])
  {
    WrittenIsPut(reg, a, p, w, m);
  }

  /** A column of the written row holds the mutation's value or what stood before. */
  lemma WrittenCell(reg: Registry, a: Rows, m: Mutation, c: Column)
    requires !m.op.Delete?
    ensures Get(RowAfter(reg, a, m).fields, c) ==
      if KeyOf(m) in a then
        if c in m.fields && Wins(a[KeyOf(m)], m, c) then Stored(m.fields[c]) else Cell(a, KeyOf(m), c)
      else if c in m.fields then Stored(m.fields[c]) else Get(reg.defaults(m.table), c)
  {
  }

  /** A delete empties severable cells of what survives and changes no other. */
  lemma DeletedCell(reg: Registry, a: Rows, gone: Key, k: Key, c: Column)
    requires k in Deleted(reg, a, gone)
    ensures k in a && k != gone
    ensures Cell(Deleted(reg, a, gone), k, c) == Cell(a, k, c) ||
      (reg.Severable(k.table, c) && Cell(Deleted(reg, a, gone), k, c) == Null)
    ensures Deleted(reg, a, gone)[k].hlc == a[k].hlc && Deleted(reg, a, gone)[k].clocks == a[k].clocks
  {
    DoomedIsClosed(reg, a, {gone});
  }

  /** A mandatory link of a sane row names a row that is there. */
  lemma LinkNames(reg: Registry, rows: Rows, k: Key, c: Column)
    requires SchemaOk(reg, rows) && k in rows && c in reg.columns(k.table)
    requires reg.link(k.table, c).Some? && (reg.link(k.table, c).value.mandatory || Cell(rows, k, c) != Null)
    ensures Cell(rows, k, c).Text? && Key(reg.link(k.table, c).value.parent, Cell(rows, k, c).text) in rows
  {
    assert LinkOk(reg, rows, k, c);
  }

  /** A trip partition writes rows of its own trip, before and after. */
  lemma WrittenTrip(reg: Registry, a: Rows, b: Rows, p: Partition, w: Env, sent: Mutation, m: Mutation, source: Source)
    requires Founded(reg) && SchemaOk(reg, a) && SchemaOk(reg, b) && !m.op.Delete?
    requires reg.side(m.table) == OnTrip && p.feed.TripFeed? && Sourced(reg, a, p, w, sent, m, source)
    requires KeyOf(m) in b && b[KeyOf(m)] == RowAfter(reg, a, m)
    ensures TripOf(b, KeyOf(m)) == Text(p.Trip())
    ensures KeyOf(m) in a ==> TripOf(a, KeyOf(m)) == Text(p.Trip())
  {
    TripIsThere(reg, b, KeyOf(m));
    WrittenCell(reg, a, m, TripId);
    if KeyOf(m) in a { TripIsThere(reg, a, KeyOf(m)); }
    if source.Gated? {
      var m1 := StampOwned(reg.stamp(sent.table), sent, KeyOf(sent) in a, p.actor, w);
      GateLets(reg, a, p, w, sent, m);
      assert BelongsToTrip(a, m1, p.feed.trip);
      assert Names(m, TripId).Some? ==> Names(m, TripId) == Names(m1, TripId);
    }
  }
}
