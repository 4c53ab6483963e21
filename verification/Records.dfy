// A trip row has a packer exactly when it is packed and a claim holder exactly
// when it is being packed (internal/store/stamp.go, internal/sync/merge.go,
// internal/store/locks.go).
module Records {
  import opened Values
  import opened Vocabulary
  import opened Merging
  import opened Registry
  import opened Database
  import opened Stamping
  import opened Guards
  import opened Pipeline
  import opened Restoring
  import opened System
  import opened Effects

  /** The two records of one trip row match its state. */
  predicate Matches(fields: Fields) {
    && (Get(fields, PackedBy) != Null <==> Get(fields, State) == Text(PACKED))
    && (Get(fields, PackingNowBy) != Null <==> Get(fields, State) == Text(PACKING_NOW))
  }

  ghost predicate RecordsMatch(rows: Rows) {
    forall k {:trigger Matches(rows[k].fields)} | k in rows && k.table.TripItems? :: Matches(rows[k].fields)
  }

  /** What the registry must say about trip rows. */
  ghost predicate Itemized(reg: Registry) {
    && reg.stamp(TripItems) == OfTripItem && reg.guard(TripItems) == Unguarded && !reg.retirable(TripItems)
    && Get(reg.defaults(TripItems), State) == Text("open")
    && Get(reg.defaults(TripItems), PackedBy) == Null && Get(reg.defaults(TripItems), PackingNowBy) == Null
    && (forall c: Column | c.State? || c.PackedBy? || c.PackingNowBy? :: reg.link(TripItems, c) == None)
  }

  /** A mutation names the records exactly when it names a state, and as that state asks. */
  predicate Consistent(fields: Fields) {
    && (Get(fields, State).Text? ==> PackedBy in fields && PackingNowBy in fields && Matches(fields))
    && (!Get(fields, State).Text? ==> PackedBy !in fields && PackingNowBy !in fields)
  }

  /** The stamp makes every mutation of a trip row consistent, whatever the client sent. */
  lemma StampedConsistent(m: Mutation, known: bool, actor: string, w: Env)
    ensures Consistent(StampOwned(OfTripItem, m, known, actor, w).fields)
  {
  }

  lemma ItemJudged(reg: Registry, a: Rows, p: Partition, w: Env, sent: Mutation, m: Mutation)
    requires Itemized(reg) && m.table.TripItems? && PassedGate(reg, a, p, w, sent, m)
    ensures Consistent(m.fields)
  {
    var m1 := StampOwned(reg.stamp(sent.table), sent, KeyOf(sent) in a, p.actor, w);
    GateLets(reg, a, p, w, sent, m);
    assert Judge(reg, a, m1, p) == Pass(m1);
    StampedConsistent(sent, KeyOf(sent) in a, p.actor, w);
  }

  /** The merge takes the state with both records or none of the three. */
  lemma MergedTogether(row: Row, m: Mutation, c: Column)
    requires (c.PackedBy? || c.PackingNowBy? || c.State?) && c in m.fields
    ensures Wins(row, m, c) <==> GroupWins(row, m)
  {
  }

  /** A consistent write leaves the records matching. */
  lemma GatedMatches(reg: Registry, a: Rows, b: Rows, m: Mutation)
    requires Itemized(reg) && !m.op.Delete? && m.table.TripItems? && Consistent(m.fields)
    requires KeyOf(m) in b && b[KeyOf(m)] == RowAfter(reg, a, m) && CheckOk(b, KeyOf(m))
    requires KeyOf(m) in a ==> Matches(a[KeyOf(m)].fields)
    ensures Matches(b[KeyOf(m)].fields)
  {
    hide RowAfter, Wins, GroupWins;
    WrittenCell(reg, a, m, State);
    WrittenCell(reg, a, m, PackedBy);
    WrittenCell(reg, a, m, PackingNowBy);
    if KeyOf(m) in a && State in m.fields { MergedTogether(a[KeyOf(m)], m, State); }
    if KeyOf(m) in a && PackedBy in m.fields { MergedTogether(a[KeyOf(m)], m, PackedBy); }
    if KeyOf(m) in a && PackingNowBy in m.fields { MergedTogether(a[KeyOf(m)], m, PackingNowBy); }
  }

  /** So does a takeover: the row stays claimed, by somebody else. */
  lemma ClaimMatches(reg: Registry, a: Rows, m: Mutation, taker: string, now: string)
    requires Itemized(reg) && m == TakeOverMutation(m.id, taker, now, m.hlc) && KeyOf(m) in a
    requires Cell(a, KeyOf(m), State) == Text(PACKING_NOW) && Matches(a[KeyOf(m)].fields)
    ensures Matches(RowAfter(reg, a, m).fields)
  {
    WrittenCell(reg, a, m, State);
    WrittenCell(reg, a, m, PackedBy);
    WrittenCell(reg, a, m, PackingNowBy);
  }

  /** The row any write leaves has matching records. */
  lemma WrittenMatches(reg: Registry, a: Rows, b: Rows, p: Partition, w: Env, sent: Mutation, m: Mutation, source: Source)
    requires Itemized(reg) && !m.op.Delete? && m.table.TripItems? && Sourced(reg, a, p, w, sent, m, source)
    requires KeyOf(m) in b && b[KeyOf(m)] == RowAfter(reg, a, m) && CheckOk(b, KeyOf(m))
    requires KeyOf(m) in a ==> Matches(a[KeyOf(m)].fields)
    ensures Matches(b[KeyOf(m)].fields)
  {
    hide RowAfter, PassedGate, Matches, Consistent;
    if source.Claiming? {
      ClaimMatches(reg, a, m, p.actor, w.now);
    } else {
      ItemJudged(reg, a, p, w, sent, m);
      GatedMatches(reg, a, b, m);
    }
  }

  /** A row that outlives a delete keeps its records. */
  lemma SurvivorMatches(reg: Registry, a: Rows, gone: Key, k: Key)
    requires Itemized(reg) && k in Deleted(reg, a, gone) && k.table.TripItems? && (k in a ==> Matches(a[k].fields))
    ensures Matches(Deleted(reg, a, gone)[k].fields)
  {
    DeletedCell(reg, a, gone, k, State);
    DeletedCell(reg, a, gone, k, PackedBy);
    DeletedCell(reg, a, gone, k, PackingNowBy);
  }

  /** No step lets a record and its state disagree. */
  lemma StepKeepsRecords(reg: Registry, a: Rows, b: Rows, s: Step)
    requires Itemized(reg) && RecordsMatch(a) && SchemaOk(reg, b) && Acted(reg, a, b, s)
    ensures RecordsMatch(b)
  {
    hide LinkOk, Written, RowAfter, Sourced, Matches, Itemized, AfterChange;
    forall k | k in b && k.table.TripItems? ensures Matches(b[k].fields) {
      match s.act
      case Wrote(w, sent, m, source) =>
        WrittenRows(reg, a, s.p, w, m, k);
        if k == KeyOf(m) { WrittenMatches(reg, a, b, s.p, w, sent, m, source); }
      case Removed(_, _, m) => SurvivorMatches(reg, a, KeyOf(m), k);
      case _ =>
    }
  }

  /** No step takes a live row from packed back to being packed. */
  lemma PackedIsTerminal(reg: Registry, a: Rows, b: Rows, s: Step, k: Key)
    requires Itemized(reg) && Acted(reg, a, b, s) && k in a && k in b && k.table.TripItems?
    requires Cell(a, k, State) == Text(PACKED)
    ensures Cell(b, k, State) != Text(PACKING_NOW)
  {
    hide RowAfter, Written, Sourced;
    match s.act
    case Wrote(w, _, m, _) =>
      WrittenRows(reg, a, s.p, w, m, k);
      if k == KeyOf(m) { WrittenCell(reg, a, m, State); }
    case Removed(_, _, m) => DeletedCell(reg, a, KeyOf(m), k, State);
    case _ =>
  }
}
