// Everything the invariants ask of a registry, and the proof that the declared
// one says it.
module Laws {
  import opened Values
  import opened Vocabulary
  import opened Merging
  import opened Registry
  import opened Steps
  import opened Cascading
  import opened Catalog
  import opened ForeignKeys
  import Authority
  import Discussions
  import Identities
  import IncludeGraph
  import LooseRows
  import Owners
  import Records
  import Retiring
  import Sights
  import Stamping
  import Threads
  import TombstoneOrder

  datatype Law =
    | FoundedLaw | DeclaredLaw | ComposedLaw | RosteredLaw | ItemizedLaw
    | ThreadedLaw | ThreadsCascadeLaw | TickedLaw | RootedLaw | LastingLaw
    | SteppedLaw | OrderlyLaw | NamedLaw | SightedLaw | RuledLaw

  ghost predicate Obeys(reg: Registry, law: Law) {
    match law
    case FoundedLaw => Founded(reg)
    case DeclaredLaw => Declared(reg)
    case ComposedLaw => IncludeGraph.Composed(reg)
    case RosteredLaw => Owners.Rostered(reg)
    case ItemizedLaw => Records.Itemized(reg)
    case ThreadedLaw => Threads.Threaded(reg)
    case ThreadsCascadeLaw => Threads.ThreadsCascade(reg)
    case TickedLaw => Discussions.Ticked(reg)
    case RootedLaw => LooseRows.Rooted(reg)
    case LastingLaw => Retiring.Lasting(reg)
    case SteppedLaw => TombstoneOrder.Stepped(reg)
    case OrderlyLaw => TombstoneOrder.Orderly(reg)
    case NamedLaw => Identities.Named(reg)
    case SightedLaw => Sights.Sighted(reg)
    case RuledLaw => Authority.Ruled(reg)
  }

  /** A law is looked up by naming it. */
  ghost predicate Lawful(reg: Registry) {
    forall law: Law :: Obeys(reg, law)
  }

  lemma LawfulIsFounded(reg: Registry)
    requires Lawful(reg)
    ensures Founded(reg)
  {
    assert Obeys(reg, FoundedLaw);
  }

  /** What the logs' results ask for. */
  lemma LawfulIsDeclared(reg: Registry)
    requires Lawful(reg)
    ensures Founded(reg) && Declared(reg) && Owners.Rostered(reg)
  {
    assert Obeys(reg, FoundedLaw) && Obeys(reg, DeclaredLaw) && Obeys(reg, RosteredLaw);
  }

  lemma LawfulIsComposed(reg: Registry)
    requires Lawful(reg)
    ensures IncludeGraph.Composed(reg) && Records.Itemized(reg)
  {
    assert Obeys(reg, ComposedLaw) && Obeys(reg, ItemizedLaw);
  }

  lemma LawfulIsLasting(reg: Registry)
    requires Lawful(reg)
    ensures Retiring.Lasting(reg)
  {
    assert Obeys(reg, LastingLaw);
  }

  lemma LawfulIsRooted(reg: Registry)
    requires Lawful(reg)
    ensures LooseRows.Rooted(reg)
  {
    assert Obeys(reg, RootedLaw);
  }

  /** What the discussions' results ask for. */
  lemma LawfulIsThreaded(reg: Registry)
    requires Lawful(reg)
    ensures Threads.Threaded(reg) && Threads.ThreadsCascade(reg) && Discussions.Ticked(reg)
  {
    assert Obeys(reg, ThreadedLaw) && Obeys(reg, ThreadsCascadeLaw) && Obeys(reg, TickedLaw);
  }

  /** What the order of a delete's tombstones asks for. */
  lemma LawfulIsStepped(reg: Registry)
    requires Lawful(reg)
    ensures Honest(reg) && TombstoneOrder.Stepped(reg) && TombstoneOrder.Orderly(reg)
  {
    assert Obeys(reg, DeclaredLaw) && Obeys(reg, SteppedLaw) && Obeys(reg, OrderlyLaw);
  }

  /** What the names a row records ask for. */
  lemma LawfulIsNamed(reg: Registry)
    requires Lawful(reg)
    ensures Identities.Named(reg)
  {
    assert Obeys(reg, NamedLaw);
  }

  /** What a page of the master feed asks for. */
  lemma LawfulIsSighted(reg: Registry)
    requires Lawful(reg)
    ensures Sights.Sighted(reg)
  {
    assert Obeys(reg, SightedLaw);
  }

  // --------------------------------------------- the declaration, field by field

  lemma SideIs(t: Table)
    ensures Declaration().side(t) == Catalog.SideOf(t)
  {
  }

  lemma ColumnsAre(t: Table)
    ensures Declaration().columns(t) == ColumnsOf(t) && Declaration().defaults(t) == DefaultsOf(t)
  {
  }

  lemma LinkIs(t: Table, c: Column)
    ensures Declaration().link(t, c) == LinkOf(t, c)
  {
  }

  lemma ChildrenAre(t: Table)
    ensures Declaration().children(t) == Catalog.ChildrenOf(t)
  {
  }

  lemma GuardIs(t: Table)
    ensures Declaration().guard(t) == GuardOf(t)
  {
  }

  lemma CascadesIs(t: Table, c: Column, p: Table)
    ensures Declaration().Cascades(t, c, p) <==> Cascades(t, c, p)
  {
  }

  // ------------------------------------------------------------ the smaller laws

  lemma FoundedHolds()
    ensures Founded(Declaration())
  {
    var reg := Declaration();
    forall t | reg.side(t) == OnTrip
      ensures TripId in reg.columns(t) && reg.link(t, TripId) == Some(Link(Trips, Cascade, true)) && Get(reg.defaults(t), TripId) == Null
    {
      SideIs(t);
      ColumnsAre(t);
      LinkIs(t, TripId);
      TripColumn(t);
      TripDefault(t);
    }
    forall c ensures reg.link(TripMembers, c) == if c.TripId? then Some(Link(Trips, Cascade, true)) else None {
      LinkIs(TripMembers, c);
    }
  }

  lemma ComposedHolds()
    ensures IncludeGraph.Composed(Declaration())
  {
  }

  lemma RosteredHolds()
    ensures Owners.Rostered(Declaration())
  {
  }

  lemma ItemizedHolds()
    ensures Records.Itemized(Declaration())
  {
  }

  lemma ThreadedHolds()
    ensures Threads.Threaded(Declaration())
  {
    hide Declaration;
    CommentSide();
    CommentShape();
    ColumnsAre(Comments);
    LinkIs(Comments, ParentId);
  }

  lemma CommentSide()
    ensures var reg := Declaration();
      && reg.side(Comments) == OnTrip && reg.guard(Comments) == CommentRules && reg.stamp(Comments) == OfComment
      && !reg.retirable(Comments)
  {
  }

  lemma CommentShape()
    ensures {TripId, ParentId} <= ColumnsOf(Comments)
    ensures Get(DefaultsOf(Comments), ParentId) == Null && Get(DefaultsOf(Comments), TripId) == Null
    ensures LinkOf(Comments, ParentId) == Some(Link(Comments, Cascade, false))
  {
  }

  lemma ThreadsCascadeHolds()
    ensures Threads.ThreadsCascade(Declaration())
  {
    var reg := Declaration();
    ChildrenAre(Comments);
    forall t, c ensures reg.Cascades(t, c, Comments) <==> (t.Comments? && c.ParentId?) || (t.NoteAcks? && c.CommentId?) {
      CascadesIs(t, c, Comments);
      CommentLinks(t, c);
    }
    forall t, c ensures !reg.Cascades(t, c, NoteAcks) {
      CascadesIs(t, c, NoteAcks);
      TickLinks(t, c);
    }
  }

  lemma TickColumns()
    ensures {TripItemId} <= ColumnsOf(Comments) && {CommentId} <= ColumnsOf(NoteAcks)
    ensures Get(DefaultsOf(Comments), TripItemId) == Get(DefaultsOf(NoteAcks), CommentId) == Null
  {
  }

  lemma TickCascades(c: Column, p: Table)
    ensures Declaration().Cascades(Comments, c, p) ==>
      (c.TripId? && p.Trips?) || (c.ParentId? && p.Comments?) || (c.TripItemId? && p.TripItems?)
    ensures Declaration().Cascades(NoteAcks, c, p) ==> (c.TripId? && p.Trips?) || (c.CommentId? && p.Comments?)
  {
    CascadesIs(Comments, c, p);
    CascadesIs(NoteAcks, c, p);
    if Cascades(Comments, c, p) { DiscussionLinks(Comments, c, p); }
    if Cascades(NoteAcks, c, p) { DiscussionLinks(NoteAcks, c, p); }
  }

  lemma TickQueries(t: Table, q: ChildQuery)
    requires q in Declaration().children(t) && q.table in Discussions.DISCUSSION
    ensures t.Comments? || t.TripItems?
  {
    ChildrenAre(t);
    DiscussionQueried(t, q);
  }

  lemma TickKeys()
    ensures Declaration().link(Comments, TripItemId) == Some(Link(TripItems, Cascade, false))
    ensures Declaration().link(NoteAcks, CommentId) == Some(Link(Comments, Cascade, true))
    ensures Declaration().side(NoteAcks) == OnTrip
  {
    SideIs(NoteAcks);
    LinkIs(Comments, TripItemId);
    LinkIs(NoteAcks, CommentId);
  }

  lemma TickedHolds()
    ensures Discussions.Ticked(Declaration())
  {
    hide Declaration;
    var reg := Declaration();
    TickColumns();
    TickKeys();
    TickStamp();
    ColumnsAre(Comments);
    ColumnsAre(NoteAcks);
    ItemQueries();
    forall c, p
      ensures reg.Cascades(Comments, c, p) ==>
        (c.TripId? && p.Trips?) || (c.ParentId? && p.Comments?) || (c.TripItemId? && p.TripItems?)
      ensures reg.Cascades(NoteAcks, c, p) ==> (c.TripId? && p.Trips?) || (c.CommentId? && p.Comments?)
    {
      TickCascades(c, p);
    }
    forall t, q | q in reg.children(t) && q.table in Discussions.DISCUSSION ensures t.Comments? || t.TripItems? {
      TickQueries(t, q);
    }
  }

  lemma TickStamp()
    ensures Declaration().stamp(NoteAcks) == OnInsert(UserId)
  {
  }

  lemma ItemQueries()
    ensures Declaration().children(TripItems) ==
      [ChildQuery(Comments, {TripItemId}, {}), ChildQuery(NoteAcks, {}, {Hop(CommentId, Comments, TripItemId)})]
  {
    ChildrenAre(TripItems);
  }

  // ------------------------------------------------------- the queries and the keys

  lemma HonestHolds()
    ensures Honest(Declaration())
  {
    var reg := Declaration();
    forall t, q | q in reg.children(t)
      ensures reg.side(q.table) == reg.side(t)
      ensures forall c | c in q.direct :: reg.Cascades(q.table, c, t)
      ensures forall h | h in q.via :: reg.Cascades(q.table, h.column, h.through) && reg.Cascades(h.through, h.link, t)
    {
      ChildrenAre(t);
      SideIs(t);
      SideIs(q.table);
      HonestAt(t, q);
      forall c | c in q.direct ensures reg.Cascades(q.table, c, t) { CascadesIs(q.table, c, t); }
      forall h | h in q.via ensures reg.Cascades(q.table, h.column, h.through) && reg.Cascades(h.through, h.link, t) {
        CascadesIs(q.table, h.column, h.through);
        CascadesIs(h.through, h.link, t);
      }
    }
  }

  // ------------------------------------------------------------ the master feed

  /** A row of the master feed hangs off rows of the master feed. */
  lemma MasterCascade(t: Table, c: Column, p: Table)
    requires Declaration().Cascades(t, c, p) && Declaration().side(t) == OnMaster
    ensures MasterLink(t, c, p) && Declaration().side(p) == OnMaster && Direct(Declaration(), p, t, c)
  {
    CascadesIs(t, c, p);
    SideIs(t);
    SideIs(p);
    MasterLinks(t, c, p);
    MasterQueried(t, c, p);
    ChildrenAre(p);
  }

  /** Two links in a row are one query further up. */
  lemma MasterCascadeTwice(t: Table, c: Column, p: Table, u: Table, d: Column)
    requires Declaration().Cascades(t, c, p) && Declaration().Cascades(u, d, t) && Declaration().side(u) == OnMaster
    ensures MasterLink(t, c, p) && MasterLink(u, d, t) && Through(Declaration(), p, u, Hop(d, t, c))
  {
    MasterCascade(u, d, t);
    MasterCascade(t, c, p);
    MasterQueriedThrough(t, c, p, u, d);
    ChildrenAre(p);
  }

  /** And nothing hangs a third link down. */
  lemma MasterCascadeEnds(t: Table, c: Column, p: Table, u: Table, d: Column, v: Table, e: Column)
    requires Declaration().Cascades(t, c, p) && Declaration().Cascades(u, d, t) && Declaration().side(v) == OnMaster
    ensures !Declaration().Cascades(v, e, u)
  {
    if Declaration().Cascades(v, e, u) {
      MasterCascade(v, e, u);
      MasterCascadeTwice(t, c, p, u, d);
      MasterEnds(t, c, p, u, d, v, e);
    }
  }

  lemma MasterCompleteHolds()
    ensures MasterComplete(Declaration())
  {
    forall t, c, p | Declaration().Cascades(t, c, p) && Declaration().side(t) == OnMaster
      ensures Declaration().side(p) == OnMaster && Direct(Declaration(), p, t, c)
    {
      MasterCascade(t, c, p);
    }
    forall t, c, p, u, d | Declaration().Cascades(t, c, p) && Declaration().Cascades(u, d, t) && Declaration().side(u) == OnMaster
      ensures Through(Declaration(), p, u, Hop(d, t, c))
    {
      MasterCascadeTwice(t, c, p, u, d);
    }
    forall t, c, p, u, d, v, e | Declaration().side(v) == OnMaster && Declaration().Cascades(t, c, p) && Declaration().Cascades(u, d, t)
      ensures !Declaration().Cascades(v, e, u)
    {
      MasterCascadeEnds(t, c, p, u, d, v, e);
    }
  }

  // -------------------------------------------------------------- the trip feeds

  lemma ConfinedCascade(t: Table, c: Column, p: Table)
    requires Confined(t) && Declaration().Cascades(t, c, p) && !p.Trips?
    ensures Confined(p) && Direct(Declaration(), p, t, c) && KeepsInTrip(Declaration().guard(t), c, p)
    ensures c in Declaration().columns(t) && !c.TripId? && Get(Declaration().defaults(t), c) == Null
    ensures forall d, q :: Declaration().Cascades(p, d, q) ==> q.Trips?
  {
    CascadesIs(t, c, p);
    ConfinedLinks(t, c, p);
    ConfinedQueried(t, c, p);
    ConfinedColumn(t, c, p);
    ChildrenAre(p);
    GuardIs(t);
    ColumnsAre(t);
    forall d, q ensures Declaration().Cascades(p, d, q) ==> q.Trips? {
      CascadesIs(p, d, q);
      RootLinks(p, d, q);
    }
  }

  lemma TripCompleteHolds()
    ensures TripComplete(Declaration())
  {
    forall t, c, p | Declaration().side(t) == OnTrip && Declaration().Cascades(t, c, p) && Declaration().side(p) == OnMaster
      ensures p.Trips? && c.TripId?
    {
      CascadesIs(t, c, p);
      SideIs(t);
      SideIs(p);
      TripLinks(t, c, p);
      TripRoots(t, c, p);
    }
    forall c, p ensures !Declaration().Cascades(Trips, c, p) {
      CascadesIs(Trips, c, p);
      TripsHangOffNothing(c, p);
    }
    forall c, p ensures Declaration().Cascades(TripItems, c, p) ==> p.Trips? {
      CascadesIs(TripItems, c, p);
      RootLinks(TripItems, c, p);
    }
    forall t | Confined(t) ensures Declaration().side(t) == OnTrip {
      SideIs(t);
      ConfinedIsTrip(t);
    }
    forall t, c, p | Confined(t) && Declaration().Cascades(t, c, p) && !p.Trips?
      ensures Confined(p) && Direct(Declaration(), p, t, c) && KeepsInTrip(Declaration().guard(t), c, p)
      ensures c in Declaration().columns(t) && !c.TripId? && Get(Declaration().defaults(t), c) == Null
      ensures forall d, q :: Declaration().Cascades(p, d, q) ==> q.Trips?
    {
      ConfinedCascade(t, c, p);
    }
  }

  // ------------------------------------------------------------- the loose tables

  lemma LooseSides(t: Table)
    requires t in LooseRows.LOOSE + LooseRows.ROOTS
    ensures Declaration().side(t) == OnTrip
  {
  }

  lemma TripTables(t: Table)
    requires Catalog.SideOf(t) == OnTrip
    ensures Confined(t) || t in LooseRows.LOOSE + Discussions.DISCUSSION
  {
  }

  lemma LooseStamps(t: Table, c: Column, p: Table)
    requires t in LooseRows.LOOSE && LooseLink(t, c, p)
    ensures c !in Stamping.Owned(Declaration().stamp(t))
  {
  }

  lemma LooseCascade(t: Table, c: Column, p: Table)
    requires t in LooseRows.LOOSE && Declaration().Cascades(t, c, p)
    ensures p.Trips? ==> c.TripId?
    ensures !p.Trips? ==>
      && p in LooseRows.ROOTS && Direct(Declaration(), p, t, c) && c in Declaration().columns(t)
      && c !in Stamping.Owned(Declaration().stamp(t)) && Get(Declaration().defaults(t), c) == Null
  {
    hide Declaration, LinkOf, Catalog.ChildrenOf, ColumnsOf, DefaultsOf;
    CascadesIs(t, c, p);
    LooseLinks(t, c, p);
    if !p.Trips? {
      LooseQueried(t, c, p);
      ChildrenAre(p);
      ColumnsAre(t);
      LooseColumn(t, c, p);
      LooseDefault(t, c, p);
      LooseStamps(t, c, p);
    }
  }

  lemma RootCascade(t: Table, c: Column, p: Table)
    requires t in LooseRows.ROOTS && Declaration().Cascades(t, c, p)
    ensures p.Trips? && c.TripId?
  {
    hide Declaration, LinkOf;
    CascadesIs(t, c, p);
    LooseRoots(t, c, p);
  }

  lemma RootedHolds()
    ensures LooseRows.Rooted(Declaration())
  {
    hide Declaration;
    var reg := Declaration();
    forall t | reg.side(t) == OnTrip ensures Confined(t) || t in LooseRows.LOOSE + Discussions.DISCUSSION {
      SideIs(t);
      TripTables(t);
    }
    forall t | t in LooseRows.LOOSE + LooseRows.ROOTS ensures reg.side(t) == OnTrip { LooseSides(t); }
    forall t, c, p | t in LooseRows.ROOTS && reg.Cascades(t, c, p) ensures p.Trips? && c.TripId? { RootCascade(t, c, p); }
    forall t, c, p | t in LooseRows.LOOSE && reg.Cascades(t, c, p)
      ensures p.Trips? ==> c.TripId?
      ensures !p.Trips? ==>
        && p in LooseRows.ROOTS && Direct(reg, p, t, c) && c in reg.columns(t)
        && c !in Stamping.Owned(reg.stamp(t)) && Get(reg.defaults(t), c) == Null
    {
      LooseCascade(t, c, p);
    }
  }

  // -------------------------------------------------------- the order of tombstones

  lemma SteppedHolds()
    ensures TombstoneOrder.Stepped(Declaration())
  {
    forall t: Table, q: ChildQuery, h: Hop | q in Declaration().children(t) && h in q.via
      ensures Direct(Declaration(), t, h.through, h.link)
    {
      ChildrenAre(t);
      SteppedAt(t, q, h);
    }
  }

  lemma NamedHolds()
    ensures Identities.Named(Declaration())
  {
    hide Identities.TellsWho, Identities.Identity, StampOf;
    SpecialStamps();
    forall t: Table ensures RetiredAt !in Identities.Identity(Declaration().stamp(t)) { StampRecords(t, RetiredAt); }
    forall t: Table, c: Column
      ensures c in Identities.Identity(Declaration().stamp(t)) <==> Identities.TellsWho(t, c)
    {
      StampRecords(t, c);
    }
    forall t: Table
      ensures && (Declaration().stamp(t).OnInsert? ==> Declaration().side(t) == OnTrip)
        && (Declaration().stamp(t).OnCreate? ==> Declaration().side(t) == OnMaster)
    {
      StampSides(t);
    }
  }

  lemma StampRecords(t: Table, c: Column)
    ensures c in Identities.Identity(Declaration().stamp(t)) <==> Identities.TellsWho(t, c)
  {
    hide Identities.Identity, Identities.TellsWho;
    if StampOf(t).NoStamp? { Unstamped(t, c); } else { StampedColumns(t, c); }
  }

  lemma Unstamped(t: Table, c: Column)
    requires StampOf(t).NoStamp?
    ensures c !in Identities.Identity(StampOf(t)) && !Identities.TellsWho(t, c)
  {
  }

  lemma StampedColumns(t: Table, c: Column)
    requires !StampOf(t).NoStamp?
    ensures c in Identities.Identity(StampOf(t)) <==> Identities.TellsWho(t, c)
  {
  }

  lemma SpecialStamps()
    ensures Declaration().stamp(TripItems) == OfTripItem && Declaration().stamp(TripMembers) == NoStamp
    ensures forall t: Table :: !Identities.TellsWho(t, RetiredAt)
  {
  }

  lemma StampSides(t: Table)
    ensures Declaration().stamp(t).OnInsert? ==> Declaration().side(t) == OnTrip
    ensures Declaration().stamp(t).OnCreate? ==> Declaration().side(t) == OnMaster
  {
  }

  lemma SightedHolds()
    ensures Sights.Sighted(Declaration())
  {
  }

  lemma RuledHolds()
    ensures Authority.Ruled(Declaration())
  {
    hide GuardOf;
    forall t: Table ensures t in Authority.Governed(Declaration().guard(t)) { RuleGoverns(t); }
  }

  lemma RuleGoverns(t: Table)
    ensures t in Authority.Governed(Declaration().guard(t))
  {
    GuardIs(t);
  }

  lemma OrderlyHolds()
    ensures TombstoneOrder.Orderly(Declaration())
  {
    forall t: Table | !t.Comments? && !t.TripItems? ensures TombstoneOrder.LeafOrdered(Declaration(), Declaration().children(t)) {
      ChildrenAre(t);
      forall i: nat, j: nat, c: Column | i <= j < |Catalog.ChildrenOf(t)|
        ensures !Declaration().Cascades(Catalog.ChildrenOf(t)[j].table, c, Catalog.ChildrenOf(t)[i].table)
      {
        CascadesIs(Catalog.ChildrenOf(t)[j].table, c, Catalog.ChildrenOf(t)[i].table);
        OrderlyAt(t, i, j, c);
      }
    }
  }

  // ----------------------------------------------------------- rows that are kept

  lemma RestrictsIs(t: Table, c: Column, p: Table)
    ensures Retiring.Restricts(Declaration(), t, c, p) <==> Restricts(t, c, p)
    ensures Declaration().blockers(p) == BlockersOf(p)
  {
  }

  /** A table keeps rows that may not be deleted exactly when it is a master table with the column that marks them. */
  lemma RetirableExactly(t: Table)
    ensures Declaration().retirable(t) <==> Declaration().side(t) == OnMaster && RetiredAt in Declaration().columns(t)
  {
    hide ColumnsOf;
    if SideOf(t).OnMaster? { MasterRetires(t); }
  }

  lemma MasterRetires(t: Table)
    requires SideOf(t).OnMaster?
    ensures IsRetirable(t) <==> RetiredAt in ColumnsOf(t)
  {
  }

  lemma LastingHolds()
    ensures Retiring.Lasting(Declaration())
  {
    var reg := Declaration();
    forall t ensures reg.link(t, RetiredAt) == reg.link(t, Kind) == reg.link(t, State) == reg.link(t, Role) == None {
      LinkIs(t, RetiredAt);
      LinkIs(t, Kind);
      LinkIs(t, State);
      LinkIs(t, Role);
      PlainColumns(t);
    }
    forall t, c | reg.Severable(t, c) ensures !reg.link(t, c).value.mandatory {
      LinkIs(t, c);
      LinkRules(t, c);
    }
    forall t, c, p | Retiring.Restricts(reg, t, c, p) ensures Reference(t, c) in reg.blockers(p) {
      RestrictsIs(t, c, p);
      RestrictingLinks(t, c, p);
    }
    forall t, c, p, u, d | Retiring.Restricts(reg, t, c, p) && reg.Cascades(p, d, u) ensures u.Trips? {
      RestrictsIs(t, c, p);
      RestrictingLinks(t, c, p);
      CascadesIs(p, d, u);
      RestrictingParents(p, d, u);
    }
    forall c, p ensures !reg.Cascades(Trips, c, p) {
      CascadesIs(Trips, c, p);
      TripsHangOffNothing(c, p);
    }
  }

  /** The registry the server runs with is lawful. */
  lemma DeclarationIsLawful()
    ensures Lawful(Declaration())
  {
    hide Catalog.Declaration, Founded, IncludeGraph.Composed, Owners.Rostered, Records.Itemized, Threads.Threaded, Threads.ThreadsCascade,
      Discussions.Ticked, LooseRows.Rooted, Retiring.Lasting, TombstoneOrder.Stepped, TombstoneOrder.Orderly,
      Identities.Named, Sights.Sighted, Authority.Ruled, Honest, MasterComplete, TripComplete;
    FoundedHolds();
    ComposedHolds();
    RosteredHolds();
    ItemizedHolds();
    ThreadedHolds();
    ThreadsCascadeHolds();
    TickedHolds();
    RootedHolds();
    HonestHolds();
    MasterCompleteHolds();
    TripCompleteHolds();
    LastingHolds();
    SteppedHolds();
    OrderlyHolds();
    NamedHolds();
    SightedHolds();
    RuledHolds();
    forall law ensures Obeys(Declaration(), law) {
    }
  }
}
