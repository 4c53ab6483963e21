// Comments and their ticks: while a comment's item is fixed when it is written,
// and every tick names a comment of its own trip, a delete takes from a trip's
// comments and ticks exactly what it names (internal/store/tables_registry.go,
// internal/store/notethreads.go; the note_acks table has no rule of its own).
module Discussions {
  import opened Values
  import opened Vocabulary
  import opened Merging
  import opened Registry
  import opened Database
  import opened Stamping
  import opened Guards
  import opened Pipeline
  import opened System
  import opened Steps
  import opened Effects
  import opened Cascading
  import opened Feeds
  import opened Deleting
  import opened Threads

  const DISCUSSION: set<Table> := {Comments, NoteAcks}

  /** What the registry must say about ticks, and about the items comments hang on. */
  ghost predicate Ticked(reg: Registry) {
    && reg.side(NoteAcks) == OnTrip && CommentId !in Owned(reg.stamp(NoteAcks))
    && TripItemId in reg.columns(Comments) && CommentId in reg.columns(NoteAcks)
    && reg.link(Comments, TripItemId) == Some(Link(TripItems, Cascade, false))
    && reg.link(NoteAcks, CommentId) == Some(Link(Comments, Cascade, true))
    && Get(reg.defaults(Comments), TripItemId) == Null && Get(reg.defaults(NoteAcks), CommentId) == Null
    && reg.children(TripItems) ==
         [ChildQuery(Comments, {TripItemId}, {}), ChildQuery(NoteAcks, {}, {Hop(CommentId, Comments, TripItemId)})]
    && (forall c, p :: reg.Cascades(Comments, c, p) ==>
         (c.TripId? && p.Trips?) || (c.ParentId? && p.Comments?) || (c.TripItemId? && p.TripItems?))
    && (forall c, p :: reg.Cascades(NoteAcks, c, p) ==> (c.TripId? && p.Trips?) || (c.CommentId? && p.Comments?))
    && (forall t, q | q in reg.children(t) && q.table in DISCUSSION :: t.Comments? || t.TripItems?)
  }

  lemma SidesOf(reg: Registry)
    requires Threaded(reg) && Ticked(reg) && Founded(reg)
    ensures reg.side(Comments) == reg.side(NoteAcks) == reg.side(TripItems) == OnTrip
  {
  }

  // ------------------------------------------------------------- what holds of the rows

  function ItemOf(rows: Rows, k: Key): Key {
    Key(TripItems, AsText(Cell(rows, k, TripItemId)))
  }

  function NoteOf(rows: Rows, k: Key): Key {
    Key(Comments, AsText(Cell(rows, k, CommentId)))
  }

  /** A comment's item is of its trip, and the note a reply answers hangs on no item. */
  predicate Placed(rows: Rows, k: Key) {
    && (Cell(rows, k, TripItemId) != Null ==> ItemOf(rows, k) in rows && TripOf(rows, ItemOf(rows, k)) == TripOf(rows, k))
    && (IsReply(rows, k) ==> Cell(rows, ParentOf(rows, k), TripItemId) == Null)
  }

  /** A tick is of the trip of the comment it is on. */
  predicate OnOwnNote(rows: Rows, k: Key) {
    NoteOf(rows, k) in rows && TripOf(rows, NoteOf(rows, k)) == TripOf(rows, k)
  }

  /** Threads are one level deep, no comment has the empty id, and comments and ticks are where they belong. */
  ghost predicate Gathered(rows: Rows) {
    && OneLevel(rows) && Key(Comments, "") !in rows
    && (forall k {:trigger Placed(rows, k)} | k in rows && k.table.Comments? :: Placed(rows, k))
    && (forall k {:trigger OnOwnNote(rows, k)} | k in rows && k.table.NoteAcks? :: OnOwnNote(rows, k))
  }

  // ------------------------------------------------------------------ what keeps it

  /** What the mutation names in a column is no row of another trip. */
  predicate NamesOwn(rows: Rows, m: Mutation, c: Column, t: Table, trip: string) {
    Names(m, c).Some? && Key(t, Names(m, c).value) in rows ==> TripOf(rows, Key(t, Names(m, c).value)) == Text(trip)
  }

  /** A comment's item is of the trip and set on insert alone; a tick's comment is of the trip. */
  predicate Ties(rows: Rows, m: Mutation, trip: string) {
    && (m.table.Comments? && TripItemId in m.fields ==>
         if KeyOf(m) in rows then Stored(m.fields[TripItemId]) == Cell(rows, KeyOf(m), TripItemId)
         else NamesOwn(rows, m, TripItemId, TripItems, trip))
    && (m.table.NoteAcks? && CommentId in m.fields ==> NamesOwn(rows, m, CommentId, Comments, trip))
  }

  /** What a step sent through the gate ties nothing to another trip. */
  predicate SendsTied(a: Rows, s: Step) {
    s.act.Wrote? && s.act.source.Gated? ==> Ties(a, s.act.sent, s.p.Trip())
  }

  /** No write moves a row of a trip to another. */
  lemma TripIsKept(reg: Registry, a: Rows, b: Rows, s: Step, x: Key)
    requires Founded(reg) && SchemaOk(reg, a) && SchemaOk(reg, b) && Acted(reg, a, b, s) && s.act.Wrote?
    requires x in a && reg.side(x.table) == OnTrip
    ensures x in b && TripOf(b, x) == TripOf(a, x)
  {
    hide SchemaOk, AfterChange, Written, RowAfter, Sourced;
    var m := s.act.m;
    WrittenRows(reg, a, s.p, s.act.w, m, x);
    if x == KeyOf(m) { WrittenTrip(reg, a, b, s.p, s.act.w, s.act.sent, m, s.act.source); }
  }

  /** The rows of a trip after a write that were not there before are the written one. */
  lemma NothingElseIsNew(reg: Registry, a: Rows, b: Rows, s: Step, x: Key)
    requires Founded(reg) && Acted(reg, a, b, s) && s.act.Wrote? && reg.side(x.table) == OnTrip && x in b
    ensures x in a || x == KeyOf(s.act.m)
    ensures x != KeyOf(s.act.m) ==> b[x] == a[x]
  {
    WrittenRows(reg, a, s.p, s.act.w, s.act.m, x);
  }

  /** What a gated write says of a column the server does not own is what was sent. */
  lemma SentAsWritten(reg: Registry, a: Rows, p: Partition, w: Env, sent: Mutation, m: Mutation, c: Column)
    requires PassedGate(reg, a, p, w, sent, m) && c !in Owned(reg.stamp(m.table)) && c in m.fields
    ensures KeyOf(sent) == KeyOf(m) && c in sent.fields && sent.fields[c] == m.fields[c]
  {
    hide StampOwned, Scope;
    GateLets(reg, a, p, w, sent, m);
    StampKeeps(reg.stamp(sent.table), sent, KeyOf(sent) in a, p.actor, w);
  }

  /** A write to a comment or a tick came through the gate. */
  lemma DiscussionIsGated(reg: Registry, a: Rows, b: Rows, s: Step)
    requires Threaded(reg) && Ticked(reg) && Acted(reg, a, b, s) && s.act.Wrote? && s.act.m.table in DISCUSSION
    ensures s.act.source.Gated? && s.p.feed.TripFeed? && PassedGate(reg, a, s.p, s.act.w, s.act.sent, s.act.m)
  {
    hide PassedGate, Written, AfterChange;
  }

  /** A link column of the written row names what it named, or what was sent. */
  lemma LinkAfter(reg: Registry, a: Rows, b: Rows, s: Step, c: Column)
    requires Threaded(reg) && Ticked(reg) && Acted(reg, a, b, s) && s.act.Wrote? && s.act.m.table in DISCUSSION
    requires c !in Owned(reg.stamp(s.act.m.table)) && Get(reg.defaults(s.act.m.table), c) == Null
    ensures var m, sent := s.act.m, s.act.sent;
      && KeyOf(m) in b && KeyOf(sent) == KeyOf(m)
      && (Cell(b, KeyOf(m), c) == Cell(a, KeyOf(m), c) ||
          (c in sent.fields && Cell(b, KeyOf(m), c) == Stored(sent.fields[c])))
  {
    hide PassedGate, AfterChange, RowAfter, Written;
    var m := s.act.m;
    DiscussionIsGated(reg, a, b, s);
    WrittenRows(reg, a, s.p, s.act.w, m, KeyOf(m));
    WrittenCell(reg, a, m, c);
    if c in m.fields { SentAsWritten(reg, a, s.p, s.act.w, s.act.sent, m, c); }
    SentIsOfRow(reg, a, s.p, s.act.w, s.act.sent, m);
  }

  lemma SentIsOfRow(reg: Registry, a: Rows, p: Partition, w: Env, sent: Mutation, m: Mutation)
    requires PassedGate(reg, a, p, w, sent, m)
    ensures KeyOf(sent) == KeyOf(m)
  {
    GateLets(reg, a, p, w, sent, m);
  }

  /** A sane link that is not NULL names a row. */
  lemma Linked(reg: Registry, rows: Rows, k: Key, c: Column, t: Table)
    requires SchemaOk(reg, rows) && k in rows && c in reg.columns(k.table)
    requires reg.link(k.table, c).Some? && reg.link(k.table, c).value.parent == t
    ensures Cell(rows, k, c) != Null || reg.link(k.table, c).value.mandatory ==>
      Cell(rows, k, c).Text? && Key(t, Cell(rows, k, c).text) in rows
  {
    if Cell(rows, k, c) != Null || reg.link(k.table, c).value.mandatory { LinkNames(reg, rows, k, c); }
  }

  /** The written comment's item is of its trip. */
  lemma WrittenItem(reg: Registry, a: Rows, b: Rows, s: Step)
    requires Threaded(reg) && Ticked(reg) && Founded(reg) && SchemaOk(reg, a) && SchemaOk(reg, b)
    requires Acted(reg, a, b, s) && s.act.Wrote? && s.act.m.table.Comments?
    requires KeyOf(s.act.m) in a ==> Placed(a, KeyOf(s.act.m))
    requires Ties(a, s.act.sent, s.p.Trip()) && TripOf(b, KeyOf(s.act.m)) == Text(s.p.Trip())
    requires KeyOf(s.act.m) in a ==> TripOf(a, KeyOf(s.act.m)) == Text(s.p.Trip())
    ensures var k := KeyOf(s.act.m);
      k in b && (Cell(b, k, TripItemId) != Null ==> ItemOf(b, k) in b && TripOf(b, ItemOf(b, k)) == TripOf(b, k))
    ensures KeyOf(s.act.m) in a ==> Cell(b, KeyOf(s.act.m), TripItemId) == Cell(a, KeyOf(s.act.m), TripItemId)
  {
    hide SchemaOk, Acted, Founded;
    var k := KeyOf(s.act.m);
    SidesOf(reg);
    LinkAfter(reg, a, b, s, TripItemId);
    Linked(reg, b, k, TripItemId, TripItems);
    if Cell(b, k, TripItemId) != Null {
      var x := ItemOf(b, k);
      NothingElseIsNew(reg, a, b, s, x);
      TripIsKept(reg, a, b, s, x);
    }
  }

  /** The note the written comment answers hangs on no item. */
  lemma WrittenReply(reg: Registry, a: Rows, b: Rows, s: Step)
    requires Threaded(reg) && Ticked(reg) && Founded(reg) && SchemaOk(reg, a) && SchemaOk(reg, b) && Gathered(a)
    requires Acted(reg, a, b, s) && s.act.Wrote? && s.act.m.table.Comments? && Key(Comments, "") !in b
    requires KeyOf(s.act.m) in b && b[KeyOf(s.act.m)] == RowAfter(reg, a, s.act.m)
    ensures IsReply(b, KeyOf(s.act.m)) ==> Cell(b, ParentOf(b, KeyOf(s.act.m)), TripItemId) == Null
    ensures TripOf(b, KeyOf(s.act.m)) == Text(s.p.Trip())
    ensures KeyOf(s.act.m) in a ==> TripOf(a, KeyOf(s.act.m)) == Text(s.p.Trip())
  {
    hide SchemaOk, Founded, PassedGate, AfterChange, RowAfter, Written;
    var k, m := KeyOf(s.act.m), s.act.m;
    DiscussionIsGated(reg, a, b, s);
    WrittenComment(reg, a, b, s.p, s.act.w, s.act.sent, m);
    if IsReply(b, k) {
      Linked(reg, b, k, ParentId, Comments);
      var x := ParentOf(b, k);
      if k in a {
        assert IsReply(a, k) && Placed(a, k) && ThreadOk(a, k);
      }
      NothingElseIsNew(reg, a, b, s, x);
    }
  }

  /** The written tick is on a comment of its trip. */
  lemma WrittenTick(reg: Registry, a: Rows, b: Rows, s: Step)
    requires Threaded(reg) && Ticked(reg) && Founded(reg) && SchemaOk(reg, a) && SchemaOk(reg, b)
    requires Acted(reg, a, b, s) && s.act.Wrote? && s.act.m.table.NoteAcks?
    requires KeyOf(s.act.m) in b && b[KeyOf(s.act.m)] == RowAfter(reg, a, s.act.m)
    requires KeyOf(s.act.m) in a ==> OnOwnNote(a, KeyOf(s.act.m))
    requires Ties(a, s.act.sent, s.p.Trip())
    ensures OnOwnNote(b, KeyOf(s.act.m))
  {
    hide SchemaOk, Founded, PassedGate, AfterChange, RowAfter, Written;
    var k, m := KeyOf(s.act.m), s.act.m;
    DiscussionIsGated(reg, a, b, s);
    WrittenTrip(reg, a, b, s.p, s.act.w, s.act.sent, m, s.act.source);
    LinkAfter(reg, a, b, s, CommentId);
    Linked(reg, b, k, CommentId, Comments);
    var x := NoteOf(b, k);
    NothingElseIsNew(reg, a, b, s, x);
    TripIsKept(reg, a, b, s, x);
  }

  /** A row the write does not touch stays where it belongs. */
  lemma OthersStayPlaced(reg: Registry, a: Rows, b: Rows, s: Step, k: Key)
    requires Threaded(reg) && Ticked(reg) && Founded(reg) && SchemaOk(reg, a) && SchemaOk(reg, b) && Gathered(a)
    requires Acted(reg, a, b, s) && s.act.Wrote? && k in a && k in b && b[k] == a[k]
    requires s.act.m.table.Comments? && KeyOf(s.act.m) in a ==>
      Cell(b, KeyOf(s.act.m), TripItemId) == Cell(a, KeyOf(s.act.m), TripItemId)
    ensures k.table.Comments? ==> Placed(b, k)
    ensures k.table.NoteAcks? ==> OnOwnNote(b, k)
  {
    hide SchemaOk, Founded, Acted;
    SidesOf(reg);
    if k.table.Comments? {
      assert Placed(a, k);
      if Cell(a, k, TripItemId) != Null { TripIsKept(reg, a, b, s, ItemOf(a, k)); }
      if IsReply(a, k) {
        assert ThreadOk(a, k);
        var x := ParentOf(a, k);
        TripIsKept(reg, a, b, s, x);
        NothingElseIsNew(reg, a, b, s, x);
      }
    } else if k.table.NoteAcks? {
      assert OnOwnNote(a, k);
      TripIsKept(reg, a, b, s, NoteOf(a, k));
    }
  }

  /** A delete leaves what survives where it was. */
  lemma DeleteKeepsPlaced(reg: Registry, a: Rows, b: Rows, gone: Key, k: Key)
    requires Threaded(reg) && Ticked(reg) && Founded(reg) && SchemaOk(reg, b) && Gathered(a)
    requires b == Deleted(reg, a, gone) && k in b
    ensures k.table.Comments? ==> Placed(b, k)
    ensures k.table.NoteAcks? ==> OnOwnNote(b, k)
  {
    hide SchemaOk, Deleted;
    DeletedCell(reg, a, gone, k, TripId);
    if k.table.Comments? {
      assert Placed(a, k);
      DeletedCell(reg, a, gone, k, TripItemId);
      DeletedCell(reg, a, gone, k, ParentId);
      Linked(reg, b, k, TripItemId, TripItems);
      Linked(reg, b, k, ParentId, Comments);
      if Cell(b, k, TripItemId) != Null { DeletedCell(reg, a, gone, ItemOf(b, k), TripId); }
      if IsReply(b, k) { DeletedCell(reg, a, gone, ParentOf(b, k), TripItemId); }
    } else if k.table.NoteAcks? {
      assert OnOwnNote(a, k);
      DeletedCell(reg, a, gone, k, CommentId);
      Linked(reg, b, k, CommentId, Comments);
      DeletedCell(reg, a, gone, NoteOf(b, k), TripId);
    }
  }

  /** A row after a write is where it belongs. */
  lemma WriteKeepsPlaced(reg: Registry, a: Rows, b: Rows, s: Step, k: Key)
    requires Threaded(reg) && Ticked(reg) && Founded(reg) && SchemaOk(reg, a) && SchemaOk(reg, b) && Gathered(a)
    requires Acted(reg, a, b, s) && s.act.Wrote? && SendsTied(a, s)
    requires Key(Comments, "") !in b && k in b
    ensures k.table.Comments? ==> Placed(b, k)
    ensures k.table.NoteAcks? ==> OnOwnNote(b, k)
  {
    hide SchemaOk, Founded, AfterChange, Written, RowAfter, PassedGate, Ties, Placed, OnOwnNote;
    if k.table in DISCUSSION {
      var m := s.act.m;
      WrittenRows(reg, a, s.p, s.act.w, m, KeyOf(m));
      if m.table in DISCUSSION { DiscussionIsGated(reg, a, b, s); }
      if m.table.Comments? {
        WrittenReply(reg, a, b, s);
        WrittenItem(reg, a, b, s);
      }
      if k == KeyOf(m) {
        if m.table.NoteAcks? { WrittenTick(reg, a, b, s); } else { PlacedBy(b, k); }
      } else {
        NothingElseIsNew(reg, a, b, s, k);
        OthersStayPlaced(reg, a, b, s, k);
      }
    }
  }

  lemma PlacedBy(rows: Rows, k: Key)
    requires Cell(rows, k, TripItemId) != Null ==> ItemOf(rows, k) in rows && TripOf(rows, ItemOf(rows, k)) == TripOf(rows, k)
    requires IsReply(rows, k) ==> Cell(rows, ParentOf(rows, k), TripItemId) == Null
    ensures Placed(rows, k)
  {
  }

  /** While comments and ticks are tied to their trip, and none has the empty id, they stay gathered. */
  lemma StepKeepsGathered(reg: Registry, a: Rows, b: Rows, s: Step)
    requires Threaded(reg) && Ticked(reg) && Founded(reg) && SchemaOk(reg, a) && SchemaOk(reg, b) && Gathered(a)
    requires Acted(reg, a, b, s) && SendsTied(a, s)
    requires Key(Comments, "") !in b
    ensures Gathered(b)
  {
    hide SchemaOk, Founded, AfterChange, Written, Deleted, PassedGate, Ties, Placed, OnOwnNote, OneLevel, Relogged, Blocked;
    StepKeepsThreads(reg, a, b, s);
    forall k | k in b ensures (k.table.Comments? ==> Placed(b, k)) && (k.table.NoteAcks? ==> OnOwnNote(b, k)) {
      match s.act
      case Wrote(_, _, _, _) => WriteKeepsPlaced(reg, a, b, s, k);
      case Removed(_, _, m) => DeleteKeepsPlaced(reg, a, b, KeyOf(m), k);
      case _ =>
    }
  }

  // ------------------------------------------------------------- what a delete takes

  /** A comment or tick a delete names is of the deleted row's trip. */
  lemma NamedIsOfTrip(reg: Registry, rows: Rows, gone: Key, k: Key)
    requires Threaded(reg) && ThreadsCascade(reg) && Ticked(reg) && Gathered(rows)
    requires gone in rows && k in Named(reg, rows, gone) && k.table in DISCUSSION
    ensures k in rows && TripOf(rows, k) == TripOf(rows, gone) && (gone.table.Comments? || gone.table.TripItems?)
  {
    var q :| q in reg.children(gone.table) && k in ChildrenOf(rows, q, gone.id);
    assert q.table == k.table;
    assert gone.table.Comments? || gone.table.TripItems?;
    if k.table.Comments? {
      assert Placed(rows, k);
      assert IsReply(rows, k) ==> ThreadOk(rows, k);
    } else {
      assert OnOwnNote(rows, k);
      var note := NoteOf(rows, k);
      assert Placed(rows, note);
      assert IsReply(rows, note) ==> ThreadOk(rows, note);
    }
  }

  /** What a delete may take of a trip's comments, ticks and items: what it names, or everything with its trip. */
  predicate Near(reg: Registry, rows: Rows, gone: Key, j: Key) {
    match j.table
    case Trips => j == gone
    case TripItems | Comments | NoteAcks =>
      j == gone || j in Named(reg, rows, gone) || (gone.table.Trips? && TripOf(rows, j) == Text(gone.id))
    case _ => true
  }

  function Around(reg: Registry, rows: Rows, gone: Key): set<Key> {
    {gone} + set j | j in rows && Near(reg, rows, gone, j)
  }

  /** A comment hanging off a near row is near. */
  lemma CommentIsNear(reg: Registry, rows: Rows, gone: Key, j: Key, c: Column, x: Key)
    requires Threaded(reg) && ThreadsCascade(reg) && Ticked(reg) && Declared(reg) && Founded(reg) && Gathered(rows)
    requires gone in rows && j in rows && j.table.Comments? && Near(reg, rows, gone, x) && x in rows
    requires TargetOf(reg, rows, j, c) == Some(x) && reg.Cascades(Comments, c, x.table)
    ensures Near(reg, rows, gone, j)
  {
    hide Honest, MasterComplete, Named;
    assert Placed(rows, j);
    if c.TripItemId? {
      if x == gone { ItemNames(reg, rows, gone, j); } else { RootIsUnnamed(reg, rows, gone, x); }
    } else if c.ParentId? {
      assert IsReply(rows, j) && ThreadOk(rows, j);
      if x == gone { NoteNames(reg, rows, gone, j); }
      else if x in Named(reg, rows, gone) { NamedByLink(reg, rows, gone, x); }
    }
  }

  /** A comment is named by its own link to the deleted row. */
  lemma NamedByLink(reg: Registry, rows: Rows, gone: Key, k: Key)
    requires ThreadsCascade(reg) && Ticked(reg) && k.table.Comments? && k in Named(reg, rows, gone)
    ensures k in rows
    ensures (gone.table.Comments? && Cell(rows, k, ParentId) == Text(gone.id)) ||
      (gone.table.TripItems? && Cell(rows, k, TripItemId) == Text(gone.id))
  {
    var q :| q in reg.children(gone.table) && k in ChildrenOf(rows, q, gone.id);
    assert q.table == k.table;
    assert gone.table.Comments? || gone.table.TripItems?;
  }

  lemma ItemNames(reg: Registry, rows: Rows, gone: Key, j: Key)
    requires Ticked(reg) && gone.table.TripItems? && j in rows && j.table.Comments? && Cell(rows, j, TripItemId) == Text(gone.id)
    ensures j in Named(reg, rows, gone)
  {
    var q := reg.children(TripItems)[0];
    assert q in reg.children(gone.table);
    InNamed(reg, rows, gone, q, j);
  }

  lemma NoteNames(reg: Registry, rows: Rows, gone: Key, j: Key)
    requires ThreadsCascade(reg) && gone.table.Comments? && j in rows && j.table.Comments? && Cell(rows, j, ParentId) == Text(gone.id)
    ensures j in Named(reg, rows, gone)
  {
    var q := reg.children(Comments)[0];
    assert q in reg.children(gone.table);
    InNamed(reg, rows, gone, q, j);
  }

  /** A tick of the deleted comment, of a reply to it, or of a comment on the deleted item is named. */
  lemma TickIsNamed(reg: Registry, rows: Rows, gone: Key, j: Key, x: Key)
    requires ThreadsCascade(reg) && Ticked(reg) && j in rows && j.table.NoteAcks?
    requires x.table.Comments? && Cell(rows, j, CommentId) == Text(x.id) && (x == gone || x in Named(reg, rows, gone))
    ensures j in Named(reg, rows, gone)
  {
    if x != gone { NamedByLink(reg, rows, gone, x); }
    var q := reg.children(gone.table)[1];
    assert q in reg.children(gone.table);
    if x != gone {
      assert gone.table.TripItems? ==> ViaHop(rows, j, Hop(CommentId, Comments, TripItemId), gone.id);
      assert gone.table.Comments? ==> ViaHop(rows, j, Hop(CommentId, Comments, ParentId), gone.id);
    }
    InNamed(reg, rows, gone, q, j);
  }

  lemma TickIsNear(reg: Registry, rows: Rows, gone: Key, j: Key, c: Column, x: Key)
    requires ThreadsCascade(reg) && Ticked(reg) && Gathered(rows)
    requires gone in rows && j in rows && j.table.NoteAcks? && Near(reg, rows, gone, x) && x in rows
    requires TargetOf(reg, rows, j, c) == Some(x) && reg.Cascades(NoteAcks, c, x.table)
    ensures Near(reg, rows, gone, j)
  {
    hide Named;
    assert OnOwnNote(rows, j);
    if c.CommentId? && (x == gone || x in Named(reg, rows, gone)) { TickIsNamed(reg, rows, gone, j, x); }
  }

  lemma AroundIsClosed(reg: Registry, rows: Rows, gone: Key, j: Key)
    requires Threaded(reg) && ThreadsCascade(reg) && Ticked(reg) && Declared(reg) && Founded(reg)
    requires SchemaOk(reg, rows) && Gathered(rows) && gone in rows && j in rows && Hangs(reg, rows, j, Around(reg, rows, gone))
    ensures j in Around(reg, rows, gone)
  {
    hide SchemaOk, Honest, MasterComplete, Threaded, ThreadsCascade, Ticked, Gathered, Named, Hangs;
    var c, x := HangsBy(reg, rows, j, Around(reg, rows, gone));
    GoneIsNear(reg, rows, gone);
    match j.table
    case Comments => CommentIsNear(reg, rows, gone, j, c, x);
    case NoteAcks => TickIsNear(reg, rows, gone, j, c, x);
    case TripItems => ItemIsNear(reg, rows, gone, j, c, x);
    case Trips => assert false;
    case _ =>
  }

  lemma GoneIsNear(reg: Registry, rows: Rows, gone: Key)
    ensures Near(reg, rows, gone, gone)
  {
  }

  lemma ItemIsNear(reg: Registry, rows: Rows, gone: Key, j: Key, c: Column, x: Key)
    requires Declared(reg) && Founded(reg) && j in rows && j.table.TripItems? && Near(reg, rows, gone, x)
    requires TargetOf(reg, rows, j, c) == Some(x) && reg.Cascades(TripItems, c, x.table)
    ensures Near(reg, rows, gone, j)
  {
    hide Honest, MasterComplete, Named;
    assert x.table.Trips? && reg.side(Trips) == OnMaster && c.TripId?;
  }

  /** Of a trip's comments and ticks a delete takes exactly what it names, in its own trip. */
  lemma DiscussionGoesAsNamed(reg: Registry, rows: Rows, gone: Key, from: Feed, trip: string, k: Key)
    requires Threaded(reg) && ThreadsCascade(reg) && Ticked(reg) && Declared(reg) && Founded(reg)
    requires SchemaOk(reg, rows) && Gathered(rows) && reg.side(gone.table) == SideOf(from) && Holds(rows, from, gone)
    requires gone != Key(Trips, trip) && k.table in DISCUSSION
    ensures TakesWhatItNames(reg, rows, gone, from, TripFeed(trip), k)
  {
    hide SchemaOk, MasterComplete, TripComplete, Honest, Gathered, Named, Hangs, Threaded, ThreadsCascade, Ticked;
    forall j | j in rows && Hangs(reg, rows, j, Around(reg, rows, gone)) ensures j in Around(reg, rows, gone) {
      AroundIsClosed(reg, rows, gone, j);
    }
    DoomedIsLeast(reg, rows, {gone}, Around(reg, rows, gone));
    DoomedIsClosed(reg, rows, {gone});
    if k in Named(reg, rows, gone) {
      NamedIsOfTrip(reg, rows, gone, k);
      NamedIsDoomed(reg, rows, gone, k);
      SidesOf(reg);
    }
    if k == gone { SidesOf(reg); }
  }

  /** So every delete owns what it takes of them. */
  lemma DiscussionDeletesOwn(reg: Registry, db: Db, e: Event, trip: string)
    requires Threaded(reg) && ThreadsCascade(reg) && Ticked(reg) && Declared(reg) && Founded(reg)
    requires SchemaOk(reg, db.rows) && Gathered(db.rows)
    ensures OwnDelete(reg, db, e, TripFeed(trip), DISCUSSION)
  {
    hide SchemaOk, Declared, Gathered, Threaded, ThreadsCascade, Ticked, Founded, TakesWhatItNames;
    if Deletes(reg, db, e) && KeyOf(e.m) != Key(Trips, trip) {
      forall k: Key | Asked(reg, TripFeed(trip), DISCUSSION, k.table)
        ensures TakesWhatItNames(reg, db.rows, KeyOf(e.m), e.p.feed, TripFeed(trip), k)
      {
        DiscussionGoesAsNamed(reg, db.rows, KeyOf(e.m), e.p.feed, trip, k);
      }
    }
  }
}
