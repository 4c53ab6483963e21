// A note thread is one level deep and stays in its trip, so the rows a comment
// delete names are exactly the rows the database takes with it
// (internal/store/notethreads.go, the comments entry of tables_registry.go).
module Threads {
  import opened Values
  import opened Vocabulary
  import opened Merging
  import opened Registry
  import opened Database
  import opened Stamping
  import opened Guards
  import opened Pipeline
  import opened System
  import opened Steps
  import opened Effects
  import opened Cascading

  function ParentOf(rows: Rows, k: Key): Key {
    Key(Comments, AsText(Cell(rows, k, ParentId)))
  }

  predicate IsReply(rows: Rows, k: Key) {
    k in rows && k.table.Comments? && Cell(rows, k, ParentId) != Null
  }

  /** A reply's parent is there, is no reply itself, and is of the same trip. */
  predicate ThreadOk(rows: Rows, k: Key) {
    && Cell(rows, k, ParentId).Text? && ParentOf(rows, k) in rows
    && Cell(rows, ParentOf(rows, k), ParentId) == Null
    && TripOf(rows, ParentOf(rows, k)) == TripOf(rows, k)
  }

  ghost predicate OneLevel(rows: Rows) {
    forall k {:trigger ThreadOk(rows, k)} | IsReply(rows, k) :: ThreadOk(rows, k)
  }

  /** What the registry must say about comments and their ticks. */
  ghost predicate Threaded(reg: Registry) {
    && reg.side(Comments) == OnTrip && reg.guard(Comments) == CommentRules && reg.stamp(Comments) == OfComment
    && !reg.retirable(Comments)
    && {TripId, ParentId} <= reg.columns(Comments)
    && Get(reg.defaults(Comments), ParentId) == Null && Get(reg.defaults(Comments), TripId) == Null
    && reg.link(Comments, ParentId) == Some(Link(Comments, Cascade, false))
  }

  /** The gate's say about a comment that was written. */
  lemma CommentJudged(reg: Registry, a: Rows, p: Partition, w: Env, sent: Mutation, m: Mutation)
    requires Threaded(reg) && Founded(reg) && SchemaOk(reg, a)
    requires m.table.Comments? && !m.op.Delete? && PassedGate(reg, a, p, w, sent, m) && p.feed.TripFeed?
    ensures KeyOf(m) in a ==> ParentId !in m.fields && TripOf(a, KeyOf(m)) == Text(p.Trip())
    ensures Names(m, TripId).Some? ==> Names(m, TripId).value == p.Trip()
    ensures KeyOf(m) !in a ==> Names(m, TripId).Some?
    ensures KeyOf(m) !in a && AsText(Get(m.fields, ParentId)) != "" ==>
      FirstNote(a, p.Trip(), AsText(Get(m.fields, ParentId)))
  {
    hide SchemaOk, JudgeComment, FirstNote;
    var m1 := StampOwned(reg.stamp(sent.table), sent, KeyOf(sent) in a, p.actor, w);
    GateLets(reg, a, p, w, sent, m);
    assert Judge(reg, a, m1, p) == JudgeComment(a, m1, p);
    if KeyOf(m) in a { TripIsThere(reg, a, KeyOf(m)); }
    ThreadRuled(a, m1, p);
    TripNamed(a, m1, p);
  }

  /** The thread rule fixes an old comment's parent and judges a new one's. */
  lemma ThreadRuled(a: Rows, m: Mutation, p: Partition)
    requires !m.op.Delete? && JudgeComment(a, m, p).Pass?
    ensures var r := JudgeComment(a, m, p).m;
      if KeyOf(m) in a then ParentId !in r.fields
      else Get(r.fields, ParentId) == Get(m.fields, ParentId) &&
           (AsText(Get(m.fields, ParentId)) != "" ==> FirstNote(a, p.Trip(), AsText(Get(m.fields, ParentId))))
  {
    var v := JudgeThread(a, m, p);
    ThreadIsSound(a, m, p);
    LinkIsSound(a, v.m, IdeaId, Ideas, p.Trip());
    var w := JudgeLink(a, v.m, IdeaId, Ideas, p.Trip());
    LinkIsSound(a, w.m, DayEntryId, DayEntries, p.Trip());
  }

  /** No rule of a comment strips its trip. */
  lemma TripNamed(a: Rows, m: Mutation, p: Partition)
    requires JudgeComment(a, m, p).Pass?
    ensures Names(JudgeComment(a, m, p).m, TripId) == Names(m, TripId)
  {
    var v := JudgeThread(a, m, p);
    ThreadKeepsTrip(a, m, p);
  }

  lemma ThreadKeepsTrip(a: Rows, m: Mutation, p: Partition)
    requires JudgeThread(a, m, p).Pass?
    ensures Names(JudgeThread(a, m, p).m, TripId) == Names(m, TripId)
  {
  }

  /** What the empty id must be for a new comment that names it as its parent: a first note of the trip. */
  predicate RootOk(a: Rows, m: Mutation, trip: string) {
    KeyOf(m) !in a && Get(m.fields, ParentId) == Text("") ==>
      m.id != "" && Cell(a, Key(Comments, ""), ParentId) == Null && TripOf(a, Key(Comments, "")) == Text(trip)
  }

  /** A written comment is its partition's, and an old one keeps its parent. */
  lemma WrittenComment(reg: Registry, a: Rows, b: Rows, p: Partition, w: Env, sent: Mutation, m: Mutation)
    requires Threaded(reg) && Founded(reg) && SchemaOk(reg, a) && SchemaOk(reg, b)
    requires m.table.Comments? && !m.op.Delete? && PassedGate(reg, a, p, w, sent, m) && p.feed.TripFeed?
    requires KeyOf(m) in b && b[KeyOf(m)] == RowAfter(reg, a, m)
    ensures TripOf(b, KeyOf(m)) == Text(p.Trip())
    ensures if KeyOf(m) in a
      then Cell(b, KeyOf(m), ParentId) == Cell(a, KeyOf(m), ParentId) && TripOf(a, KeyOf(m)) == Text(p.Trip())
      else Cell(b, KeyOf(m), ParentId) == Stored(Get(m.fields, ParentId)) &&
           (AsText(Get(m.fields, ParentId)) != "" ==> FirstNote(a, p.Trip(), AsText(Get(m.fields, ParentId))))
  {
    hide SchemaOk, PassedGate, FirstNote, RowAfter;
    CommentJudged(reg, a, p, w, sent, m);
    WrittenCell(reg, a, m, ParentId);
    WrittenCell(reg, a, m, TripId);
    TripIsThere(reg, b, KeyOf(m));
  }

  /** The written comment keeps the rule exactly when the empty id does not slip past it. */
  lemma WrittenThread(reg: Registry, a: Rows, b: Rows, m: Mutation, trip: string)
    requires Threaded(reg) && OneLevel(a) && SchemaOk(reg, a) && SchemaOk(reg, b)
    requires KeyOf(m) in b && m.table.Comments?
    requires forall j: Key | j != KeyOf(m) && j.table.Comments? :: Load(b, j) == Load(a, j)
    requires TripOf(b, KeyOf(m)) == Text(trip)
    requires if KeyOf(m) in a
      then Cell(b, KeyOf(m), ParentId) == Cell(a, KeyOf(m), ParentId) && TripOf(a, KeyOf(m)) == Text(trip)
      else Cell(b, KeyOf(m), ParentId) == Stored(Get(m.fields, ParentId)) &&
           (AsText(Get(m.fields, ParentId)) != "" ==> FirstNote(a, trip, AsText(Get(m.fields, ParentId))))
    ensures IsReply(b, KeyOf(m)) ==> (ThreadOk(b, KeyOf(m)) <==> RootOk(a, m, trip))
    ensures !IsReply(b, KeyOf(m)) ==> RootOk(a, m, trip)
  {
    var k := KeyOf(m);
    if IsReply(b, k) {
      LinkNames(reg, b, k, ParentId);
      if k in a {
        LinkNames(reg, a, k, ParentId);
        assert IsReply(a, k) && ThreadOk(a, k);
        if ParentOf(b, k) != k { assert Load(b, ParentOf(b, k)) == Load(a, ParentOf(b, k)); }
      } else if ParentOf(b, k) != k {
        assert Load(b, ParentOf(b, k)) == Load(a, ParentOf(b, k));
      }
    }
  }

  /** A row that named a comment before still finds it as it was. */
  lemma OtherThreads(reg: Registry, a: Rows, b: Rows, p: Partition, w: Env, m: Mutation, k: Key)
    requires Threaded(reg) && OneLevel(a) && SchemaOk(reg, a)
    requires !m.op.Delete? && b == Written(reg, a, p, w, m)
    requires m.table.Comments? && KeyOf(m) in a ==>
      Cell(b, KeyOf(m), ParentId) == Cell(a, KeyOf(m), ParentId) && TripOf(b, KeyOf(m)) == TripOf(a, KeyOf(m))
    requires k != KeyOf(m) && IsReply(b, k)
    ensures ThreadOk(b, k)
  {
    WrittenRows(reg, a, p, w, m, k);
    assert IsReply(a, k) && ThreadOk(a, k);
    WrittenRows(reg, a, p, w, m, ParentOf(a, k));
  }

  /** A write keeps threads one level deep exactly when a parent named by the empty id is a first note. */
  lemma WriteKeepsThreads(reg: Registry, a: Rows, b: Rows, p: Partition, w: Env, sent: Mutation, m: Mutation, source: Source)
    requires Threaded(reg) && Founded(reg) && OneLevel(a) && SchemaOk(reg, a) && SchemaOk(reg, b)
    requires !m.op.Delete? && Sourced(reg, a, p, w, sent, m, source) && b == Written(reg, a, p, w, m)
    requires reg.side(m.table) == SideOf(p.feed)
    ensures OneLevel(b) <==> (m.table.Comments? ==> RootOk(a, m, p.Trip()))
  {
    var k := KeyOf(m);
    WrittenRows(reg, a, p, w, m, k);
    if m.table.Comments? {
      WrittenComment(reg, a, b, p, w, sent, m);
      forall j: Key | j != k && j.table.Comments? ensures Load(b, j) == Load(a, j) { WrittenRows(reg, a, p, w, m, j); }
      WrittenThread(reg, a, b, m, p.Trip());
    }
    forall j | IsReply(b, j) && j != k ensures ThreadOk(b, j) { OtherThreads(reg, a, b, p, w, m, j); }
  }

  lemma DeleteKeepsThreads(reg: Registry, a: Rows, b: Rows, gone: Key)
    requires Threaded(reg) && Founded(reg) && OneLevel(a) && SchemaOk(reg, b) && b == Deleted(reg, a, gone)
    ensures OneLevel(b)
  {
    forall k | IsReply(b, k) ensures ThreadOk(b, k) {
      DeletedCell(reg, a, gone, k, ParentId);
      DeletedCell(reg, a, gone, k, TripId);
      assert IsReply(a, k) && ThreadOk(a, k);
      LinkNames(reg, b, k, ParentId);
      DeletedCell(reg, a, gone, ParentOf(b, k), ParentId);
      DeletedCell(reg, a, gone, ParentOf(b, k), TripId);
    }
  }

  /** While no comment has the empty id, none is created with it, and threads stay one level deep. */
  lemma StepKeepsThreads(reg: Registry, a: Rows, b: Rows, s: Step)
    requires Threaded(reg) && Founded(reg) && OneLevel(a) && SchemaOk(reg, a) && SchemaOk(reg, b) && Acted(reg, a, b, s)
    requires Key(Comments, "") !in b
    ensures OneLevel(b)
  {
    match s.act
    case Wrote(w, sent, m, source) =>
      WriteKeepsThreads(reg, a, b, s.p, w, sent, m, source);
      if m.table.Comments? && KeyOf(m) !in a && Get(m.fields, ParentId) == Text("") {
        WrittenRows(reg, a, s.p, w, m, KeyOf(m));
        WrittenCell(reg, a, m, ParentId);
        LinkNames(reg, b, KeyOf(m), ParentId);
        assert false;
      }
    case Removed(_, _, m) => DeleteKeepsThreads(reg, a, b, KeyOf(m));
    case _ =>
  }

  // ------------------------------------------------------------ the comment cascade

  /** The children the registry declares for a comment, and nothing else hanging off one. */
  ghost predicate ThreadsCascade(reg: Registry) {
    && reg.children(Comments) ==
         [ChildQuery(Comments, {ParentId}, {}), ChildQuery(NoteAcks, {CommentId}, {Hop(CommentId, Comments, ParentId)})]
    && (forall t, c :: reg.Cascades(t, c, Comments) <==> (t.Comments? && c.ParentId?) || (t.NoteAcks? && c.CommentId?))
    && (forall t, c :: !reg.Cascades(t, c, NoteAcks))
  }

  /** The ids collected for a comment's delete are the whole of what the database takes with it. */
  lemma CommentCascadeIsExact(reg: Registry, rows: Rows, k: Key)
    requires ThreadsCascade(reg) && OneLevel(rows) && k in rows && k.table.Comments?
    ensures Doomed(reg, rows, {k}) == {k} + Named(reg, rows, k)
  {
    var all := {k} + Named(reg, rows, k);
    var replies, acks := reg.children(Comments)[0], reg.children(Comments)[1];
    assert replies in reg.children(k.table) && acks in reg.children(k.table);
    forall j | j in rows && Hangs(reg, rows, j, all) ensures j in all { HangsInThread(reg, rows, k, j); }
    DoomedIsLeast(reg, rows, {k}, all);
    var doomed := Doomed(reg, rows, {k});
    DoomedIsClosed(reg, rows, {k});
    forall j | j in Named(reg, rows, k) ensures j in doomed { NamedHangs(reg, rows, k, j, doomed); }
  }

  lemma HangsInThread(reg: Registry, rows: Rows, k: Key, j: Key)
    requires ThreadsCascade(reg) && OneLevel(rows) && k in rows && k.table.Comments?
    requires Hangs(reg, rows, j, {k} + Named(reg, rows, k))
    ensures j in Named(reg, rows, k)
  {
    var replies, acks := reg.children(Comments)[0], reg.children(Comments)[1];
    assert replies in reg.children(k.table) && acks in reg.children(k.table);
    var c :| c in rows[j].fields && TargetOf(reg, rows, j, c).Some? &&
      TargetOf(reg, rows, j, c).value in {k} + Named(reg, rows, k) && reg.link(j.table, c).value.onDelete == Cascade;
    var t := TargetOf(reg, rows, j, c).value;
    assert reg.Cascades(j.table, c, t.table);
    assert t.table.Comments?;
    if t == k {
      assert j in ChildrenOf(rows, if j.table.Comments? then replies else acks, k.id);
    } else {
      assert IsChild(rows, replies, k.id, t);
      assert IsReply(rows, j) ==> ThreadOk(rows, j);
      assert j.table.NoteAcks?;
      assert ViaHop(rows, j, Hop(CommentId, Comments, ParentId), k.id);
      assert j in ChildrenOf(rows, acks, k.id);
    }
  }

  lemma NamedHangs(reg: Registry, rows: Rows, k: Key, j: Key, doomed: set<Key>)
    requires ThreadsCascade(reg) && k in doomed && k.table.Comments? && ClosedUnder(reg, rows, doomed)
    requires j in Named(reg, rows, k)
    ensures j in doomed
  {
    assert reg.Cascades(Comments, ParentId, Comments) && reg.Cascades(NoteAcks, CommentId, Comments);
    if j.table.Comments? {
      LinkDooms(reg, rows, j, ParentId, doomed);
    } else if Cell(rows, j, CommentId) == Text(k.id) {
      LinkDooms(reg, rows, j, CommentId, doomed);
    } else {
      assert ViaHop(rows, j, Hop(CommentId, Comments, ParentId), k.id);
      LinkDooms(reg, rows, Key(Comments, Cell(rows, j, CommentId).text), ParentId, doomed);
      LinkDooms(reg, rows, j, CommentId, doomed);
    }
  }
}
