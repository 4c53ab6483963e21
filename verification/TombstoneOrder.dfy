// The order of a delete's tombstones (internal/store/partition.go,
// internal/store/tables.go, the `cascades` of a table spec): where a child's
// comes before its parent's, and where it does not.
module TombstoneOrder {
  import opened Values
  import opened Vocabulary
  import opened Merging
  import opened Registry
  import opened Database
  import opened Pipeline
  import opened System
  import opened Cascading
  import opened Feeds
  import opened Threads
  import opened Discussions

  /** Of two rows the later never hangs off the earlier by a cascading key. */
  ghost predicate LeafFirst(reg: Registry, rows: Rows, keys: seq<Key>) {
    forall i, j | 0 <= i < j < |keys| :: !Hangs(reg, rows, keys[j], {keys[i]})
  }

  /** No tombstone comes before that of a row hanging off its row. */
  ghost predicate LeavesFirst(reg: Registry, rows: Rows, notes: seq<Note>) {
    forall i, j | 0 <= i < j < |notes| && notes[i].deleted && notes[j].deleted :: !Hangs(reg, rows, notes[j].key, {notes[i].key})
  }

  // ------------------------------------------------------- the deleted row's own tombstone

  /** What a query follows a hop through is itself a child the delete names. */
  ghost predicate Stepped(reg: Registry) {
    forall t: Table, q: ChildQuery, h: Hop | q in reg.children(t) && h in q.via :: Direct(reg, t, h.through, h.link)
  }

  /** A row named directly hangs off the deleted one. */
  lemma DirectHangs(reg: Registry, rows: Rows, k: Key, j: Key, c: Column)
    requires j in rows && reg.Cascades(j.table, c, k.table) && Cell(rows, j, c) == Text(k.id)
    ensures Hangs(reg, rows, j, {k})
  {
    assert c in rows[j].fields && TargetOf(reg, rows, j, c) == Some(k);
  }

  /** A delete that names any row names one that hangs off the deleted row. */
  lemma SomeChildHangs(reg: Registry, rows: Rows, k: Key, j: Key) returns (x: Key)
    requires Honest(reg) && Stepped(reg) && j in Named(reg, rows, k)
    ensures x in Named(reg, rows, k) && Hangs(reg, rows, x, {k})
  {
    hide Hangs;
    var q :| q in reg.children(k.table) && j in ChildrenOf(rows, q, k.id);
    if c :| c in q.direct && Cell(rows, j, c) == Text(k.id) {
      DirectHangs(reg, rows, k, j, c);
      x := j;
    } else {
      var h :| h in q.via && ViaHop(rows, j, h, k.id);
      x := Key(h.through, Cell(rows, j, h.column).text);
      DirectHangs(reg, rows, k, x, h.link);
      assert Direct(reg, k.table, h.through, h.link);
      var r :| r in reg.children(k.table) && r.table == h.through && h.link in r.direct;
      InNamed(reg, rows, k, r, x);
    }
  }

  /** An accepted delete's entries are leaf first exactly when it takes no child along: the row's own tombstone leads. */
  lemma LeavesFirstExactly(reg: Registry, rows: Rows, w: Env, k: Key, hlc: Clock)
    requires Honest(reg) && Stepped(reg) && Fair(w)
    ensures LeavesFirst(reg, rows, Tombstones(reg, rows, w, k, hlc)) <==> KidsOf(reg, rows, k, w) == []
  {
    hide Hangs, Honest, Stepped, Named, Fair, KidsOf;
    var kids, notes := KidsOf(reg, rows, k, w), Tombstones(reg, rows, w, k, hlc);
    if kids != [] {
      KidsAreNamed(reg, rows, k, w, kids[0]);
      var x := SomeChildHangs(reg, rows, k, kids[0]);
      KidsAreNamed(reg, rows, k, w, x);
      var i :| 0 <= i < |kids| && kids[i] == x;
      assert notes[0] == Note(k, true, hlc) && notes[i + 1] == Note(x, true, hlc);
    }
  }

  // ----------------------------------------------------------------- the children's tombstones

  /** No later query of the table is of one hanging off an earlier one's. */
  ghost predicate LeafOrdered(reg: Registry, qs: seq<ChildQuery>) {
    forall i: nat, j: nat, c: Column | i <= j < |qs| :: !reg.Cascades(qs[j].table, c, qs[i].table)
  }

  /** Only the child queries of comments and packing rows are out of order. */
  ghost predicate Orderly(reg: Registry) {
    forall t: Table | !t.Comments? && !t.TripItems? :: LeafOrdered(reg, reg.children(t))
  }

  /** Rows are listed query by query. */
  lemma {:induction false} KidsByQuery(qs: seq<ChildQuery>, rows: Rows, id: string, w: Env, i: nat, j: nat) returns (m: nat, n: nat)
    requires Fair(w) && i < j < |Kids(qs, rows, id, w)|
    ensures m <= n < |qs| && Kids(qs, rows, id, w)[i].table == qs[m].table && Kids(qs, rows, id, w)[j].table == qs[n].table
  {
    var last := |qs| - 1;
    var front, list := Kids(qs[..last], rows, id, w), w.listing(ChildrenOf(rows, qs[last], id));
    assert Lists(list, ChildrenOf(rows, qs[last], id));
    if j < |front| {
      m, n := KidsByQuery(qs[..last], rows, id, w, i, j);
    } else {
      assert Kids(qs, rows, id, w)[j] in list;
      n := last;
      if i < |front| {
        m := KidIsOf(qs[..last], rows, id, w, i);
      } else {
        assert Kids(qs, rows, id, w)[i] in list;
        m := last;
      }
    }
  }

  lemma {:induction false} KidIsOf(qs: seq<ChildQuery>, rows: Rows, id: string, w: Env, i: nat) returns (m: nat)
    requires Fair(w) && i < |Kids(qs, rows, id, w)|
    ensures m < |qs| && Kids(qs, rows, id, w)[i].table == qs[m].table
  {
    var last := |qs| - 1;
    var front, list := Kids(qs[..last], rows, id, w), w.listing(ChildrenOf(rows, qs[last], id));
    assert Lists(list, ChildrenOf(rows, qs[last], id));
    if i < |front| {
      m := KidIsOf(qs[..last], rows, id, w, i);
    } else {
      assert Kids(qs, rows, id, w)[i] in list;
      m := last;
    }
  }

  lemma HangsByKey(reg: Registry, rows: Rows, j: Key, k: Key) returns (c: Column)
    requires Hangs(reg, rows, j, {k})
    ensures reg.Cascades(j.table, c, k.table) && Cell(rows, j, c) == Text(k.id)
  {
    c :| c in rows[j].fields && TargetOf(reg, rows, j, c).Some? && TargetOf(reg, rows, j, c).value in {k} &&
      reg.link(j.table, c).value.onDelete == Cascade;
  }

  lemma NoKeyNoHanging(reg: Registry, rows: Rows, j: Key, k: Key)
    requires forall c: Column :: !reg.Cascades(j.table, c, k.table)
    ensures !Hangs(reg, rows, j, {k})
  {
    if Hangs(reg, rows, j, {k}) { var c := HangsByKey(reg, rows, j, k); }
  }

  /** The children of every other table are listed leaf first, whatever the order within a query. */
  lemma ChildrenLeafFirst(reg: Registry, rows: Rows, k: Key, w: Env)
    requires Orderly(reg) && Fair(w) && !k.table.Comments? && !k.table.TripItems?
    ensures LeafFirst(reg, rows, KidsOf(reg, rows, k, w))
  {
    hide Hangs, Fair;
    var qs, kids := reg.children(k.table), KidsOf(reg, rows, k, w);
    assert LeafOrdered(reg, qs);
    forall i, j | 0 <= i < j < |kids| ensures !Hangs(reg, rows, kids[j], {kids[i]}) {
      var m, n := KidsByQuery(qs, rows, k.id, w, i, j);
      NoKeyNoHanging(reg, rows, kids[j], kids[i]);
    }
  }

  /** A tick on a comment, or a reply to it. */
  predicate Follows(rows: Rows, j: Key, comment: Key) {
    comment.table.Comments? &&
    ((j.table.NoteAcks? && Cell(rows, j, CommentId) == Text(comment.id)) ||
     (j.table.Comments? && Cell(rows, j, ParentId) == Text(comment.id)))
  }

  /** What hangs off a comment or a tick follows a comment. */
  lemma FollowsExactly(reg: Registry, rows: Rows, j: Key, k: Key)
    requires ThreadsCascade(reg) && j in rows && k.table in DISCUSSION
    ensures Hangs(reg, rows, j, {k}) <==> Follows(rows, j, k)
  {
    hide Hangs;
    if Hangs(reg, rows, j, {k}) {
      var c := HangsByKey(reg, rows, j, k);
    }
    if Follows(rows, j, k) {
      var c := if j.table.NoteAcks? then CommentId else ParentId;
      assert reg.Cascades(j.table, c, Comments);
      DirectHangs(reg, rows, k, j, c);
    }
  }

  lemma TwoLists(q: ChildQuery, r: ChildQuery, rows: Rows, id: string, w: Env)
    ensures Kids([q, r], rows, id, w) == w.listing(ChildrenOf(rows, q, id)) + w.listing(ChildrenOf(rows, r, id))
  {
    assert [q, r][..1] == [q] && [q][..0] == [] && Kids([], rows, id, w) == [];
    assert Kids([q], rows, id, w) == [] + w.listing(ChildrenOf(rows, q, id)) == w.listing(ChildrenOf(rows, q, id));
  }

  /** The comments a delete lists, and the ticks it lists after them. */
  lemma TwoQueries(reg: Registry, rows: Rows, k: Key, w: Env) returns (comments: seq<Key>, ticks: seq<Key>)
    requires ThreadsCascade(reg) && Ticked(reg) && Fair(w) && (k.table.Comments? || k.table.TripItems?)
    ensures KidsOf(reg, rows, k, w) == comments + ticks
    ensures forall j | j in comments :: j.table.Comments? && j in rows
    ensures forall j | j in ticks :: j.table.NoteAcks? && j in rows
  {
    var qs := reg.children(k.table);
    comments, ticks := w.listing(ChildrenOf(rows, qs[0], k.id)), w.listing(ChildrenOf(rows, qs[1], k.id));
    assert Lists(comments, ChildrenOf(rows, qs[0], k.id)) && Lists(ticks, ChildrenOf(rows, qs[1], k.id));
    assert qs == [qs[0], qs[1]];
    TwoLists(qs[0], qs[1], rows, k.id, w);
  }

  /** No listed tick is on a listed comment. */
  predicate TicksApart(rows: Rows, kids: seq<Key>) {
    forall t, c | t in kids && c in kids && t.table.NoteAcks? :: !Follows(rows, t, c)
  }

  /** No listed comment comes after one it replies to. */
  predicate RepliesFirst(rows: Rows, kids: seq<Key>) {
    forall i, j | 0 <= i < j < |kids| && kids[j].table.Comments? :: !Follows(rows, kids[j], kids[i])
  }

  /** So it is of a comment's children and a packing row's. */
  lemma DiscussionLeafFirstExactly(reg: Registry, rows: Rows, k: Key, w: Env)
    requires ThreadsCascade(reg) && Ticked(reg) && Fair(w) && (k.table.Comments? || k.table.TripItems?)
    ensures LeafFirst(reg, rows, KidsOf(reg, rows, k, w)) <==>
      TicksApart(rows, KidsOf(reg, rows, k, w)) && RepliesFirst(rows, KidsOf(reg, rows, k, w))
  {
    hide Hangs, Follows, ThreadsCascade, Ticked, Fair, KidsOf;
    var kids := KidsOf(reg, rows, k, w);
    var comments, ticks := TwoQueries(reg, rows, k, w);
    forall i, j | 0 <= i < j < |kids| ensures Hangs(reg, rows, kids[j], {kids[i]}) <==> Follows(rows, kids[j], kids[i]) {
      assert kids[i] in comments || kids[i] in ticks;
      assert kids[j] in comments || kids[j] in ticks;
      FollowsExactly(reg, rows, kids[j], kids[i]);
    }
    if TicksApart(rows, kids) && RepliesFirst(rows, kids) {
      forall i, j | 0 <= i < j < |kids| ensures !Hangs(reg, rows, kids[j], {kids[i]}) {
        assert kids[j] in kids && kids[i] in kids;
        assert kids[j] in comments || kids[j] in ticks;
      }
    }
    if LeafFirst(reg, rows, kids) {
      forall t, c | t in kids && c in kids && t.table.NoteAcks? ensures !Follows(rows, t, c) {
        if c.table.Comments? { TickComesLater(comments, ticks, t, c); } else { OnlyCommentsAreFollowed(rows, t, c); }
      }
    }
  }

  /** A listed comment replies to the deleted one, or hangs on the deleted item. */
  lemma ListedComment(reg: Registry, rows: Rows, k: Key, w: Env, j: Key)
    requires ThreadsCascade(reg) && Ticked(reg) && Fair(w) && (k.table.Comments? || k.table.TripItems?)
    requires j in KidsOf(reg, rows, k, w) && j.table.Comments?
    ensures j in rows && Cell(rows, j, if k.table.Comments? then ParentId else TripItemId) == Text(k.id)
  {
    KidsAreNamed(reg, rows, k, w, j);
    var q :| q in reg.children(k.table) && j in ChildrenOf(rows, q, k.id);
  }

  /** Where comments and ticks are where they belong, no listed comment replies to another. */
  lemma NobodyAnswersAChild(reg: Registry, rows: Rows, k: Key, w: Env)
    requires ThreadsCascade(reg) && Ticked(reg) && Fair(w) && Gathered(rows) && (k.table.Comments? || k.table.TripItems?)
    ensures RepliesFirst(rows, KidsOf(reg, rows, k, w))
  {
    hide ThreadsCascade, Ticked, Fair, KidsOf;
    var kids := KidsOf(reg, rows, k, w);
    forall i, j | 0 <= i < j < |kids| && kids[j].table.Comments? ensures !Follows(rows, kids[j], kids[i]) {
      if kids[i].table.Comments? {
        ListedComment(reg, rows, k, w, kids[j]);
        ListedComment(reg, rows, k, w, kids[i]);
        assert Placed(rows, kids[j]);
        if IsReply(rows, kids[j]) { assert ThreadOk(rows, kids[j]); }
      }
    }
  }

  lemma ListsNoDiscussion(reg: Registry, rows: Rows, k: Key, w: Env, j: Key)
    requires Ticked(reg) && Fair(w) && !k.table.Comments? && !k.table.TripItems? && j in KidsOf(reg, rows, k, w)
    ensures j.table !in DISCUSSION
  {
    KidsAreNamed(reg, rows, k, w, j);
    var q :| q in reg.children(k.table) && j in ChildrenOf(rows, q, k.id);
  }

  /** Of any table: a row's children are listed leaf first exactly when no listed tick is on a listed comment, and no
      listed comment comes after one it replies to. */
  lemma ChildrenLeafFirstExactly(reg: Registry, rows: Rows, k: Key, w: Env)
    requires ThreadsCascade(reg) && Ticked(reg) && Orderly(reg) && Fair(w)
    ensures LeafFirst(reg, rows, KidsOf(reg, rows, k, w)) <==>
      TicksApart(rows, KidsOf(reg, rows, k, w)) && RepliesFirst(rows, KidsOf(reg, rows, k, w))
  {
    hide LeafFirst, Orderly, Fair, ThreadsCascade, Ticked;
    if k.table.Comments? || k.table.TripItems? {
      DiscussionLeafFirstExactly(reg, rows, k, w);
    } else {
      ChildrenLeafFirst(reg, rows, k, w);
      forall j | j in KidsOf(reg, rows, k, w) ensures j.table !in DISCUSSION { ListsNoDiscussion(reg, rows, k, w, j); }
    }
  }

  /** Where comments and ticks are where they belong, ticks alone can be out of place. */
  lemma GatheredLeafFirstExactly(reg: Registry, rows: Rows, k: Key, w: Env)
    requires ThreadsCascade(reg) && Ticked(reg) && Orderly(reg) && Fair(w) && Gathered(rows)
    ensures LeafFirst(reg, rows, KidsOf(reg, rows, k, w)) <==> TicksApart(rows, KidsOf(reg, rows, k, w))
  {
    hide LeafFirst, Orderly, Fair, ThreadsCascade, Ticked, TicksApart, RepliesFirst;
    ChildrenLeafFirstExactly(reg, rows, k, w);
    if k.table.Comments? || k.table.TripItems? {
      NobodyAnswersAChild(reg, rows, k, w);
    } else {
      ChildrenLeafFirst(reg, rows, k, w);
    }
  }

  lemma OnlyCommentsAreFollowed(rows: Rows, j: Key, k: Key)
    requires !k.table.Comments?
    ensures !Follows(rows, j, k)
  {
  }

  lemma TickComesLater(comments: seq<Key>, ticks: seq<Key>, t: Key, c: Key)
    requires (forall j | j in comments :: j.table.Comments?) && (forall j | j in ticks :: j.table.NoteAcks?)
    requires t in comments + ticks && c in comments + ticks && t.table.NoteAcks? && c.table.Comments?
    ensures exists i, j :: 0 <= i < j < |comments + ticks| && (comments + ticks)[i] == c && (comments + ticks)[j] == t
  {
    assert c in comments && t in ticks;
    var i :| 0 <= i < |comments| && comments[i] == c;
    var j :| 0 <= j < |ticks| && ticks[j] == t;
    assert (comments + ticks)[i] == c && (comments + ticks)[|comments| + j] == t;
  }
}
