// The declared registry is what the witnesses' pushes ask of one
// (internal/store/tables_registry.go, internal/store/schema.sql).
module Fittings {
  import opened Values
  import opened Vocabulary
  import opened Merging
  import opened Registry
  import opened Laws
  import opened Arrivals
  import Catalog

  lemma TripsFitHolds()
    ensures TripsFit(Catalog.Declaration())
  {
    hide Catalog.LinkOf;
    var reg := Catalog.Declaration();
    ColumnsAre(Trips);
    assert Plain("year") in Catalog.Named({"year", "start_date", "end_date", "status", "attributes", "packing_closed_at", "imported"});
    forall c: Column ensures Loose(reg, Trips, c) && (reg.link(Trips, c).Some? ==> c.SeriesId?) {
      LinkIs(Trips, c);
      TripKey(c);
    }
  }

  lemma TripKey(c: Column)
    ensures Catalog.LinkOf(Trips, c).Some? ==>
      c.SeriesId? && !Catalog.LinkOf(Trips, c).value.mandatory && Get(Catalog.DefaultsOf(Trips), c) == Null
  {
  }

  lemma CommentKey(c: Column)
    requires Catalog.LinkOf(Comments, c).Some?
    ensures !c.TripId? ==> !Catalog.LinkOf(Comments, c).value.mandatory && Get(Catalog.DefaultsOf(Comments), c) == Null
    ensures !c.Body? && !c.AuthorId?
    ensures c.TripId? ==> Catalog.LinkOf(Comments, c).value.parent == Trips
    ensures c.ParentId? ==> Catalog.LinkOf(Comments, c).value.parent == Comments
    ensures c.TripItemId? ==> Catalog.LinkOf(Comments, c).value.parent == TripItems
  {
  }

  lemma CommentsFitHolds()
    ensures CommentsFit(Catalog.Declaration())
  {
    hide Catalog.LinkOf;
    var reg := Catalog.Declaration();
    ColumnsAre(Comments);
    forall c: Column
      ensures && (!c.TripId? ==> Loose(reg, Comments, c)) && (c.Body? || c.AuthorId? ==> reg.link(Comments, c).None?)
        && (c.TripId? ==> Links(reg, Comments, c, Trips)) && (c.ParentId? ==> Links(reg, Comments, c, Comments))
        && (c.TripItemId? ==> Links(reg, Comments, c, TripItems))
    {
      LinkIs(Comments, c);
      if Catalog.LinkOf(Comments, c).Some? { CommentKey(c); }
    }
  }

  lemma TickKey(c: Column)
    ensures Catalog.LinkOf(NoteAcks, c) ==
      if c.TripId? then Some(Link(Trips, Cascade, true)) else if c.CommentId? then Some(Link(Comments, Cascade, true)) else None
  {
  }

  lemma TicksFitHolds()
    ensures TicksFit(Catalog.Declaration())
  {
    hide Catalog.LinkOf;
    var reg := Catalog.Declaration();
    ColumnsAre(NoteAcks);
    forall c: Column
      ensures && (reg.link(NoteAcks, c).Some? ==> c.TripId? || c.CommentId?)
        && (c.TripId? ==> Links(reg, NoteAcks, c, Trips)) && (c.CommentId? ==> Links(reg, NoteAcks, c, Comments))
    {
      LinkIs(NoteAcks, c);
      TickKey(c);
    }
  }

  lemma ItemKey(c: Column)
    requires Catalog.LinkOf(TripItems, c).Some?
    ensures !c.TripId? ==> !Catalog.LinkOf(TripItems, c).value.mandatory && Get(Catalog.DefaultsOf(TripItems), c) == Null
    ensures !c.Name? && (c.TripId? ==> Catalog.LinkOf(TripItems, c).value.parent == Trips)
  {
  }

  lemma ItemsFitHolds()
    ensures ItemsFit(Catalog.Declaration())
  {
    hide Catalog.LinkOf;
    var reg := Catalog.Declaration();
    ColumnsAre(TripItems);
    forall c: Column
      ensures && (!c.TripId? ==> Loose(reg, TripItems, c)) && (c.Name? ==> reg.link(TripItems, c).None?)
        && (c.TripId? ==> Links(reg, TripItems, c, Trips))
    {
      LinkIs(TripItems, c);
      if Catalog.LinkOf(TripItems, c).Some? { ItemKey(c); }
    }
  }

  lemma MemberKey(c: Column)
    ensures Catalog.LinkOf(TripMembers, c) == if c.TripId? then Some(Link(Trips, Cascade, true)) else None
  {
  }

  lemma MembersFitHolds()
    ensures MembersFit(Catalog.Declaration())
  {
    hide Catalog.LinkOf;
    var reg := Catalog.Declaration();
    ColumnsAre(TripMembers);
    forall c: Column ensures (reg.link(TripMembers, c).Some? ==> c.TripId?) && (c.TripId? ==> Links(reg, TripMembers, c, Trips)) {
      LinkIs(TripMembers, c);
      MemberKey(c);
    }
  }
}
