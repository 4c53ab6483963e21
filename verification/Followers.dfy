// When the hub gives up on a connection: when it closes, or when a frame meets a
// full queue, and never otherwise (internal/api/hub.go, enqueue). So whoever
// keeps up is told the truth once the hub is quiet.
module Followers {
  import opened Values
  import opened Rosters
  import opened Broadcasting

  /** The event queues a frame to the peer: one of another kind, or a broadcast's that owes it one. */
  predicate Frames(s: System, e: Event, c: ConnId) {
    match e
    case Other(d) => d == c && c in s.hub.peers
    case Serve(i, d) => d == c && Owes(s, i, c)
    case _ => false
  }

  /** A peer is given up on exactly when it leaves, or a frame for it finds its queue full. */
  lemma StoppedExactly(s: System, e: Event, c: ConnId)
    requires c in s.hub.peers && !s.hub.peers[c].stopped
    ensures c in Next(s, e).hub.peers
    ensures Next(s, e).hub.peers[c].stopped <==>
      (e == Disconnect(c) && c in s.hub.conns) || (Frames(s, e, c) && s.hub.peers[c].waiting >= 64)
  {
    hide RosterFor, ViewingOf;
  }

  /** And followed from its opening to its leaving. */
  lemma FollowedExactly(s: System, e: Event, c: ConnId)
    ensures c in Next(s, e).hub.conns <==>
      (c in s.hub.conns && (e == Disconnect(c) ==> c !in s.hub.peers)) || (e.Connect? && e.c == c && c !in s.hub.peers)
  {
    hide RosterFor, ViewingOf, Offered;
  }

  /** A frame with room is queued, a roster at the end of those before it; nothing else is. */
  lemma QueuedExactly(s: System, e: Event, c: ConnId)
    requires c in s.hub.peers
    ensures var p, q := s.hub.peers[c], Next(s, e).hub.peers[c];
      && (Frames(s, e, c) && p.waiting < QUEUE ==> q.waiting == p.waiting + 1)
      && (Frames(s, e, c) && p.waiting >= QUEUE ==> q.waiting == p.waiting)
      && (!Frames(s, e, c) ==> q.waiting == if e == Pump(c) && p.waiting > 0 then p.waiting - 1 else p.waiting)
      && q.rosters == p.rosters +
           if e.Serve? && Frames(s, e, c) && p.waiting < QUEUE then [Frame(s.calls[e.i].gen, RosterOf(s, e.i, c))] else []
  {
    hide RosterFor, ViewingOf;
  }

  /** What is viewed changes: a viewer leaves, or a trip is opened in place of another. */
  predicate Moves(s: System, e: Event) {
    match e
    case Disconnect(c) => c in s.hub.conns && c in s.hub.peers && s.hub.peers[c].viewing != ""
    case View(c, trip) => c in s.hub.peers && s.hub.peers[c].viewing != trip
    case _ => false
  }

  /** A roster is called for exactly when a socket opens, for it alone, or when what is viewed changes, for everybody. */
  lemma CalledExactly(s: System, e: Event)
    ensures var calls, opens := Next(s, e).calls, e.Connect? && e.c !in s.hub.peers;
      if opens || Moves(s, e) then calls == s.calls + [Called(if opens then Some(e.c) else None)] else |calls| == |s.calls|
  {
    hide RosterFor, ViewingOf, Offered;
  }

  // ------------------------------------------------------------------ over a run

  /** No frame of the run finds the peer's queue full. */
  ghost predicate KeepsUp(events: seq<Event>, c: ConnId) {
    events != [] ==>
      && KeepsUp(events[..|events| - 1], c)
      && var s := Run(events[..|events| - 1]);
         Frames(s, events[|events| - 1], c) ==> s.hub.peers[c].waiting < QUEUE
  }

  /** A connection that opened, never left and keeps up is followed. */
  lemma {:induction false} KeepingUpIsPresent(events: seq<Event>, c: ConnId)
    requires KeepsUp(events, c) && Disconnect(c) !in events && c in Run(events).hub.peers
    ensures Present(Run(events), c)
  {
    if events != [] {
      hide Next;
      var front, e := events[..|events| - 1], events[|events| - 1];
      assert events == front + [e];
      FollowedExactly(Run(front), e, c);
      if c in Run(front).hub.peers {
        KeepingUpIsPresent(front, c);
        StoppedExactly(Run(front), e, c);
      } else {
        OpensFresh(Run(front), e, c);
      }
    }
  }

  lemma OpensFresh(s: System, e: Event, c: ConnId)
    requires c !in s.hub.peers && c in Next(s, e).hub.peers
    ensures e.Connect? && e.c == c && !Next(s, e).hub.peers[c].stopped
  {
    hide RosterFor, ViewingOf, Offered;
  }

  /** So once every broadcast has finished, whoever keeps up shows the viewing as it is. */
  lemma KeepingUpIsRight(events: seq<Event>, may: May, c: ConnId)
    requires forall e | e in events :: e.Snap? ==> e.may == may
    requires Quiet(Run(events)) && KeepsUp(events, c) && Disconnect(c) !in events && c in Run(events).hub.peers
    ensures Shows(Run(events).hub.peers[c]) == Due(Run(events), may, c)
  {
    hide Run, Quiet, KeepsUp, Shows, Due;
    KeepingUpIsPresent(events, c);
    QuietIsRight(events, may, c);
  }

  /** No queue ever holds more than it may. */
  lemma {:induction false} QueuesAreBounded(events: seq<Event>, c: ConnId)
    requires c in Run(events).hub.peers
    ensures Run(events).hub.peers[c].waiting <= QUEUE
  {
    if events != [] {
      hide Next, Frames;
      var front, e := events[..|events| - 1], events[|events| - 1];
      if c in Run(front).hub.peers {
        QueuesAreBounded(front, c);
        QueuedExactly(Run(front), e, c);
      } else {
        OpensEmpty(Run(front), e, c);
      }
    }
  }

  lemma OpensEmpty(s: System, e: Event, c: ConnId)
    requires c !in s.hub.peers && c in Next(s, e).hub.peers
    ensures Next(s, e).hub.peers[c].waiting == 0
  {
    hide RosterFor, ViewingOf, Offered;
  }
}
