// Roster broadcasts overtake each other between their snapshot and their sends
// (internal/api/hub.go, broadcastRoster). Whatever the interleaving, a peer is
// never queued an older roster after a newer one, and when nothing is in flight
// every peer's last roster is that of the viewing as it is.
module Broadcasting {
  import opened Values
  import opened Rosters

  /** A broadcast in flight: called, or numbered and sending to the targets that are left. */
  datatype Call =
    | Called(whom: Option<ConnId>)
    | Sending(only: bool, gen: nat, viewing: Viewing, may: May, targets: set<ConnId>)

  datatype System = System(hub: State, calls: seq<Call>)

  datatype Event =
    /** A socket opens: it is registered, and its handler asks for the roster. */
    | Connect(c: ConnId, user: string)
    /** It closes, or stops being followed; the roster is broadcast if it viewed something. */
    | Disconnect(c: ConnId)
    | View(c: ConnId, trip: string)
    /** A call takes its snapshot; `may` are the answers it will get, each asked once. */
    | Snap(i: nat, may: May)
    /** A call gets to one of its targets. */
    | Serve(i: nat, c: ConnId)
    /** Another frame is queued to a peer, or one is written. */
    | Other(c: ConnId)
    | Pump(c: ConnId)

  function WithPeer(s: System, c: ConnId, p: Peer): System {
    s.(hub := s.hub.(peers := s.hub.peers[c := p]))
  }

  function Rebroadcast(s: System, hub: State, changed: bool): System {
    System(hub, if changed then s.calls + [Called(None)] else s.calls)
  }

  /** What call `i` sends `c`. */
  function RosterOf(s: System, i: nat, c: ConnId): Roster
    requires i < |s.calls| && s.calls[i].Sending? && c in s.hub.peers
  {
    RosterFor(s.calls[i].viewing, s.calls[i].may, s.hub.peers[c].user)
  }

  function Served(s: System, i: nat, c: ConnId): System
    requires i < |s.calls| && s.calls[i].Sending? && c in s.hub.peers
  {
    var call, roster := s.calls[i], RosterOf(s, i, c);
    var rest := s.(calls := s.calls[i := call.(targets := call.targets - {c})]);
    if Silent(call.only, roster) then rest else WithPeer(rest, c, Offered(s.hub.peers[c], Frame(call.gen, roster)))
  }

  function Snapped(s: System, i: nat, may: May): System
    requires i < |s.calls| && s.calls[i].Called?
  {
    var hub := s.hub.(rosterGen := s.hub.rosterGen + 1);
    System(hub, s.calls[i := Sending(s.calls[i].whom.Some?, hub.rosterGen, ViewingOf(hub.conns, hub.peers), may,
                                     TargetsOf(hub.conns, s.calls[i].whom))])
  }

  /** A step; an event that cannot happen changes nothing. */
  function Next(s: System, e: Event): System {
    match e
    case Connect(c, user) => if c in s.hub.peers then s else System(Registered(s.hub, c, user), s.calls + [Called(Some(c))])
    case Disconnect(c) =>
      if c !in s.hub.conns || c !in s.hub.peers then s else Rebroadcast(s, Left(s.hub, c), s.hub.peers[c].viewing != "")
    case View(c, trip) =>
      if c !in s.hub.peers then s else Rebroadcast(s, Opened(s.hub, c, trip), s.hub.peers[c].viewing != trip)
    case Snap(i, may) => if i < |s.calls| && s.calls[i].Called? then Snapped(s, i, may) else s
    case Serve(i, c) =>
      if i < |s.calls| && s.calls[i].Sending? && c in s.calls[i].targets && c in s.hub.peers then Served(s, i, c) else s
    case Other(c) => if c in s.hub.peers then WithPeer(s, c, Queued(s.hub.peers[c])) else s
    case Pump(c) =>
      if c in s.hub.peers && s.hub.peers[c].waiting > 0
      then WithPeer(s, c, s.hub.peers[c].(waiting := s.hub.peers[c].waiting - 1)) else s
  }

  function Run(events: seq<Event>): System {
    if events == [] then System(State({}, map[], 0), []) else Next(Run(events[..|events| - 1]), events[|events| - 1])
  }

  // ---------------------------------------------------------- newer and newer

  /** A peer's rosters are numbered upwards, none past the newest it was offered. */
  predicate Rising(p: Peer) {
    && (forall i, j | 0 <= i < j < |p.rosters| :: p.rosters[i].gen < p.rosters[j].gen)
    && (forall i | 0 <= i < |p.rosters| :: 0 < p.rosters[i].gen <= p.rosterSent)
  }

  ghost predicate PeersNumbered(s: System) {
    s.hub.conns <= s.hub.peers.Keys &&
    forall c | c in s.hub.peers :: Rising(s.hub.peers[c]) && s.hub.peers[c].rosterSent <= s.hub.rosterGen
  }

  /** Every snapshot has a number of its own, and nobody holds one not yet taken. */
  ghost predicate Numbered(s: System) {
    && PeersNumbered(s)
    && (forall i | 0 <= i < |s.calls| && s.calls[i].Sending? ::
         0 < s.calls[i].gen <= s.hub.rosterGen && s.calls[i].targets <= s.hub.peers.Keys)
    && (forall i, j | 0 <= i < j < |s.calls| && s.calls[i].Sending? && s.calls[j].Sending? :: s.calls[i].gen != s.calls[j].gen)
  }

  lemma OfferKeepsRising(p: Peer, f: Frame)
    requires Rising(p) && f.gen > 0
    ensures Rising(Offered(p, f)) && Offered(p, f).rosterSent <= if f.gen > p.rosterSent then f.gen else p.rosterSent
  {
  }

  lemma NextKeepsPeers(s: System, e: Event)
    requires Numbered(s)
    ensures PeersNumbered(Next(s, e))
  {
    hide RosterFor, ViewingOf, Offered;
    match e
    case Serve(i, c) =>
      if i < |s.calls| && s.calls[i].Sending? && c in s.calls[i].targets && c in s.hub.peers {
        OfferKeepsRising(s.hub.peers[c], Frame(s.calls[i].gen, RosterOf(s, i, c)));
      }
    case _ =>
  }

  lemma NextKeepsNumbered(s: System, e: Event)
    requires Numbered(s)
    ensures Numbered(Next(s, e))
  {
    NextKeepsPeers(s, e);
    hide RosterFor, ViewingOf, Offered, Rising;
  }

  /** Frames queued to one peer have strictly increasing generations, whatever overtakes what. */
  lemma {:induction false} GenerationsRise(events: seq<Event>)
    ensures Numbered(Run(events))
  {
    if events != [] {
      GenerationsRise(events[..|events| - 1]);
      NextKeepsNumbered(Run(events[..|events| - 1]), events[|events| - 1]);
    }
  }

  // --------------------------------------------------------------- settling down

  /** What a peer shows: its last roster, or the empty one a socket starts with. */
  function Shows(p: Peer): Roster {
    if p.rosters == [] then map[] else p.rosters[|p.rosters| - 1].roster
  }

  /** What it should show. */
  function Due(s: System, may: May, c: ConnId): Roster
    requires c in s.hub.peers
  {
    RosterFor(ViewingOf(s.hub.conns, s.hub.peers), may, s.hub.peers[c].user)
  }

  /** Call `i` has yet to send `c` something newer than what it holds. */
  predicate Owes(s: System, i: nat, c: ConnId) {
    i < |s.calls| && s.calls[i].Sending? && c in s.calls[i].targets && c in s.hub.peers &&
    s.calls[i].gen > s.hub.peers[c].rosterSent && !Silent(s.calls[i].only, RosterOf(s, i, c))
  }

  /** From generation `g` on, all that `c` holds or is owed is what it should show, and it holds or is owed that one. */
  ghost predicate SettledAt(s: System, may: May, c: ConnId, g: nat)
    requires c in s.hub.peers
  {
    && (forall i: nat | Owes(s, i, c) && s.calls[i].gen >= g :: RosterOf(s, i, c) == Due(s, may, c))
    && (s.hub.peers[c].rosterSent >= g ==> Shows(s.hub.peers[c]) == Due(s, may, c))
    && (s.hub.peers[c].rosterSent < g ==> exists i: nat :: Owes(s, i, c) && s.calls[i].gen == g)
  }

  /** A newcomer nobody has told anything, whose own call is still to come. */
  ghost predicate Untold(s: System, c: ConnId)
    requires c in s.hub.peers
  {
    && s.hub.peers[c].rosterSent == 0 && s.hub.peers[c].rosters == [] && (forall i: nat :: !Owes(s, i, c))
    && Called(Some(c)) in s.calls
  }

  /** A connection that is still followed and kept up. */
  predicate Present(s: System, c: ConnId) {
    c in s.hub.conns && c in s.hub.peers && !s.hub.peers[c].stopped
  }

  ghost predicate SettledFor(s: System, may: May, c: ConnId)
    requires c in s.hub.peers
  {
    Untold(s, c) || exists g :: SettledAt(s, may, c, g)
  }

  /** While every change has been noticed by some snapshot, every present peer is settled or about to be. */
  ghost predicate Settling(s: System, may: May) {
    && (forall i | 0 <= i < |s.calls| && s.calls[i].Sending? :: s.calls[i].may == may)
    && (Called(None) !in s.calls ==> forall c | Present(s, c) :: SettledFor(s, may, c))
  }

  /** Two states in which a peer holds, is owed and should show the same. */
  ghost predicate Alike(s: System, t: System, may: May, c: ConnId) {
    && c in s.hub.peers && c in t.hub.peers
    && t.hub.peers[c].rosterSent == s.hub.peers[c].rosterSent && t.hub.peers[c].rosters == s.hub.peers[c].rosters
    && Due(t, may, c) == Due(s, may, c)
    && (forall i: nat :: Owes(t, i, c) <==> Owes(s, i, c))
    && (forall i: nat | Owes(s, i, c) :: t.calls[i].gen == s.calls[i].gen && RosterOf(t, i, c) == RosterOf(s, i, c))
  }

  lemma AlikeSettles(s: System, t: System, may: May, c: ConnId)
    requires Alike(s, t, may, c) && SettledFor(s, may, c) && (Called(Some(c)) in s.calls ==> Called(Some(c)) in t.calls)
    ensures SettledFor(t, may, c)
  {
    hide RosterOf, Due, Shows;
    if !Untold(s, c) {
      var g :| SettledAt(s, may, c, g);
      SettledAlike(s, t, may, c, g);
    }
  }

  lemma SettledAlike(s: System, t: System, may: May, c: ConnId, g: nat)
    requires Alike(s, t, may, c) && SettledAt(s, may, c, g)
    ensures SettledAt(t, may, c, g)
  {
    hide RosterFor, ViewingOf, Silent;
    assert Shows(t.hub.peers[c]) == Shows(s.hub.peers[c]);
    if s.hub.peers[c].rosterSent < g {
      var i: nat :| Owes(s, i, c) && s.calls[i].gen == g;
      assert Owes(t, i, c);
    }
  }

  /** A call appended, nobody is owed more; the viewing unchanged, nobody should show anything else. */
  lemma AppendedIsAlike(s: System, t: System, may: May, c: ConnId, call: Call)
    requires c in s.hub.peers && c in t.hub.peers && call.Called? && (t.calls == s.calls || t.calls == s.calls + [call])
    requires t.hub.peers[c].rosterSent == s.hub.peers[c].rosterSent && t.hub.peers[c].rosters == s.hub.peers[c].rosters
    requires t.hub.peers[c].user == s.hub.peers[c].user
    requires ViewingOf(t.hub.conns, t.hub.peers) == ViewingOf(s.hub.conns, s.hub.peers)
    ensures Alike(s, t, may, c)
  {
    hide RosterFor, ViewingOf;
  }

  // ------------------------------------------------------------------- the steps

  /** The newest snapshot settles everybody it goes to. */
  lemma SnapSettles(s: System, i: nat, may: May, c: ConnId)
    requires Numbered(s) && i < |s.calls| && s.calls[i] == Called(None) && Present(s, c)
    ensures SettledAt(Snapped(s, i, may), may, c, s.hub.rosterGen + 1)
  {
    hide RosterFor, ViewingOf;
    var t := Snapped(s, i, may);
    assert Owes(t, i, c);
  }

  /** A newcomer's own snapshot settles it: with a frame to come, or with nothing to say. */
  lemma OwnSnapSettles(s: System, i: nat, may: May, c: ConnId)
    requires Numbered(s) && i < |s.calls| && s.calls[i] == Called(Some(c)) && Present(s, c) && SettledFor(s, may, c)
    ensures exists g :: SettledAt(Snapped(s, i, may), may, c, g)
  {
    hide RosterFor, ViewingOf;
    var t := Snapped(s, i, may);
    assert t.calls[i].targets == {c} && RosterOf(t, i, c) == Due(t, may, c) == Due(s, may, c);
    forall j: nat ensures Owes(t, j, c) <==> Owes(s, j, c) || (j == i && Due(s, may, c) != map[]) { }
    if Untold(s, c) {
      if Due(s, may, c) == map[] { assert SettledAt(t, may, c, 0); }
      else { assert Owes(t, i, c); assert SettledAt(t, may, c, s.hub.rosterGen + 1); }
    } else {
      var g :| SettledAt(s, may, c, g);
      SettledStays(s, t, may, c, g, i);
    }
  }

  /** One more right call keeps a settled peer settled. */
  lemma SettledStays(s: System, t: System, may: May, c: ConnId, g: nat, i: nat)
    requires c in s.hub.peers && c in t.hub.peers && SettledAt(s, may, c, g)
    requires t.hub.peers[c] == s.hub.peers[c] && Due(t, may, c) == Due(s, may, c)
    requires forall j: nat :: Owes(t, j, c) ==> Owes(s, j, c) || j == i
    requires forall j: nat | Owes(s, j, c) :: Owes(t, j, c) && t.calls[j].gen == s.calls[j].gen && RosterOf(t, j, c) == RosterOf(s, j, c)
    requires Owes(t, i, c) ==> RosterOf(t, i, c) == Due(t, may, c)
    ensures SettledAt(t, may, c, g)
  {
    hide RosterFor, ViewingOf, Silent;
    if s.hub.peers[c].rosterSent < g {
      var j: nat :| Owes(s, j, c) && s.calls[j].gen == g;
      assert Owes(t, j, c);
    }
  }

  /** Another's snapshot is nothing to a peer it does not go to. */
  lemma ForeignSnapIsAlike(s: System, i: nat, may: May, c: ConnId, other: ConnId)
    requires i < |s.calls| && s.calls[i] == Called(Some(other)) && c != other && c in s.hub.peers
    ensures Alike(s, Snapped(s, i, may), may, c)
  {
    hide RosterFor, ViewingOf;
  }

  /** Serving somebody else changes nothing for a peer. */
  lemma ForeignServeIsAlike(s: System, i: nat, may: May, c: ConnId, other: ConnId)
    requires i < |s.calls| && s.calls[i].Sending? && other in s.hub.peers && c in s.hub.peers && c != other
    ensures Alike(s, Served(s, i, other), may, c)
  {
    ServingKeepsViewing(s, i, other);
    hide RosterFor, ViewingOf, Offered;
  }

  /** Frames change nobody's viewing. */
  lemma ServingKeepsViewing(s: System, i: nat, c: ConnId)
    requires i < |s.calls| && s.calls[i].Sending? && c in s.hub.peers
    ensures var t := Served(s, i, c).hub;
      t.conns == s.hub.conns && ViewingOf(t.conns, t.peers) == ViewingOf(s.hub.conns, s.hub.peers)
  {
    SameViewing(s.hub.conns, s.hub.peers, c, Served(s, i, c).hub.peers[c]);
    hide ViewingOf;
  }

  /** A connection has a trip open for a user. */
  predicate Opens(conns: set<ConnId>, peers: map<ConnId, Peer>, c: ConnId, user: string, trip: string) {
    c in conns && Views(peers, c, user) && peers[c].viewing == trip
  }

  /** The same connections viewing the same is the same viewing. */
  lemma SameOpens(a: set<ConnId>, p: map<ConnId, Peer>, b: set<ConnId>, q: map<ConnId, Peer>)
    requires forall c, u, t :: Opens(a, p, c, u, t) <==> Opens(b, q, c, u, t)
    ensures ViewingOf(a, p) == ViewingOf(b, q)
  {
    var v, w := ViewingOf(a, p), ViewingOf(b, q);
    forall u ensures u in v <==> u in w {
      OpensUser(a, p, u);
      OpensUser(b, q, u);
    }
    forall u | u in v ensures v[u] == w[u] {
      forall t ensures t in v[u] <==> t in w[u] {
        OpensTrip(a, p, u, t);
        OpensTrip(b, q, u, t);
      }
    }
  }

  lemma OpensUser(a: set<ConnId>, p: map<ConnId, Peer>, u: string)
    ensures u in ViewingOf(a, p) <==> exists c, t :: Opens(a, p, c, u, t)
  {
    if u in ViewingOf(a, p) {
      var c :| c in a && c in p && p[c].viewing != "" && p[c].user == u;
      assert Opens(a, p, c, u, p[c].viewing);
    }
  }

  lemma OpensTrip(a: set<ConnId>, p: map<ConnId, Peer>, u: string, t: string)
    ensures u in ViewingOf(a, p) && t in ViewingOf(a, p)[u] <==> exists c :: Opens(a, p, c, u, t)
  {
    ViewedExactly(a, p, u, t);
    if c :| c in a && Views(p, c, u) && p[c].viewing == t { assert Opens(a, p, c, u, t); }
    if c :| Opens(a, p, c, u, t) { assert c in a && Views(p, c, u) && p[c].viewing == t; }
  }

  /** A peer with the same user and viewing is the same to the viewing. */
  lemma SameViewing(conns: set<ConnId>, peers: map<ConnId, Peer>, c: ConnId, p: Peer)
    requires c in peers && p.user == peers[c].user && p.viewing == peers[c].viewing
    ensures ViewingOf(conns, peers[c := p]) == ViewingOf(conns, peers)
  {
    SameOpens(conns, peers[c := p], conns, peers);
  }

  /** A connection that views nothing comes and goes unnoticed. */
  lemma IdleComesAndGoes(conns: set<ConnId>, peers: map<ConnId, Peer>, c: ConnId, p: Peer)
    requires p.viewing == "" && (c in peers ==> peers[c].viewing == "")
    ensures ViewingOf(conns + {c}, peers[c := p]) == ViewingOf(conns, peers) == ViewingOf(conns - {c}, peers[c := p])
  {
    SameOpens(conns + {c}, peers[c := p], conns, peers);
    SameOpens(conns - {c}, peers[c := p], conns, peers);
  }

  lemma ServingKeepsDue(s: System, i: nat, may: May, c: ConnId)
    requires i < |s.calls| && s.calls[i].Sending? && c in s.hub.peers
    ensures Due(Served(s, i, c), may, c) == Due(s, may, c)
  {
    hide RosterFor, ViewingOf, Silent;
    ServingKeepsViewing(s, i, c);
  }

  /** Serving a peer pays what the call owed it and nothing else; what it is still owed is newer. */
  lemma ServingPays(s: System, i: nat, c: ConnId, j: nat)
    requires Numbered(s) && i < |s.calls| && s.calls[i].Sending? && c in s.calls[i].targets && c in s.hub.peers
    ensures var t := Served(s, i, c);
      && (Owes(t, j, c) <==> j != i && Owes(s, j, c) && s.calls[j].gen > t.hub.peers[c].rosterSent)
      && (j < |s.calls| && s.calls[j].Sending? ==>
        t.calls[j].Sending? && t.calls[j].gen == s.calls[j].gen && RosterOf(t, j, c) == RosterOf(s, j, c))
  {
    hide RosterFor, ViewingOf, Rising;
  }

  /** What a served peer holds afterwards, if it keeps up. */
  lemma ServedPeer(s: System, i: nat, c: ConnId)
    requires i < |s.calls| && s.calls[i].Sending? && c in s.calls[i].targets && c in s.hub.peers
    requires !Served(s, i, c).hub.peers[c].stopped
    ensures var p := Served(s, i, c).hub.peers[c];
      if Owes(s, i, c) then p.rosterSent == s.calls[i].gen && Shows(p) == RosterOf(s, i, c)
      else p == s.hub.peers[c]
  {
    hide RosterFor, ViewingOf;
  }

  /** A served peer that keeps up stays settled: what it was sent is right, or something newer is to come. */
  lemma ServeSettles(s: System, i: nat, may: May, c: ConnId, g: nat)
    requires Numbered(s) && i < |s.calls| && s.calls[i].Sending? && c in s.calls[i].targets && c in s.hub.peers
    requires SettledAt(s, may, c, g) && !Served(s, i, c).hub.peers[c].stopped
    ensures SettledAt(Served(s, i, c), may, c, g)
  {
    hide RosterFor, ViewingOf, Offered, Silent, Due, Shows, SettledAt;
    var t := Served(s, i, c);
    ServingKeepsDue(s, i, may, c);
    ServedPeer(s, i, c);
    forall j: nat
      ensures Owes(t, j, c) <==> j != i && Owes(s, j, c) && s.calls[j].gen > t.hub.peers[c].rosterSent
      ensures Owes(t, j, c) ==> t.calls[j].gen == s.calls[j].gen && RosterOf(t, j, c) == RosterOf(s, j, c)
    {
      ServingPays(s, i, c, j);
    }
    PaidSettles(s, t, i, may, c, g);
  }

  lemma PaidSettles(s: System, t: System, i: nat, may: May, c: ConnId, g: nat)
    requires c in s.hub.peers && c in t.hub.peers && i < |s.calls| && s.calls[i].Sending? && SettledAt(s, may, c, g)
    requires Due(t, may, c) == Due(s, may, c)
    requires if Owes(s, i, c) then t.hub.peers[c].rosterSent == s.calls[i].gen && Shows(t.hub.peers[c]) == RosterOf(s, i, c)
      else t.hub.peers[c] == s.hub.peers[c]
    requires forall j: nat :: Owes(t, j, c) <==> j != i && Owes(s, j, c) && s.calls[j].gen > t.hub.peers[c].rosterSent
    requires forall j: nat | Owes(t, j, c) :: t.calls[j].gen == s.calls[j].gen && RosterOf(t, j, c) == RosterOf(s, j, c)
    ensures SettledAt(t, may, c, g)
  {
    hide RosterFor, ViewingOf, Silent, Shows;
    if t.hub.peers[c].rosterSent < g {
      var j: nat :| Owes(s, j, c) && s.calls[j].gen == g;
      assert Owes(t, j, c);
    }
  }

  /** An untold newcomer that is served something it was not owed stays untold. */
  lemma ServeKeepsUntold(s: System, i: nat, c: ConnId)
    requires i < |s.calls| && s.calls[i].Sending? && c in s.calls[i].targets && c in s.hub.peers && Untold(s, c)
    ensures Untold(Served(s, i, c), c)
  {
    hide RosterFor, ViewingOf;
    var t := Served(s, i, c);
    assert !Owes(s, i, c);
    assert t.hub.peers[c] == s.hub.peers[c];
    forall j: nat ensures !Owes(t, j, c) { assert !Owes(s, j, c); }
    var n :| 0 <= n < |s.calls| && s.calls[n] == Called(Some(c));
    assert t.calls[n] == Called(Some(c));
  }

  // --------------------------------------------------------------- every step

  lemma ConnectSettles(s: System, may: May, c0: ConnId, user: string, c: ConnId)
    requires Numbered(s) && c0 !in s.hub.peers && Present(Next(s, Connect(c0, user)), c)
    requires Present(s, c) ==> SettledFor(s, may, c)
    ensures SettledFor(Next(s, Connect(c0, user)), may, c)
  {
    var t := Next(s, Connect(c0, user));
    IdleComesAndGoes(s.hub.conns, s.hub.peers, c0, t.hub.peers[c0]);
    hide RosterFor, ViewingOf;
    if c == c0 {
      assert t.calls[|s.calls|] == Called(Some(c));
      assert Untold(t, c);
    } else {
      AppendedIsAlike(s, t, may, c, Called(Some(c0)));
      AlikeSettles(s, t, may, c);
    }
  }

  /** Somebody who viewed nothing leaves unnoticed; who did leaves a broadcast behind. */
  lemma DisconnectSettles(s: System, may: May, c0: ConnId, c: ConnId)
    requires c0 in s.hub.conns && c0 in s.hub.peers && Present(Next(s, Disconnect(c0)), c)
    requires SettledFor(s, may, c) && s.hub.peers[c0].viewing == ""
    ensures SettledFor(Next(s, Disconnect(c0)), may, c)
  {
    var t := Next(s, Disconnect(c0));
    IdleComesAndGoes(s.hub.conns, s.hub.peers, c0, t.hub.peers[c0]);
    hide RosterFor, ViewingOf;
    AppendedIsAlike(s, t, may, c, Called(None));
    AlikeSettles(s, t, may, c);
  }

  /** A step that leaves a peer's rosters and everybody's viewing alone. */
  lemma FrameSettles(s: System, may: May, c0: ConnId, p: Peer, c: ConnId)
    requires c0 in s.hub.peers && p.user == s.hub.peers[c0].user && p.viewing == s.hub.peers[c0].viewing
    requires p.rosterSent == s.hub.peers[c0].rosterSent && p.rosters == s.hub.peers[c0].rosters
    requires c in s.hub.peers && SettledFor(s, may, c)
    ensures SettledFor(WithPeer(s, c0, p), may, c)
  {
    var t := WithPeer(s, c0, p);
    SameViewing(s.hub.conns, s.hub.peers, c0, p);
    hide RosterFor, ViewingOf;
    AppendedIsAlike(s, t, may, c, Called(None));
    AlikeSettles(s, t, may, c);
  }

  lemma SnapEventSettles(s: System, may: May, i: nat, c: ConnId)
    requires Numbered(s) && i < |s.calls| && s.calls[i].Called? && Present(Snapped(s, i, may), c)
    requires Called(None) !in Snapped(s, i, may).calls && (Called(None) !in s.calls ==> SettledFor(s, may, c))
    ensures SettledFor(Snapped(s, i, may), may, c)
  {
    hide RosterFor, ViewingOf;
    var t := Snapped(s, i, may);
    if s.calls[i].whom.None? {
      SnapSettles(s, i, may, c);
    } else {
      OthersStillCalled(s, i, may, Called(None));
      if s.calls[i].whom.value == c {
        OwnSnapSettles(s, i, may, c);
      } else {
        ForeignSnapIsAlike(s, i, may, c, s.calls[i].whom.value);
        OthersStillCalled(s, i, may, Called(Some(c)));
        AlikeSettles(s, t, may, c);
      }
    }
  }

  /** Taking one snapshot leaves the other calls waiting. */
  lemma OthersStillCalled(s: System, i: nat, may: May, call: Call)
    requires i < |s.calls| && s.calls[i].Called? && call.Called? && call != s.calls[i]
    ensures call in s.calls ==> call in Snapped(s, i, may).calls
  {
    if call in s.calls {
      var j :| 0 <= j < |s.calls| && s.calls[j] == call;
      assert Snapped(s, i, may).calls[j] == call;
    }
  }

  lemma ServeEventSettles(s: System, may: May, i: nat, c0: ConnId, c: ConnId)
    requires Numbered(s) && i < |s.calls| && s.calls[i].Sending? && c0 in s.calls[i].targets && c0 in s.hub.peers
    requires Present(Served(s, i, c0), c) && c in s.hub.peers && SettledFor(s, may, c)
    ensures SettledFor(Served(s, i, c0), may, c)
  {
    hide RosterFor, ViewingOf, Offered;
    if c != c0 {
      ForeignServeIsAlike(s, i, may, c, c0);
      ServingKeepsCalls(s, i, c0, Called(Some(c)));
      AlikeSettles(s, Served(s, i, c0), may, c);
    } else if Untold(s, c) {
      ServeKeepsUntold(s, i, c);
    } else {
      var g :| SettledAt(s, may, c, g);
      ServeSettles(s, i, may, c, g);
    }
  }

  lemma ServingKeepsCalls(s: System, i: nat, c: ConnId, call: Call)
    requires i < |s.calls| && s.calls[i].Sending? && c in s.hub.peers && call.Called?
    ensures call in s.calls <==> call in Served(s, i, c).calls
  {
    hide Offered, Silent, RosterOf;
    var t := Served(s, i, c);
    if call in s.calls {
      var j :| 0 <= j < |s.calls| && s.calls[j] == call;
      assert t.calls[j] == call;
    }
    if call in t.calls {
      var j :| 0 <= j < |t.calls| && t.calls[j] == call;
      assert s.calls[j] == call;
    }
  }

  lemma NextSettlesFor(s: System, e: Event, may: May, c: ConnId)
    requires Numbered(s) && Settling(s, may) && (e.Snap? ==> e.may == may)
    requires Called(None) !in Next(s, e).calls && Present(Next(s, e), c)
    ensures SettledFor(Next(s, e), may, c)
  {
    hide RosterFor, ViewingOf, SettledFor, Offered;
    match e
    case Connect(c0, user) => if c0 !in s.hub.peers { ConnectSettles(s, may, c0, user, c); }
    case Disconnect(c0) =>
      if c0 in s.hub.conns && c0 in s.hub.peers {
        StillUncalled(s, e);
        DisconnectSettles(s, may, c0, c);
      }
    case View(c0, trip) =>
      if c0 in s.hub.peers {
        StillUncalled(s, e);
        FrameSettles(s, may, c0, s.hub.peers[c0].(viewing := trip), c);
      }
    case Snap(i, _) => if i < |s.calls| && s.calls[i].Called? { SnapEventSettles(s, may, i, c); }
    case Serve(i, c0) =>
      if i < |s.calls| && s.calls[i].Sending? && c0 in s.calls[i].targets && c0 in s.hub.peers {
        ServingKeepsCalls(s, i, c0, Called(None));
        ServedStays(s, i, c0, c);
        ServeEventSettles(s, may, i, c0, c);
      }
    case Other(c0) => if c0 in s.hub.peers { FrameSettles(s, may, c0, Queued(s.hub.peers[c0]), c); }
    case Pump(c0) =>
      if c0 in s.hub.peers && s.hub.peers[c0].waiting > 0 {
        FrameSettles(s, may, c0, s.hub.peers[c0].(waiting := s.hub.peers[c0].waiting - 1), c);
      }
  }

  /** A change of viewing leaves a call behind, so without one nothing changed. */
  lemma StillUncalled(s: System, e: Event)
    requires Called(None) !in Next(s, e).calls
    requires (e.Disconnect? && e.c in s.hub.conns && e.c in s.hub.peers) || (e.View? && e.c in s.hub.peers)
    ensures Called(None) !in s.calls && Next(s, e).calls == s.calls
    ensures e.Disconnect? ==> s.hub.peers[e.c].viewing == ""
    ensures e.View? ==> s.hub.peers[e.c].viewing == e.trip
  {
    var calls := s.calls + [Called(None)];
    assert calls[|s.calls|] == Called(None);
  }

  lemma ServedStays(s: System, i: nat, c0: ConnId, c: ConnId)
    requires i < |s.calls| && s.calls[i].Sending? && c0 in s.hub.peers && Present(Served(s, i, c0), c)
    ensures Present(s, c)
  {
    hide RosterFor;
  }

  lemma NextKeepsAnswers(s: System, e: Event, may: May)
    requires forall i | 0 <= i < |s.calls| && s.calls[i].Sending? :: s.calls[i].may == may
    requires e.Snap? ==> e.may == may
    ensures forall i | 0 <= i < |Next(s, e).calls| && Next(s, e).calls[i].Sending? :: Next(s, e).calls[i].may == may
  {
    hide RosterFor, ViewingOf, Offered, Silent;
  }

  lemma NextSettles(s: System, e: Event, may: May)
    requires Numbered(s) && Settling(s, may) && (e.Snap? ==> e.may == may)
    ensures Settling(Next(s, e), may)
  {
    hide Next, SettledFor, Numbered;
    NextKeepsAnswers(s, e, may);
    if Called(None) !in Next(s, e).calls {
      forall c | Present(Next(s, e), c) ensures SettledFor(Next(s, e), may, c) { NextSettlesFor(s, e, may, c); }
    }
  }

  lemma {:induction false} RunSettles(events: seq<Event>, may: May)
    requires forall e | e in events :: e.Snap? ==> e.may == may
    ensures Settling(Run(events), may)
  {
    hide Next, SettledFor;
    if events != [] {
      RunSettles(events[..|events| - 1], may);
      GenerationsRise(events[..|events| - 1]);
      NextSettles(Run(events[..|events| - 1]), events[|events| - 1], may);
    }
  }

  /** Nothing is in flight: every call has taken its snapshot and got to all its targets. */
  predicate Quiet(s: System) {
    forall i | 0 <= i < |s.calls| :: s.calls[i].Sending? && s.calls[i].targets == {}
  }

  /** Once every broadcast has finished, each present peer's last roster is that of the viewing as it is. */
  lemma QuietIsRight(events: seq<Event>, may: May, c: ConnId)
    requires forall e | e in events :: e.Snap? ==> e.may == may
    requires Quiet(Run(events)) && Present(Run(events), c)
    ensures Shows(Run(events).hub.peers[c]) == Due(Run(events), may, c)
  {
    hide Run, RosterFor, ViewingOf;
    RunSettles(events, may);
    QuietSettles(Run(events), may, c);
  }

  lemma QuietSettles(s: System, may: May, c: ConnId)
    requires Settling(s, may) && Quiet(s) && Present(s, c)
    ensures Shows(s.hub.peers[c]) == Due(s, may, c)
  {
    hide RosterFor, ViewingOf;
    assert Called(None) !in s.calls && Called(Some(c)) !in s.calls;
    var g :| SettledAt(s, may, c, g);
  }
}
