// The roster every connection is sent: who has which shared trip open, as far
// as both may know (internal/api/hub.go). The hub's fields change under its
// lock, one critical section at a time; the questions in between are asked
// without it.
module Rosters {
  import opened Values

  type ConnId = nat

  /** Who has which trips open. */
  type Viewing = map<string, set<string>>

  /** Whether a user may be sent a trip's events. */
  type May = (string, string) -> bool

  /** The people a user is shown, with the trips shared with each. */
  type Roster = map<string, set<string>>

  /** How many frames a connection may fall behind by. */
  const QUEUE := 64

  datatype Frame = Frame(gen: nat, roster: Roster)

  /** One connection: `waiting` frames are queued, `rosters` are the roster frames ever queued. */
  datatype Peer = Peer(user: string, viewing: string, rosterSent: nat, waiting: nat, stopped: bool, rosters: seq<Frame>)

  datatype State = State(conns: set<ConnId>, peers: map<ConnId, Peer>, rosterGen: nat)

  // ------------------------------------------------------------------ the roster

  /** The trips of `other` both are allowed. */
  function Shared(viewing: Viewing, may: May, user: string, other: string): set<string>
    requires other in viewing
  {
    set t | t in viewing[other] && may(t, user) && may(t, other)
  }

  function RosterFor(viewing: Viewing, may: May, user: string): Roster {
    map other | other in viewing && other != user && Shared(viewing, may, user, other) != {} ::
      Shared(viewing, may, user, other)
  }

  /** Somebody is listed under a trip exactly when they have it open and both may see it. */
  lemma ListedExactly(viewing: Viewing, may: May, user: string, other: string, trip: string)
    ensures other in RosterFor(viewing, may, user) && trip in RosterFor(viewing, may, user)[other] <==>
      other != user && other in viewing && trip in viewing[other] && may(trip, user) && may(trip, other)
    ensures other in RosterFor(viewing, may, user) ==> RosterFor(viewing, may, user)[other] != {}
  {
    if other in viewing && trip in viewing[other] && may(trip, user) && may(trip, other) {
      assert trip in Shared(viewing, may, user, other);
    }
  }

  /** Who views, among these connections. */
  predicate Views(peers: map<ConnId, Peer>, c: ConnId, user: string) {
    c in peers && peers[c].viewing != "" && peers[c].user == user
  }

  function ViewingOf(conns: set<ConnId>, peers: map<ConnId, Peer>): Viewing {
    var users := set c | c in conns && c in peers && peers[c].viewing != "" :: peers[c].user;
    map u | u in users :: set c | c in conns && Views(peers, c, u) :: peers[c].viewing
  }

  /** A user has a trip open exactly when a connection of theirs does. */
  lemma ViewedExactly(conns: set<ConnId>, peers: map<ConnId, Peer>, user: string, trip: string)
    ensures user in ViewingOf(conns, peers) && trip in ViewingOf(conns, peers)[user] <==>
      trip != "" && exists c | c in conns && c in peers :: peers[c].user == user && peers[c].viewing == trip
  {
    if c :| c in conns && c in peers && peers[c].user == user && peers[c].viewing == trip && trip != "" {
      assert user in ViewingOf(conns, peers);
    }
  }

  // --------------------------------------------------------- the locked sections

  function Registered(s: State, c: ConnId, user: string): State {
    s.(conns := s.conns + {c}, peers := s.peers[c := Peer(user, "", 0, 0, false, [])])
  }

  function Left(s: State, c: ConnId): State
    requires c in s.peers
  {
    s.(conns := s.conns - {c}, peers := s.peers[c := s.peers[c].(stopped := true)])
  }

  function Opened(s: State, c: ConnId, trip: string): State
    requires c in s.peers
  {
    s.(peers := s.peers[c := s.peers[c].(viewing := trip)])
  }

  /** A frame of another kind: a full queue drops the peer instead of waiting for it. */
  function Queued(p: Peer): Peer {
    if p.waiting < QUEUE then p.(waiting := p.waiting + 1) else p.(stopped := true)
  }

  /** A roster is queued only when it is newer than what the peer holds. */
  function Offered(p: Peer, f: Frame): Peer {
    if f.gen <= p.rosterSent then p
    else if p.waiting < QUEUE then p.(rosterSent := f.gen, waiting := p.waiting + 1, rosters := p.rosters + [f])
    else p.(rosterSent := f.gen, stopped := true)
  }

  /** The connections a roster broadcast goes to. */
  function TargetsOf(conns: set<ConnId>, only: Option<ConnId>): set<ConnId> {
    if only.None? then conns else conns * {only.value}
  }

  /** What a broadcast sends one target; a newcomer with nobody to be told about is sent nothing. */
  predicate Silent(only: bool, roster: Roster) {
    only && roster == map[]
  }

  // ---------------------------------------------------------------- as they run

  class Hub {
    var conns: set<ConnId>
    var peers: map<ConnId, Peer>
    var rosterGen: nat

    function Snapshot(): State
      reads this
    {
      State(conns, peers, rosterGen)
    }

    constructor ()
      ensures Snapshot() == State({}, map[], 0)
    {
      conns, peers, rosterGen := {}, map[], 0;
    }

    method Register(c: ConnId, user: string)
      requires c !in peers
      modifies this
      ensures Snapshot() == Registered(old(Snapshot()), c, user)
    {
      peers := peers[c := Peer(user, "", 0, 0, false, [])];
      conns := conns + {c};
    }

    /** Whether the roster has to be broadcast again. */
    method Unregister(c: ConnId) returns (wasViewing: bool)
      requires c in peers
      modifies this
      ensures Snapshot() == Left(old(Snapshot()), c) && wasViewing == (old(peers)[c].viewing != "")
    {
      peers := peers[c := peers[c].(stopped := true)];
      conns := conns - {c};
      wasViewing := peers[c].viewing != "";
    }

    method SetViewing(c: ConnId, trip: string) returns (changed: bool)
      requires c in peers
      modifies this
      ensures Snapshot() == Opened(old(Snapshot()), c, trip) && changed == (old(peers)[c].viewing != trip)
    {
      changed := peers[c].viewing != trip;
      peers := peers[c := peers[c].(viewing := trip)];
    }

    /** The locked first half of a broadcast: number it, and note who views what and whom to tell. */
    method TakeSnapshot(only: Option<ConnId>) returns (gen: nat, viewing: Viewing, targets: set<ConnId>)
      requires conns <= peers.Keys
      modifies this`rosterGen
      ensures gen == rosterGen == old(rosterGen) + 1
      ensures viewing == ViewingOf(conns, peers) && targets == TargetsOf(conns, only)
    {
      rosterGen := rosterGen + 1;
      gen := rosterGen;
      viewing, targets := map[], {};
      var todo := conns;
      ghost var done := {};
      while todo != {}
        invariant todo <= conns && done == conns - todo && rosterGen == gen
        invariant viewing == ViewingOf(done, peers) && targets == TargetsOf(done, only)
      {
        var c := PickOne(todo);
        if only.None? || c == only.value { targets := targets + {c}; }
        ViewingGrows(done, peers, c);
        var p := peers[c];
        if p.viewing != "" {
          var trips := if p.user in viewing then viewing[p.user] else {};
          viewing := viewing[p.user := trips + {p.viewing}];
        }
        todo, done := todo - {c}, done + {c};
      }
      assert done == conns;
    }

    /** The unlocked middle: one target's roster. */
    static method Members(viewing: Viewing, may: May, user: string) returns (roster: Roster)
      ensures roster == RosterFor(viewing, may, user)
    {
      roster := map[];
      var todo := viewing.Keys;
      ghost var done: set<string> := {};
      while todo != {}
        invariant todo <= viewing.Keys && done == viewing.Keys - todo
        invariant roster == Listed(viewing, may, user, done)
      {
        var other := PickOne(todo);
        if other != user {
          var shared := SharedTrips(viewing[other], may, user, other);
          if shared != {} { roster := roster[other := shared]; }
        }
        todo, done := todo - {other}, done + {other};
      }
      assert roster == RosterFor(viewing, may, user);
    }

    static method SharedTrips(trips: set<string>, may: May, user: string, other: string) returns (shared: set<string>)
      ensures shared == set t | t in trips && may(t, user) && may(t, other)
    {
      shared := {};
      var todo := trips;
      while todo != {}
        invariant todo <= trips && shared == set t | t in trips && t !in todo && may(t, user) && may(t, other)
      {
        var trip := PickOne(todo);
        if may(trip, user) && may(trip, other) { shared := shared + {trip}; }
        todo := todo - {trip};
      }
    }

    /** The locked second half, for one target. */
    method Deliver(c: ConnId, only: bool, gen: nat, roster: Roster)
      requires c in peers
      modifies this`peers
      ensures peers == if Silent(only, roster) then old(peers) else old(peers)[c := Offered(old(peers)[c], Frame(gen, roster))]
    {
      if only && |roster| == 0 {
        EmptyRoster(roster);
        return;
      }
      if gen > peers[c].rosterSent {
        peers := peers[c := peers[c].(rosterSent := gen)];
        Enqueue(c, Some(Frame(gen, roster)));
      }
      assert peers == old(peers)[c := Offered(old(peers)[c], Frame(gen, roster))];
    }

    /** Hands one frame to the peer's pump, or gives up on the peer. */
    method Enqueue(c: ConnId, roster: Option<Frame>)
      requires c in peers
      modifies this`peers
      ensures peers == old(peers)[c :=
        if old(peers)[c].waiting < QUEUE && roster.Some? then Queued(old(peers)[c]).(rosters := old(peers)[c].rosters + [roster.value])
        else Queued(old(peers)[c])]
    {
      var p := peers[c];
      if p.waiting < QUEUE {
        peers := peers[c := p.(waiting := p.waiting + 1, rosters := if roster.Some? then p.rosters + [roster.value] else p.rosters)];
      } else {
        peers := peers[c := p.(stopped := true)];
      }
    }
  }

  /** The roster with only some of the people looked at. */
  function Listed(viewing: Viewing, may: May, user: string, some: set<string>): Roster {
    map other | other in viewing && other in some && other != user && Shared(viewing, may, user, other) != {} ::
      Shared(viewing, may, user, other)
  }

  lemma EmptyRoster(roster: Roster)
    requires |roster| == 0
    ensures roster == map[]
  {
  }

  /** One more connection adds its own viewing, and no other. */
  lemma ViewingGrows(some: set<ConnId>, peers: map<ConnId, Peer>, c: ConnId)
    requires c in peers
    ensures var p, was := peers[c], ViewingOf(some, peers);
      ViewingOf(some + {c}, peers) ==
        if p.viewing == "" then was
        else was[p.user := (if p.user in was then was[p.user] else {}) + {p.viewing}]
  {
    hide ViewingOf;
    var p, was, now := peers[c], ViewingOf(some, peers), ViewingOf(some + {c}, peers);
    var grown := if p.viewing == "" then was else was[p.user := (if p.user in was then was[p.user] else {}) + {p.viewing}];
    forall u: string ensures u in now <==> u in grown {
      ViewersGrow(some, peers, c, u);
    }
    forall u | u in now ensures now[u] == grown[u] {
      forall t: string ensures t in now[u] <==> t in grown[u] {
        ViewedExactly(some, peers, u, t);
        ViewedExactly(some + {c}, peers, u, t);
        if p.viewing != "" && u == p.user && t == p.viewing { assert c in some + {c} && Views(peers, c, u); }
      }
    }
    assert now == grown;
  }

  lemma ViewersGrow(some: set<ConnId>, peers: map<ConnId, Peer>, c: ConnId, u: string)
    requires c in peers
    ensures u in ViewingOf(some + {c}, peers) <==>
      u in ViewingOf(some, peers) || (peers[c].viewing != "" && peers[c].user == u)
  {
    if peers[c].viewing != "" && peers[c].user == u { assert c in some + {c}; }
  }
}
