/**
 * The realtime socket hub: admission, authentication, broadcasts and shutdown, cut into the steps
 * that the server's mutex and its channels make atomic.
 */
module Hub {
  import opened Common

  const MAX_CONNECTIONS := 256
  const MAX_USER_CONNECTIONS := 8
  const QUEUE_SIZE := 32

  // Users are naturals; zero is nobody.
  datatype Frame = AuthOk(user: nat) | Ack(peer: nat) | News(broadcast: nat)

  // queue is the outgoing channel, sent every frame that was ever put into it.
  datatype Peer = Peer(user: nat, queue: seq<Frame>, sent: seq<Frame>, stopped: bool)

  // A publication after its snapshot: targets before next have been offered the frame.
  datatype Broadcast = Broadcast(wanted: set<nat>, targets: seq<nat>, next: nat)

  datatype Sockets = Sockets(bound: bool, closed: bool, pending: nat, conns: map<nat, Peer>, peers: set<nat>,
                     broadcasts: map<nat, Broadcast>)

  const NEWCOMER := Peer(0, [], [], false)

  datatype Action =
    | Bind
    | Admit
    | Upgrade(peer: nat, upgraded: bool)
    // A valid first frame for this user; anything else is a Stop.
    | Authenticate(peer: nat, user: nat)
    | Acknowledge(peer: nat)
    | Publish(broadcast: nat, users: set<nat>, targets: seq<nat>)
    | Offer(broadcast: nat)
    | WriteOut(peer: nat)
    | Stop(peer: nat)
    | Leave(peer: nat)
    | Close

  predicate Registered(h: Sockets, p: nat)
  {
    p in h.peers && p in h.conns
  }

  function OfUser(h: Sockets, u: nat): set<nat>
  {
    set p | p in h.peers && p in h.conns && h.conns[p].user == u
  }

  function Total(h: Sockets): nat
  {
    h.pending + |h.peers|
  }

  // The peers a publication to these users reaches. Nobody is never a recipient.
  function Wanted(h: Sockets, users: set<nat>): set<nat>
  {
    set p | p in h.peers && p in h.conns && h.conns[p].user in users && h.conns[p].user != 0
  }

  predicate Lists(targets: seq<nat>, ps: set<nat>)
  {
    && (forall i, j :: 0 <= i < j < |targets| ==> targets[i] != targets[j])
    && (forall i :: 0 <= i < |targets| ==> targets[i] in ps)
    && (forall p :: p in ps ==> p in targets)
  }

  predicate Enabled(h: Sockets, a: Action)
  {
    match a
    case Bind => true
    case Admit => true
    case Upgrade(p, _) => 0 < h.pending && p !in h.conns
    case Authenticate(p, u) => Registered(h, p) && h.conns[p].user == 0 && u != 0
    case Acknowledge(p) => Registered(h, p) && h.conns[p].user != 0
    case Publish(b, users, targets) => b !in h.broadcasts && Lists(targets, Wanted(h, users))
    case Offer(b) => b in h.broadcasts && h.broadcasts[b].next < |h.broadcasts[b].targets|
                     && h.broadcasts[b].targets[h.broadcasts[b].next] in h.conns
    case WriteOut(p) => p in h.conns && h.conns[p].user != 0 && h.conns[p].queue != []
    case Stop(p) => p in h.conns
    case Leave(p) => p in h.conns
    case Close => true
  }

  // An offer never blocks: a full queue costs the peer its connection.
  function Offered(p: Peer, f: Frame): Peer
  {
    if p.stopped then p
    else if |p.queue| < QUEUE_SIZE then p.(queue := p.queue + [f], sent := p.sent + [f])
    else p.(stopped := true)
  }

  predicate Full(h: Sockets)
  {
    h.closed || !h.bound || Total(h) >= MAX_CONNECTIONS
  }

  function Apply(h: Sockets, a: Action): Sockets
    requires Enabled(h, a)
  {
    match a
    case Bind => h.(bound := true)
    case Admit => if Full(h) then h else h.(pending := h.pending + 1)
    case Upgrade(p, upgraded) =>
      var h' := h.(pending := h.pending - 1);
      if !upgraded then h'
      else if h.closed then h'.(conns := h.conns[p := NEWCOMER.(stopped := true)])
      else h'.(conns := h.conns[p := NEWCOMER], peers := h.peers + {p})
    case Authenticate(p, u) =>
      var peer := h.conns[p];
      if h.closed || |OfUser(h, u)| >= MAX_USER_CONNECTIONS then h.(conns := h.conns[p := peer.(stopped := true)])
      else h.(conns := h.conns[p := peer.(user := u, queue := peer.queue + [AuthOk(u)], sent := peer.sent + [AuthOk(u)])])
    case Acknowledge(p) => h.(conns := h.conns[p := Offered(h.conns[p], Ack(p))])
    case Publish(b, users, targets) => h.(broadcasts := h.broadcasts[b := Broadcast(users, targets, 0)])
    case Offer(b) =>
      var cast := h.broadcasts[b];
      var p := cast.targets[cast.next];
      h.(conns := h.conns[p := Offered(h.conns[p], News(b))], broadcasts := h.broadcasts[b := cast.(next := cast.next + 1)])
    case WriteOut(p) => h.(conns := h.conns[p := h.conns[p].(queue := h.conns[p].queue[1..])])
    case Stop(p) => h.(conns := h.conns[p := h.conns[p].(stopped := true)])
    case Leave(p) => h.(conns := h.conns[p := h.conns[p].(stopped := true)], peers := h.peers - {p})
    case Close => h.(closed := true)
  }

  // ---- The invariant ------------------------------------------------------------------------

  predicate LimitsInv(h: Sockets)
  {
    && h.peers <= h.conns.Keys
    && Total(h) <= MAX_CONNECTIONS
    && (forall p :: p in h.conns ==> |h.conns[p].queue| <= QUEUE_SIZE)
  }

  ghost predicate UsersInv(h: Sockets)
  {
    forall u: nat :: u != 0 ==> |OfUser(h, u)| <= MAX_USER_CONNECTIONS
  }

  // What is queued is the end of what was sent; the first frame of all is auth:ok.
  predicate Greeted(p: Peer)
  {
    && |p.queue| <= |p.sent| && p.sent[|p.sent| - |p.queue|..] == p.queue
    && (p.user == 0 ==> p.sent == [])
    && (p.user != 0 ==> p.sent != [] && p.sent[0] == AuthOk(p.user))
    && (forall i :: 0 < i < |p.sent| ==> !p.sent[i].AuthOk?)
  }

  // Each peer hears its own acknowledgements and news meant for its user, every item once.
  predicate Addressed(h: Sockets, p: nat)
    requires p in h.conns
  {
    && (forall i :: 0 <= i < |h.conns[p].sent| && h.conns[p].sent[i].Ack? ==> h.conns[p].sent[i].peer == p)
    && (forall i :: 0 <= i < |h.conns[p].sent| && h.conns[p].sent[i].News? ==> Reached(h, h.conns[p].sent[i].broadcast, p))
    && (forall i, j :: 0 <= i < j < |h.conns[p].sent| && h.conns[p].sent[i].News? ==> h.conns[p].sent[i] != h.conns[p].sent[j])
  }

  // p has had its turn in broadcast b.
  predicate Reached(h: Sockets, b: nat, p: nat)
  {
    b in h.broadcasts && h.broadcasts[b].next <= |h.broadcasts[b].targets| && p in h.broadcasts[b].targets[..h.broadcasts[b].next]
  }

  predicate FramesInv(h: Sockets)
  {
    forall p :: p in h.conns ==> Greeted(h.conns[p]) && Addressed(h, p)
  }

  predicate TargetsInv(h: Sockets)
  {
    forall b :: b in h.broadcasts ==> TargetsOk(h, b)
  }

  predicate IsNamed(h: Sockets, cast: Broadcast, p: nat)
  {
    p in h.conns && h.conns[p].user != 0 && h.conns[p].user in cast.wanted
  }

  // Targets are authenticated as users the publication names, and whoever had a turn got the frame
  // or lost the connection.
  predicate TargetsOk(h: Sockets, b: nat)
    requires b in h.broadcasts
  {
    var cast := h.broadcasts[b];
    && cast.next <= |cast.targets|
    && (forall i, j :: 0 <= i < j < |cast.targets| ==> cast.targets[i] != cast.targets[j])
    && (forall i :: 0 <= i < |cast.targets| ==> IsNamed(h, cast, cast.targets[i]))
    && (forall i :: 0 <= i < cast.next ==> News(b) in h.conns[cast.targets[i]].sent || h.conns[cast.targets[i]].stopped)
  }

  ghost predicate Inv(h: Sockets)
  {
    LimitsInv(h) && UsersInv(h) && FramesInv(h) && TargetsInv(h)
  }

  // ---- Preservation -------------------------------------------------------------------------

  lemma UsersShrink(h: Sockets, h': Sockets)
    requires UsersInv(h) && h'.peers <= h.peers
    requires forall p :: p in h.peers && p in h'.conns && h'.conns[p].user != 0 ==> p in h.conns && h'.conns[p].user == h.conns[p].user
    ensures UsersInv(h')
  {
    forall u: nat | u != 0
      ensures |OfUser(h', u)| <= MAX_USER_CONNECTIONS
    {
      SubsetSize(OfUser(h', u), OfUser(h, u));
    }
  }

  // A step that replaces one peer by one with the same user and perhaps one more frame.
  lemma PeerChanges(h: Sockets, p: nat, peer: Peer)
    requires Inv(h) && p in h.conns && peer.user == h.conns[p].user && |peer.queue| <= QUEUE_SIZE
    requires h.conns[p].stopped ==> peer.stopped
    requires h.conns[p].sent <= peer.sent && Greeted(peer)
    requires forall i :: |h.conns[p].sent| <= i < |peer.sent| ==> peer.sent[i] == Ack(p)
    ensures Inv(h.(conns := h.conns[p := peer]))
  {
    hide Greeted;
    var h' := h.(conns := h.conns[p := peer]);
    UsersShrink(h, h');
    forall q | q in h'.conns
      ensures Greeted(h'.conns[q]) && Addressed(h', q)
    {
      assert Greeted(h.conns[q]) && Addressed(h, q);
      SameReached(h, h');
    }
    forall b | b in h'.broadcasts
      ensures TargetsOk(h', b)
    {
      assert TargetsOk(h, b);
    }
  }

  lemma SameReached(h: Sockets, h': Sockets)
    requires h'.broadcasts == h.broadcasts
    ensures forall b, p :: Reached(h, b, p) <==> Reached(h', b, p)
  {
  }

  lemma AuthenticateKeeps(h: Sockets, p: nat, u: nat)
    requires Inv(h) && Enabled(h, Authenticate(p, u)) && !h.closed && |OfUser(h, u)| < MAX_USER_CONNECTIONS
    ensures Inv(Apply(h, Authenticate(p, u)))
  {
    hide Greeted, UsersInv, Addressed, TargetsOk;
    var h' := Apply(h, Authenticate(p, u));
    Welcomed(h.conns[p], u);
    AuthenticateUsers(h, p, u);
    forall q | q in h'.conns
      ensures Addressed(h', q)
    {
      WelcomeAddressed(h, p, u, q);
    }
    forall b | b in h'.broadcasts
      ensures TargetsOk(h', b)
    {
      WelcomeTargets(h, p, u, b);
    }
  }

  lemma Welcomed(p: Peer, u: nat)
    requires Greeted(p) && p.user == 0 && u != 0
    ensures p.sent == [] && p.queue == [] && Greeted(p.(user := u, queue := p.queue + [AuthOk(u)], sent := p.sent + [AuthOk(u)]))
  {
  }

  lemma AuthenticateUsers(h: Sockets, p: nat, u: nat)
    requires UsersInv(h) && Enabled(h, Authenticate(p, u)) && !h.closed && |OfUser(h, u)| < MAX_USER_CONNECTIONS
    ensures UsersInv(Apply(h, Authenticate(p, u)))
  {
    var h' := Apply(h, Authenticate(p, u));
    forall v: nat | v != 0
      ensures |OfUser(h', v)| <= MAX_USER_CONNECTIONS
    {
      if v == u {
        assert OfUser(h', u) == OfUser(h, u) + {p};
      } else {
        assert OfUser(h', v) == OfUser(h, v);
      }
    }
  }

  lemma WelcomeAddressed(h: Sockets, p: nat, u: nat, q: nat)
    requires Enabled(h, Authenticate(p, u)) && !h.closed && |OfUser(h, u)| < MAX_USER_CONNECTIONS
    requires q in h.conns && Addressed(h, q) && h.conns[p].sent == []
    ensures Addressed(Apply(h, Authenticate(p, u)), q)
  {
    SameReached(h, Apply(h, Authenticate(p, u)));
  }

  lemma WelcomeTargets(h: Sockets, p: nat, u: nat, b: nat)
    requires Enabled(h, Authenticate(p, u)) && !h.closed && |OfUser(h, u)| < MAX_USER_CONNECTIONS
    requires b in h.broadcasts && TargetsOk(h, b)
    ensures TargetsOk(Apply(h, Authenticate(p, u)), b)
  {
  }

  lemma UpgradeKeeps(h: Sockets, p: nat, upgraded: bool)
    requires Inv(h) && Enabled(h, Upgrade(p, upgraded))
    ensures Inv(Apply(h, Upgrade(p, upgraded)))
  {
    hide Greeted, Addressed, TargetsOk, UsersInv;
    var h' := Apply(h, Upgrade(p, upgraded));
    UsersStay(h, h', p);
    NewcomerOk(h', p);
    forall q | q in h.conns
      ensures Addressed(h', q)
    {
      StaysAddressed(h, h', q);
    }
    forall b | b in h'.broadcasts
      ensures TargetsOk(h', b)
    {
      StaysTargeted(h, h', b);
    }
  }

  lemma NewcomerOk(h: Sockets, p: nat)
    ensures p in h.conns && h.conns[p].user == 0 && h.conns[p].sent == [] && h.conns[p].queue == [] ==> Greeted(h.conns[p]) && Addressed(h, p)
  {
  }

  lemma StaysAddressed(h: Sockets, h': Sockets, q: nat)
    requires q in h.conns && q in h'.conns && h'.conns[q] == h.conns[q] && h'.broadcasts == h.broadcasts && Addressed(h, q)
    ensures Addressed(h', q)
  {
    SameReached(h, h');
  }

  lemma StaysTargeted(h: Sockets, h': Sockets, b: nat)
    requires b in h.broadcasts && h'.broadcasts == h.broadcasts && TargetsOk(h, b)
    requires forall q :: q in h.conns ==> q in h'.conns && h'.conns[q] == h.conns[q]
    ensures TargetsOk(h', b)
  {
  }

  lemma UsersStay(h: Sockets, h': Sockets, p: nat)
    requires UsersInv(h) && h'.peers <= h.peers + {p} && p !in h.conns
    requires p in h'.conns ==> h'.conns[p].user == 0
    requires forall q :: q in h'.conns && q != p ==> q in h.conns && h'.conns[q] == h.conns[q]
    ensures UsersInv(h')
  {
    forall u: nat | u != 0
      ensures |OfUser(h', u)| <= MAX_USER_CONNECTIONS
    {
      SubsetSize(OfUser(h', u), OfUser(h, u));
    }
  }

  lemma PublishKeeps(h: Sockets, b: nat, users: set<nat>, targets: seq<nat>)
    requires Inv(h) && Enabled(h, Publish(b, users, targets))
    ensures Inv(Apply(h, Publish(b, users, targets)))
  {
    hide Greeted;
    var h' := Apply(h, Publish(b, users, targets));
    UsersShrink(h, h');
    forall q | q in h'.conns
      ensures Addressed(h', q)
    {
      assert Addressed(h, q);
      forall c | Reached(h, c, q)
        ensures Reached(h', c, q)
      {
      }
    }
    forall c | c in h'.broadcasts
      ensures TargetsOk(h', c)
    {
      if c != b {
        assert TargetsOk(h, c);
      }
    }
  }

  lemma OfferKeeps(h: Sockets, b: nat)
    requires Inv(h) && Enabled(h, Offer(b))
    ensures Inv(Apply(h, Offer(b)))
  {
    hide Greeted, Offered, Addressed, TargetsOk, Reached;
    var h' := Apply(h, Offer(b));
    var p := h.broadcasts[b].targets[h.broadcasts[b].next];
    TargetSigned(h, b);
    OfferedFacts(h.conns[p], News(b));
    UsersShrink(h, h');
    forall q | q in h'.conns
      ensures Addressed(h', q)
    {
      OfferAddressed(h, b, q);
    }
    forall c | c in h'.broadcasts
      ensures TargetsOk(h', c)
    {
      OfferTargets(h, b, c);
    }
  }

  lemma TargetSigned(h: Sockets, b: nat)
    requires Inv(h) && Enabled(h, Offer(b))
    ensures var p := h.broadcasts[b].targets[h.broadcasts[b].next]; h.conns[p].user != 0 && Greeted(h.conns[p]) && |h.conns[p].queue| <= QUEUE_SIZE
  {
    hide Greeted, Addressed;
    assert TargetsOk(h, b);
  }

  lemma OfferAddressed(h: Sockets, b: nat, q: nat)
    requires Inv(h) && Enabled(h, Offer(b)) && q in h.conns
    ensures Addressed(Apply(h, Offer(b)), q)
  {
    hide Greeted, Offered, Reached, TargetsOk;
    var h' := Apply(h, Offer(b));
    var p := h.broadcasts[b].targets[h.broadcasts[b].next];
    forall c | Reached(h, c, q)
      ensures Reached(h', c, q)
    {
      ReachedStays(h, h', b, c, q);
    }
    if q == p {
      OfferedAddressed(h, h', b, p);
    } else {
      assert Addressed(h, q);
    }
  }

  lemma OfferTargets(h: Sockets, b: nat, c: nat)
    requires Inv(h) && Enabled(h, Offer(b)) && c in h.broadcasts
    ensures TargetsOk(Apply(h, Offer(b)), c)
  {
    hide Greeted, Offered, Addressed;
    var h' := Apply(h, Offer(b));
    var p := h.broadcasts[b].targets[h.broadcasts[b].next];
    TargetSigned(h, b);
    OfferedFacts(h.conns[p], News(b));
    assert TargetsOk(h, c) && TargetsOk(h, b);
    assert forall q :: q in h.conns ==> h'.conns[q].user == h.conns[q].user && (h.conns[q].stopped ==> h'.conns[q].stopped);
    assert forall q :: q in h.conns && News(c) in h.conns[q].sent ==> News(c) in h'.conns[q].sent;
  }

  lemma ReachedStays(h: Sockets, h': Sockets, b: nat, c: nat, q: nat)
    requires Enabled(h, Offer(b)) && h' == Apply(h, Offer(b)) && Reached(h, c, q)
    ensures Reached(h', c, q)
  {
    hide Offered;
    var ts := h.broadcasts[c].targets;
    var i :| 0 <= i < h.broadcasts[c].next && ts[..h.broadcasts[c].next][i] == q;
    assert ts[..h'.broadcasts[c].next][i] == q;
  }

  lemma OfferedFacts(p: Peer, f: Frame)
    requires Greeted(p) && p.user != 0 && !f.AuthOk? && |p.queue| <= QUEUE_SIZE
    ensures var p' := Offered(p, f);
      && Greeted(p') && p'.user == p.user && |p'.queue| <= QUEUE_SIZE && (p.stopped ==> p'.stopped)
      && p.sent <= p'.sent && (p'.sent == p.sent || p'.sent == p.sent + [f])
      && (f in p'.sent || p'.stopped)
  {
    var p' := Offered(p, f);
    if p'.sent != p.sent {
      assert p'.sent[|p.sent|] == f;
      assert p'.sent[|p'.sent| - |p'.queue|..] == p.sent[|p.sent| - |p.queue|..] + [f];
    }
  }

  lemma OfferedAddressed(h: Sockets, h': Sockets, b: nat, p: nat)
    requires Inv(h) && Enabled(h, Offer(b)) && h' == Apply(h, Offer(b)) && p == h.broadcasts[b].targets[h.broadcasts[b].next]
    requires forall c :: Reached(h, c, p) ==> Reached(h', c, p)
    ensures Addressed(h', p)
  {
    hide Greeted, Offered;
    var cast := h.broadcasts[b];
    assert TargetsOk(h, b) && Addressed(h, p) && Greeted(h.conns[p]);
    OfferedFacts(h.conns[p], News(b));
    var sent, sent' := h.conns[p].sent, h'.conns[p].sent;
    assert cast.targets[..cast.next + 1][cast.next] == p;
    assert Reached(h', b, p);
    if sent' != sent {
      TurnStillToCome(h, b);
      assert forall i :: 0 <= i < |sent| ==> sent[i] != News(b);
    }
  }

  lemma TurnStillToCome(h: Sockets, b: nat)
    requires b in h.broadcasts && TargetsOk(h, b) && h.broadcasts[b].next < |h.broadcasts[b].targets|
    ensures !Reached(h, b, h.broadcasts[b].targets[h.broadcasts[b].next])
  {
    hide IsNamed;
  }

  lemma NextKeeps(h: Sockets, a: Action)
    requires Inv(h) && Enabled(h, a)
    ensures Inv(Apply(h, a))
  {
    hide Inv;
    match a
    case Upgrade(p, upgraded) => UpgradeKeeps(h, p, upgraded);
    case Authenticate(p, u) =>
      if h.closed || |OfUser(h, u)| >= MAX_USER_CONNECTIONS {
        StopKeeps(h, p);
      } else {
        AuthenticateKeeps(h, p, u);
      }
    case Acknowledge(p) =>
      Facts(h, p);
      OfferedFacts(h.conns[p], Ack(p));
      PeerChanges(h, p, Offered(h.conns[p], Ack(p)));
    case Publish(b, users, targets) => PublishKeeps(h, b, users, targets);
    case Offer(b) => OfferKeeps(h, b);
    case WriteOut(p) =>
      Facts(h, p);
      PeerChanges(h, p, h.conns[p].(queue := h.conns[p].queue[1..]));
    case Stop(p) => StopKeeps(h, p);
    case Leave(p) =>
      StopKeeps(h, p);
      LeaveKeeps(h.(conns := h.conns[p := h.conns[p].(stopped := true)]), p);
    case _ =>
      WithinLimits(h);
      HeaderKeeps(h, Apply(h, a));
  }

  lemma Facts(h: Sockets, p: nat)
    requires Inv(h) && p in h.conns
    ensures Greeted(h.conns[p]) && |h.conns[p].queue| <= QUEUE_SIZE
  {
  }

  lemma WithinLimits(h: Sockets)
    requires Inv(h)
    ensures Total(h) <= MAX_CONNECTIONS
  {
  }

  lemma StopKeeps(h: Sockets, p: nat)
    requires Inv(h) && p in h.conns
    ensures Inv(h.(conns := h.conns[p := h.conns[p].(stopped := true)]))
  {
    hide Inv;
    Facts(h, p);
    PeerChanges(h, p, h.conns[p].(stopped := true));
  }

  lemma LeaveKeeps(h: Sockets, p: nat)
    requires Inv(h)
    ensures Inv(h.(peers := h.peers - {p}))
  {
    hide Greeted;
    var h' := h.(peers := h.peers - {p});
    SubsetSize(h'.peers, h.peers);
    UsersShrink(h, h');
    HeaderFrames(h, h');
  }

  lemma HeaderFrames(h: Sockets, h': Sockets)
    requires FramesInv(h) && TargetsInv(h) && h'.conns == h.conns && h'.broadcasts == h.broadcasts
    ensures FramesInv(h') && TargetsInv(h')
  {
    hide Greeted;
    SameReached(h, h');
    forall q | q in h'.conns
      ensures Addressed(h', q)
    {
      assert Addressed(h, q);
    }
    forall b | b in h'.broadcasts
      ensures TargetsOk(h', b)
    {
      assert TargetsOk(h, b);
    }
  }

  lemma HeaderKeeps(h: Sockets, h': Sockets)
    requires Inv(h) && Total(h') <= MAX_CONNECTIONS
    requires h'.conns == h.conns && h'.peers == h.peers && h'.broadcasts == h.broadcasts
    ensures Inv(h')
  {
    hide Greeted;
    UsersShrink(h, h');
    HeaderFrames(h, h');
  }

  // ---- Runs ---------------------------------------------------------------------------------

  const START := Sockets(false, false, 0, map[], {}, map[])

  predicate Next(h: Sockets, a: Action, h': Sockets)
  {
    Enabled(h, a) && h' == Apply(h, a)
  }

  predicate Run(states: seq<Sockets>, actions: seq<Action>)
  {
    && |states| == |actions| + 1
    && states[0] == START
    && forall i :: 0 <= i < |actions| ==> Next(states[i], actions[i], states[i + 1])
  }

  lemma StartOk()
    ensures Inv(START)
  {
    forall u: nat
      ensures OfUser(START, u) == {}
    {
    }
  }

  lemma {:induction false} RunKeeps(states: seq<Sockets>, actions: seq<Action>, n: nat)
    requires Run(states, actions) && n < |states|
    ensures Inv(states[n])
  {
    hide Inv, Enabled, Apply;
    if n == 0 {
      StartOk();
    } else {
      RunKeeps(states, actions, n - 1);
      assert Next(states[n - 1], actions[n - 1], states[n]);
      NextKeeps(states[n - 1], actions[n - 1]);
    }
  }

  // Main theorem, for every interleaving: the limits hold, a peer's first frame is its auth:ok,
  // and news reach only peers authenticated as a user the publication names, each of them once.
  lemma HubIsSafe(states: seq<Sockets>, actions: seq<Action>, n: nat)
    requires Run(states, actions) && n < |states|
    ensures var h := states[n];
      && h.pending + |h.peers| <= 256
      && (forall u: nat :: u != 0 ==> |OfUser(h, u)| <= 8)
      && (forall p :: p in h.conns ==> |h.conns[p].queue| <= 32)
      && (forall p :: p in h.conns && h.conns[p].sent != [] ==> h.conns[p].user != 0 && h.conns[p].sent[0] == AuthOk(h.conns[p].user))
      && (forall p, i :: p in h.conns && 0 <= i < |h.conns[p].sent| && h.conns[p].sent[i].News? ==>
            h.conns[p].sent[i].broadcast in h.broadcasts && h.conns[p].user in h.broadcasts[h.conns[p].sent[i].broadcast].wanted)
      && (forall p, i, j :: p in h.conns && 0 <= i < j < |h.conns[p].sent| && h.conns[p].sent[i].News? ==>
            h.conns[p].sent[i] != h.conns[p].sent[j])
  {
    hide Enabled, Apply;
    RunKeeps(states, actions, n);
    var h := states[n];
    forall p, i | p in h.conns && 0 <= i < |h.conns[p].sent| && h.conns[p].sent[i].News?
      ensures h.conns[p].sent[i].broadcast in h.broadcasts && h.conns[p].user in h.broadcasts[h.conns[p].sent[i].broadcast].wanted
    {
      assert Addressed(h, p);
      var b := h.conns[p].sent[i].broadcast;
      assert Reached(h, b, p) && TargetsOk(h, b);
      var k :| 0 <= k < h.broadcasts[b].next && h.broadcasts[b].targets[..h.broadcasts[b].next][k] == p;
      assert h.broadcasts[b].targets[k] == p;
    }
    forall p, i, j | p in h.conns && 0 <= i < j < |h.conns[p].sent| && h.conns[p].sent[i].News?
      ensures h.conns[p].sent[i] != h.conns[p].sent[j]
    {
      assert Addressed(h, p);
    }
  }

  // Once a publication is through, every peer it found either got the frame or is disconnected.
  lemma PublicationReachesAll(states: seq<Sockets>, actions: seq<Action>, n: nat, b: nat, p: nat)
    requires Run(states, actions) && n < |states| && b in states[n].broadcasts
    requires states[n].broadcasts[b].next == |states[n].broadcasts[b].targets| && p in states[n].broadcasts[b].targets
    ensures p in states[n].conns && (News(b) in states[n].conns[p].sent || states[n].conns[p].stopped)
  {
    hide Enabled, Apply, Greeted, Addressed;
    RunKeeps(states, actions, n);
    assert TargetsOk(states[n], b);
  }

  // After Close nobody is admitted, registered or authenticated any more.
  lemma {:induction false} NothingAfterClose(states: seq<Sockets>, actions: seq<Action>, m: nat, n: nat)
    requires Run(states, actions) && m <= n < |states| && states[m].closed
    ensures states[n].closed && states[n].pending <= states[m].pending && states[n].peers <= states[m].peers
    ensures forall p :: p in states[m].conns ==> p in states[n].conns && states[n].conns[p].user == states[m].conns[p].user
    ensures forall p :: p in states[n].conns && p !in states[m].conns ==> states[n].conns[p].user == 0 && states[n].conns[p].stopped
    decreases n
  {
    hide Enabled, Apply;
    if m < n {
      NothingAfterClose(states, actions, m, n - 1);
      assert Next(states[n - 1], actions[n - 1], states[n]);
      ClosedStep(states[n - 1], actions[n - 1]);
    }
  }

  lemma ClosedStep(h: Sockets, a: Action)
    requires Enabled(h, a) && h.closed
    ensures var h' := Apply(h, a);
      && h'.closed && h'.pending <= h.pending && h'.peers <= h.peers
      && (forall p :: p in h.conns ==> p in h'.conns && h'.conns[p].user == h.conns[p].user && (h.conns[p].stopped ==> h'.conns[p].stopped))
      && (forall p :: p in h'.conns && p !in h.conns ==> h'.conns[p].user == 0 && h'.conns[p].stopped)
  {
  }
}
