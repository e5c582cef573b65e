/** The socket server over its mutable fields: each critical section leaves the hub its step. */
module HubServer {
  import opened Common
  import opened Hub
  import opened Traces

  // Connections stay known, what they were sent and that they were stopped is not undone, and
  // nobody else works on publication b.
  predicate Undisturbed(h: Sockets, h': Sockets, b: Option<nat>)
  {
    && (h.closed ==> h'.closed)
    && (forall p :: p in h.conns ==> p in h'.conns && h.conns[p].sent <= h'.conns[p].sent && (h.conns[p].stopped ==> h'.conns[p].stopped))
    && (b.Some? && b.value in h.broadcasts ==> b.value in h'.broadcasts && h'.broadcasts[b.value] == h.broadcasts[b.value])
  }

  lemma StepUndisturbed(h: Sockets, a: Action, b: Option<nat>)
    requires Enabled(h, a) && !(a.Offer? && b == Some(a.broadcast))
    ensures Undisturbed(h, Apply(h, a), b)
  {
    hide Lists, Wanted, Full, Offered, OfUser;
    if a.Acknowledge? {
      OfferedGrows(h.conns[a.peer], Ack(a.peer));
    } else if a.Offer? {
      OfferedGrows(h.conns[h.broadcasts[a.broadcast].targets[h.broadcasts[a.broadcast].next]], News(a.broadcast));
    }
  }

  lemma OfferedGrows(p: Peer, f: Frame)
    ensures p.sent <= Offered(p, f).sent && (p.stopped ==> Offered(p, f).stopped)
  {
  }

  lemma UndisturbedOn(x: Sockets, y: Sockets, z: Sockets, b: Option<nat>)
    requires Undisturbed(x, y, b) && Undisturbed(y, z, b)
    ensures Undisturbed(x, z, b)
  {
  }

  class Server {
    var bound: bool
    var closed: bool
    var pending: nat
    var conns: map<nat, Peer>
    var peers: set<nat>
    // The targets each publication in progress has still to offer its frame to.
    var broadcasts: map<nat, Broadcast>

    constructor ()
      ensures View() == START
    {
      bound, closed, pending, conns, peers, broadcasts := false, false, 0, map[], {}, map[];
    }

    function View(): Sockets
      reads this
    {
      Sockets(bound, closed, pending, conns, peers, broadcasts)
    }

    method Enter() returns (admitted: bool)
      modifies this
      ensures View() == old(Apply(View(), Admit))
      ensures admitted <==> !old(Full(View()))
    {
      if closed || !bound || pending + |peers| >= 256 {
        return false;
      }
      pending := pending + 1;
      return true;
    }

    method Register(p: nat, upgraded: bool) returns (serving: bool)
      requires Enabled(View(), Upgrade(p, upgraded))
      modifies this
      ensures View() == old(Apply(View(), Upgrade(p, upgraded)))
      ensures serving <==> upgraded && !old(closed)
    {
      pending := pending - 1;
      if !upgraded {
        return false;
      }
      conns := conns[p := NEWCOMER];
      if closed {
        conns := conns[p := conns[p].(stopped := true)];
        return false;
      }
      peers := peers + {p};
      return true;
    }

    // How many registered peers are authenticated as this user.
    method CountOf(user: nat) returns (count: nat)
      requires peers <= conns.Keys
      ensures count == |OfUser(View(), user)|
    {
      count := 0;
      var todo := peers;
      ghost var seen: set<nat> := {};
      while todo != {}
        invariant todo <= peers && seen == OfUser(View(), user) - todo && count == |seen|
        decreases |todo|
      {
        var other :| other in todo;
        todo := todo - {other};
        if conns[other].user == user {
          count := count + 1;
          seen := seen + {other};
        }
      }
      assert seen == OfUser(View(), user);
    }

    method SignIn(p: nat, user: nat) returns (ready: bool)
      requires peers <= conns.Keys && Enabled(View(), Authenticate(p, user))
      modifies this
      ensures View() == old(Apply(View(), Authenticate(p, user)))
      ensures ready <==> !old(closed) && old(|OfUser(View(), user)|) < MAX_USER_CONNECTIONS
    {
      var count := CountOf(user);
      if closed || count >= 8 {
        conns := conns[p := conns[p].(stopped := true)];
        return false;
      }
      var peer := conns[p];
      peer := peer.(queue := peer.queue + [AuthOk(user)], sent := peer.sent + [AuthOk(user)]);
      peer := peer.(user := user);
      conns := conns[p := peer];
      return true;
    }

    // Puts a frame into a peer's channel without waiting.
    method Enqueue(p: nat, f: Frame) returns (queued: bool)
      requires p in conns
      modifies `conns
      ensures conns == old(conns)[p := old(Offered(conns[p], f))]
      ensures queued <==> !old(conns[p].stopped) && |old(conns[p].queue)| < QUEUE_SIZE
    {
      var peer := conns[p];
      if peer.stopped {
        assert conns == conns[p := peer];
        return false;
      }
      if |peer.queue| < 32 {
        conns := conns[p := peer.(queue := peer.queue + [f], sent := peer.sent + [f])];
        return true;
      }
      conns := conns[p := peer.(stopped := true)];
      return false;
    }

    // The snapshot a publication takes under the mutex.
    method Snapshot(b: nat, users: seq<nat>) returns (targets: seq<nat>)
      requires peers <= conns.Keys && b !in broadcasts
      modifies `broadcasts
      ensures old(Enabled(View(), Action.Publish(b, Distinct(users), targets)))
      ensures View() == old(Apply(View(), Action.Publish(b, Distinct(users), targets)))
    {
      targets := Targets(users);
      broadcasts := broadcasts[b := Broadcast(Distinct(users), targets, 0)];
    }

    method Targets(users: seq<nat>) returns (targets: seq<nat>)
      requires peers <= conns.Keys
      ensures Lists(targets, Wanted(View(), Distinct(users)))
    {
      hide Lists;
      var wanted := Recipients(users);
      ghost var all := Wanted(View(), Distinct(users));
      targets := [];
      var todo := peers;
      assert all - todo == {};
      ListsNothing();
      while todo != {}
        invariant todo <= peers && Lists(targets, all - todo)
        decreases |todo|
      {
        var p :| p in todo;
        ghost var before := all - todo;
        todo := todo - {p};
        if conns[p].user in wanted {
          ListsOneMore(targets, before, p);
          targets := targets + [p];
          assert all - todo == before + {p};
        } else {
          assert all - todo == before;
        }
      }
      assert all - todo == all;
    }

    // The listed users without nobody.
    method Recipients(users: seq<nat>) returns (wanted: set<nat>)
      ensures wanted == Distinct(users) - {0}
    {
      wanted := {};
      for i := 0 to |users|
        invariant wanted == Distinct(users[..i]) - {0}
      {
        assert users[..i + 1] == users[..i] + [users[i]];
        if users[i] != 0 {
          wanted := wanted + {users[i]};
        }
      }
      assert users[..|users|] == users;
    }

    // Offers the frame to the targets one after the other; others may act in between.
    method Deliver(b: nat, p: nat)
      requires Enabled(View(), Offer(b)) && p == broadcasts[b].targets[broadcasts[b].next]
      modifies `conns, `broadcasts
      ensures View() == old(Apply(View(), Offer(b)))
    {
      var queued := Enqueue(p, News(b));
      broadcasts := broadcasts[b := broadcasts[b].(next := broadcasts[b].next + 1)];
    }

    // One step of anybody else, if it is possible now.
    method Other(a: Action, b: Option<nat>, ghost trace: seq<Action>, ghost start: Sockets) returns (ghost trace': seq<Action>)
      requires Steps(Next, start, trace, View()) && !(a.Offer? && b == Some(a.broadcast))
      modifies this
      ensures Steps(Next, start, trace', View()) && Undisturbed(old(View()), View(), b)
    {
      hide Steps, Enabled, Apply;
      trace' := trace;
      if Enabled(View(), a) {
        StepUndisturbed(View(), a, b);
        OneMore(Next, start, trace, View(), a, Apply(View(), a));
        trace' := trace + [a];
        var h := Apply(View(), a);
        bound, closed, pending, conns, peers, broadcasts := h.bound, h.closed, h.pending, h.conns, h.peers, h.broadcasts;
      }
    }

    method Others(actions: seq<Action>, b: Option<nat>, ghost trace: seq<Action>, ghost start: Sockets) returns (ghost trace': seq<Action>)
      requires Steps(Next, start, trace, View())
      modifies this
      ensures Steps(Next, start, trace', View()) && Undisturbed(old(View()), View(), b)
      ensures actions == [] ==> View() == old(View())
    {
      hide Steps;
      trace' := trace;
      for i := 0 to |actions|
        invariant Steps(Next, start, trace', View()) && Undisturbed(old(View()), View(), b)
        invariant i == 0 ==> View() == old(View())
      {
        if !(actions[i].Offer? && b == Some(actions[i].broadcast)) {
          ghost var before := View();
          trace' := Other(actions[i], b, trace', start);
          UndisturbedOn(old(View()), before, View(), b);
        }
      }
    }

    // A whole publication: its targets are listed under the mutex, and then each is offered the
    // frame while everybody else goes on.
    method Publish(b: nat, users: seq<nat>, others: Meanwhile<Action>) returns (targets: seq<nat>, ghost trace: seq<Action>)
      requires peers <= conns.Keys && b !in broadcasts
      modifies this
      ensures Steps(Next, old(View()), trace, View())
      ensures Lists(targets, Wanted(old(View()), Distinct(users)))
      ensures b in broadcasts && broadcasts[b] == Broadcast(Distinct(users), targets, |targets|)
      ensures forall p :: p in targets ==> p in conns && (News(b) in conns[p].sent || conns[p].stopped)
    {
      hide Steps, Lists, Wanted, Distinct;
      NoSteps(Next, View());
      targets := Snapshot(b, users);
      OneMore(Next, old(View()), [], old(View()), Action.Publish(b, Distinct(users), targets), View());
      trace := [] + [Action.Publish(b, Distinct(users), targets)];
      TargetsKnown(old(View()), Distinct(users), targets);
      for i := 0 to |targets|
        invariant Steps(Next, old(View()), trace, View())
        invariant b in broadcasts && broadcasts[b] == Broadcast(Distinct(users), targets, i)
        invariant forall p :: p in targets ==> p in conns
        invariant forall j :: 0 <= j < i ==> targets[j] in conns && Served(conns[targets[j]], b)
      {
        trace := Others(Moment(others, i), Some(b), trace, old(View()));
        OneMore(Next, old(View()), trace, View(), Offer(b), Apply(View(), Offer(b)));
        trace := trace + [Offer(b)];
        OfferServes(conns[targets[i]], b);
        Deliver(b, targets[i]);
      }
    }

    // Closing stops every peer it found, one after the other.
    method Shut(others: Meanwhile<Action>) returns (targets: seq<nat>, ghost trace: seq<Action>)
      requires peers <= conns.Keys
      modifies this
      ensures Steps(Next, old(View()), trace, View()) && Lists(targets, old(peers))
      ensures closed && forall p :: p in old(peers) ==> p in conns && conns[p].stopped
      ensures Quiet(others) ==> View() == old(View()).(closed := true, conns := conns) && AllStopped(old(conns), conns, targets)
    {
      hide Steps, Lists, Enabled, Apply, AllStopped;
      NoSteps(Next, View());
      CloseStep(View());
      OneMore(Next, View(), [], View(), Close, Apply(View(), Close));
      trace := [] + [Close];
      closed := true;
      targets := PeerList();
      PeersListed(targets, old(peers));
      NoneStopped(conns);
      for i := 0 to |targets|
        invariant Steps(Next, old(View()), trace, View()) && closed
        invariant forall j :: 0 <= j < |targets| ==> targets[j] in conns && (j < i ==> conns[targets[j]].stopped)
        invariant Quiet(others) ==> View() == old(View()).(closed := true, conns := conns) && AllStopped(old(conns), conns, targets[..i])
      {
        trace := Others(Moment(others, i), None, trace, old(View()));
        StopStep(View(), targets[i]);
        OneMore(Next, old(View()), trace, View(), Stop(targets[i]), Apply(View(), Stop(targets[i])));
        trace := trace + [Stop(targets[i])];
        if Quiet(others) {
          OneMoreStopped(old(conns), conns, targets, i);
        }
        conns := conns[targets[i] := conns[targets[i]].(stopped := true)];
      }
      assert targets[..|targets|] == targets;
    }

    method PeerList() returns (targets: seq<nat>)
      ensures Lists(targets, peers)
    {
      hide Lists;
      targets := [];
      var todo := peers;
      ListsNothing();
      assert peers - todo == {};
      while todo != {}
        invariant todo <= peers && Lists(targets, peers - todo)
        decreases |todo|
      {
        var p :| p in todo;
        ListsOneMore(targets, peers - todo, p);
        targets := targets + [p];
        assert peers - (todo - {p}) == (peers - todo) + {p};
        todo := todo - {p};
      }
      assert peers - todo == peers;
    }
  }

  // Exactly the listed peers have been stopped.
  predicate AllStopped(conns: map<nat, Peer>, conns': map<nat, Peer>, ps: seq<nat>)
  {
    && conns'.Keys == conns.Keys
    && forall p :: p in conns' ==> conns'[p] == if p in ps then conns[p].(stopped := true) else conns[p]
  }

  lemma NoneStopped(conns: map<nat, Peer>)
    ensures AllStopped(conns, conns, [])
  {
  }

  lemma OneMoreStopped(conns: map<nat, Peer>, conns': map<nat, Peer>, ps: seq<nat>, i: nat)
    requires i < |ps| && ps[i] in conns' && AllStopped(conns, conns', ps[..i])
    ensures AllStopped(conns, conns'[ps[i] := conns'[ps[i]].(stopped := true)], ps[..i + 1])
  {
    assert ps[..i + 1] == ps[..i] + [ps[i]];
  }

  lemma CloseStep(h: Sockets)
    ensures Enabled(h, Close) && Apply(h, Close) == h.(closed := true)
  {
  }

  lemma StopStep(h: Sockets, p: nat)
    requires p in h.conns
    ensures Enabled(h, Stop(p)) && Apply(h, Stop(p)) == h.(conns := h.conns[p := h.conns[p].(stopped := true)])
  {
  }

  predicate Served(peer: Peer, b: nat)
  {
    News(b) in peer.sent || peer.stopped
  }

  lemma OfferServes(peer: Peer, b: nat)
    ensures Served(Offered(peer, News(b)), b)
  {
    assert (peer.sent + [News(b)])[|peer.sent|] == News(b);
  }

  lemma TargetsKnown(h: Sockets, users: set<nat>, targets: seq<nat>)
    requires Lists(targets, Wanted(h, users))
    ensures forall p :: p in targets ==> p in h.conns
  {
  }

  lemma PeersListed(targets: seq<nat>, ps: set<nat>)
    requires Lists(targets, ps)
    ensures forall p :: p in targets <==> p in ps
  {
  }

  function Distinct(users: seq<nat>): set<nat>
  {
    set i | 0 <= i < |users| :: users[i]
  }

  lemma ListsNothing()
    ensures Lists([], {})
  {
  }

  lemma ListsOneMore(targets: seq<nat>, ps: set<nat>, p: nat)
    requires Lists(targets, ps) && p !in ps
    ensures Lists(targets + [p], ps + {p})
  {
  }
}
