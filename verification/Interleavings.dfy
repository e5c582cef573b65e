/**
 * What interleaved transactions guarantee: the states they pass through are states of serial runs,
 * so every statement about serial runs holds of them.
 */
module Interleavings {
  import opened Common
  import opened Orders
  import opened Market
  import opened Lifecycle
  import opened MarketInvariant
  import opened MarketRuns
  import opened OrderLock

  // A transaction that is refused before it finds its order changes nothing.
  const REFUSED := AdjustStock(false, false, 0, 0, "")

  function OpOf(e: Entry, home: map<nat, (nat, nat)>): Op
  {
    match e.work
    case Background(op) => op
    case Client(call) =>
      match call
      case Move(row, act) => if Rejected(act).None? && row in home then MoveOrder(home[row].0, OrderLock.At(act, home[row].1)) else REFUSED
      case Abandon(id, user) => AbandonOrder(id, user)
      case Transfer(enabled, w) => BankTransfer(enabled, w)
  }

  function Snapshots(h: seq<Entry>): (dbs: seq<Db>)
    ensures |dbs| == |h| + 1
  {
    seq(|h| + 1, i requires 0 <= i <= |h| => Before(h, i).0)
  }

  function Ops(h: seq<Entry>): (ops: seq<Op>)
    ensures |ops| == |h|
  {
    seq(|h|, i requires 0 <= i < |h| => OpOf(h[i], Before(h, i).1))
  }

  lemma EntryIsStep(db: Db, home: map<nat, (nat, nat)>, e: Entry)
    requires EntryValid(db, home, e)
    ensures Step(db, OpOf(e, home), e.db)
  {
    hide ActOn, CancelOrder, Receive, Rejected, ChecksOut;
  }

  lemma HistoryIsRun(h: seq<Entry>)
    requires Serial(h)
    ensures Run(Snapshots(h), Ops(h)) && Snapshots(h)[|h|] == Before(h, |h|).0
  {
    hide EntryValid, Step, OpOf;
    forall i | 0 <= i < |h|
      ensures Step(Snapshots(h)[i], Ops(h)[i], Snapshots(h)[i + 1])
    {
      assert EntryValid(Before(h, i).0, Before(h, i).1, h[i]);
      EntryIsStep(Before(h, i).0, Before(h, i).1, h[i]);
    }
  }

  lemma NextGrowsHistory(s: Sys, e: Action, s': Sys)
    requires Next(s, e, s')
    ensures s.history <= s'.history
  {
    hide Decide, InBackground, Begin;
    match e
    case Starts(t, call) => BeginLocksNothing(s, t, call);
    case _ =>
  }

  lemma {:induction false} HistoryGrows(states: seq<Sys>, events: seq<Action>, m: nat, n: nat)
    requires Interleaving(states, events) && m <= n < |states|
    ensures states[m].history <= states[n].history
    decreases n
  {
    hide Next;
    if m < n {
      HistoryGrows(states, events, m, n - 1);
      assert Next(states[n - 1], events[n - 1], states[n]);
      NextGrowsHistory(states[n - 1], events[n - 1], states[n]);
    }
  }

  // Main theorem. The database after any interleaving is the last state of a serial run, and an
  // earlier one is an earlier state of the same run; so the invariant of every transaction holds.
  lemma InterleavedIsRun(states: seq<Sys>, events: seq<Action>, m: nat, n: nat)
    requires Interleaving(states, events) && m <= n < |states|
    ensures var h := states[n].history;
      && Run(Snapshots(h), Ops(h)) && Snapshots(h)[|h|] == states[n].db
      && |states[m].history| <= |h| && Snapshots(h)[|states[m].history|] == states[m].db
    ensures Inv(states[n].db)
  {
    hide Serial, Next, Inv, Run;
    InterleavingIsSerial(states, events, m);
    InterleavingIsSerial(states, events, n);
    HistoryGrows(states, events, m, n);
    var h, k := states[n].history, |states[m].history|;
    HistoryIsRun(h);
    assert Before(h, k) == Before(states[m].history, k);
    RunKeepsInvariant(Snapshots(h), Ops(h), |h|);
  }

  // Main theorem: whatever interleaves, each order's statuses agree and its payment is marked
  // exactly when the money is there, and between any two moments it has only moved forward.
  lemma InterleavedOrders(states: seq<Sys>, events: seq<Action>, m: nat, n: nat, id: nat)
    requires Interleaving(states, events) && m <= n < |states| && id in states[m].db.orders
    ensures id in states[n].db.orders && Moves(states[m].db.orders[id], states[n].db.orders[id])
    ensures JointLifecycle(states[n].db.orders[id]) && ExactPayment(states[n].db, id)
  {
    hide Next, Inv, Run, Moves, JointLifecycle, ExactPayment, Snapshots, Ops;
    InterleavedIsRun(states, events, m, n);
    var h, k := states[n].history, |states[m].history|;
    OrdersMoveForward(Snapshots(h), Ops(h), k, |h|, id);
    ReachableOrder(Snapshots(h), Ops(h), |h|, id);
  }

  // Main theorem: two calls in flight at once cannot both make a delivery request key count. After
  // one has been accepted, no entry of the history that uses the key again changes anything.
  lemma InterleavedKeys(states: seq<Sys>, events: seq<Action>, n: nat, i: nat, j: nat)
    requires Interleaving(states, events) && n < |states| && i < j < |states[n].history|
    requires var h := states[n].history;
      && Ops(h)[i].MoveOrder? && Ops(h)[j].MoveOrder? && Ops(h)[i].act.DeliveryUpdate? && Ops(h)[j].act.DeliveryUpdate?
      && Ops(h)[i].id == Ops(h)[j].id && Ops(h)[i].act.child == Ops(h)[j].act.child && Ops(h)[i].act.key == Ops(h)[j].act.key
      && h[i].answer.Ok?
    ensures states[n].history[j].db == Before(states[n].history, j).0
  {
    hide Next, Inv, Run, ActOn, Serial, Snapshots, Ops;
    InterleavedIsRun(states, events, n, n);
    InterleavingIsSerial(states, events, n);
    var h := states[n].history;
    AcceptedEntry(h, i);
    SnapshotsAre(h, i);
    SnapshotsAre(h, j);
    RequestKeyTakesEffectOnce(Snapshots(h), Ops(h), i, j);
  }

  lemma SnapshotsAre(h: seq<Entry>, i: nat)
    requires i < |h|
    ensures Snapshots(h)[i] == Before(h, i).0 && Snapshots(h)[i + 1] == h[i].db
  {
  }

  lemma AcceptedEntry(h: seq<Entry>, i: nat)
    requires Serial(h) && i < |h| && Ops(h)[i].MoveOrder? && h[i].answer.Ok?
    ensures ActOn(Before(h, i).0, Ops(h)[i].id, Ops(h)[i].act).answer.Ok?
  {
    hide ActOn, CancelOrder, Receive, Rejected, Step;
    assert EntryValid(Before(h, i).0, Before(h, i).1, h[i]);
  }
}
