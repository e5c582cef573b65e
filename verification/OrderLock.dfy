/**
 * Transactions as they really interleave: each reads which order it concerns, waits for that
 * order's row lock, reads again and commits. Every interleaving has the effect, and gives the
 * answers, of the same transactions run one at a time.
 */
module OrderLock {
  import opened Common
  import opened Orders
  import opened Market
  import opened Lifecycle
  import opened MarketInvariant
  import opened Checkout

  // A call as a client makes it. A seller order or its shipment is named by its own identifier.
  datatype Call =
    | Move(row: nat, act: Act)
    | Abandon(order: nat, user: nat)
    | Transfer(enabled: bool, webhook: Webhook)

  // Where a transaction stands. Located is what was read before the lock; Holding adds the order
  // as read again under the lock; Done points at its entry in the serial history.
  datatype Phase =
    | Waiting(order: nat, position: nat)
    | Holding(order: nat, position: nat, read: Order)
    | Done(at: nat)

  datatype Work = Client(call: Call) | Background(op: Op)
  // One transaction of the serial history with its answer and the database after it.
  datatype Entry = Entry(work: Work, answer: Result<()>, db: Db, home: map<nat, (nat, nat)>)

  // home is the seller_orders table read as identifier -> (order, position); rows are only added.
  // lockLog lists the lock acquisitions as (order, transaction).
  datatype Sys = Sys(db: Db, home: map<nat, (nat, nat)>,
                     calls: map<nat, Call>, phases: map<nat, Phase>,
                     history: seq<Entry>, lockLog: seq<(nat, nat)>)

  function At(act: Act, i: nat): Act
  {
    act.(child := i)
  }

  // ---- One at a time ------------------------------------------------------------------------

  function Serially(db: Db, home: map<nat, (nat, nat)>, call: Call): Outcome
  {
    match call
    case Move(row, act) =>
      if Rejected(act).Some? then Refused(db, Rejected(act).value)
      else if row !in home then Refused(db, NotFound)
      else ActOn(db, home[row].0, At(act, home[row].1))
    case Abandon(id, user) => CancelOrder(db, id, user)
    case Transfer(enabled, w) => Receive(db, enabled, w)
  }

  // Transactions that lock no order row: they leave existing orders and receipts alone.
  predicate InBackground(db: Db, op: Op, db': Db)
  {
    && (op.NewVariant? || op.EditCart? || op.NewOffer? || op.SwitchOffer? || op.PlaceOrder? || op.AdjustStock?)
    && Step(db, op, db')
  }

  predicate EntryValid(db: Db, home: map<nat, (nat, nat)>, e: Entry)
  {
    match e.work
    case Client(call) => Outcome(e.db, e.answer) == Serially(db, home, call) && e.home == home
    case Background(op) =>
      && InBackground(db, op, e.db)
      && forall r :: r in home ==> r in e.home && e.home[r] == home[r]
  }

  function Before(h: seq<Entry>, i: nat): (Db, map<nat, (nat, nat)>)
    requires i <= |h|
  {
    if i == 0 then (EMPTY, map[]) else (h[i - 1].db, h[i - 1].home)
  }

  predicate Serial(h: seq<Entry>)
  {
    forall i :: 0 <= i < |h| ==> EntryValid(Before(h, i).0, Before(h, i).1, h[i])
  }

  // ---- Interleaved --------------------------------------------------------------------------

  predicate Locked(s: Sys, id: nat)
  {
    exists t :: t in s.phases && s.phases[t].Holding? && s.phases[t].order == id
  }

  // The unique index on transaction numbers makes a second delivery wait for the first.
  predicate InboxBusy(s: Sys, number: int64)
  {
    exists t :: t in s.phases && InFlight(s, t) && s.calls[t].webhook.id == number
  }

  function Finish(s: Sys, t: nat, call: Call, out: Outcome): Sys
  {
    s.(db := out.db, calls := s.calls[t := call], phases := s.phases[t := Done(|s.history|)],
       history := s.history + [Entry(Client(call), out.answer, out.db, s.home)])
  }

  function Park(s: Sys, t: nat, call: Call, id: nat, position: nat): Sys
  {
    s.(calls := s.calls[t := call], phases := s.phases[t := Waiting(id, position)])
  }

  // The reads before the lock. What they miss ends the transaction there and then.
  function Begin(s: Sys, t: nat, call: Call): Sys
  {
    match call
    case Move(row, act) =>
      if Rejected(act).Some? then Finish(s, t, call, Refused(s.db, Rejected(act).value))
      else if row !in s.home then Finish(s, t, call, Refused(s.db, NotFound))
      else Park(s, t, call, s.home[row].0, s.home[row].1)
    case Abandon(id, user) =>
      if id !in s.db.orders then Finish(s, t, call, Refused(s.db, NotFound)) else Park(s, t, call, id, 0)
    case Transfer(enabled, w) =>
      var r := ReceiptOf(w);
      if enabled && WebhookValid(w) && w.id !in s.db.receipts && Matched(s.db, r) then Park(s, t, call, r.code.value, 0)
      else Finish(s, t, call, Receive(s.db, enabled, w))
  }

  function Lock(s: Sys, t: nat): Sys
    requires t in s.phases && s.phases[t].Waiting? && s.phases[t].order in s.db.orders
  {
    var p := s.phases[t];
    s.(phases := s.phases[t := Holding(p.order, p.position, s.db.orders[p.order])], lockLog := s.lockLog + [(p.order, t)])
  }

  // What a transaction writes, decided on the order as read under the lock.
  function Decide(s: Sys, call: Call, id: nat, position: nat, read: Order): Outcome
  {
    match call
    case Move(_, act) =>
      var r := Perform(id, read, At(act, position));
      if r.Err? then Refused(s.db, r.error) else Outcome(Commit(s.db, id, r.value), Ok(()))
    case Abandon(_, user) =>
      CancelOrder(s.db.(orders := s.db.orders[id := read]), id, user)
    case Transfer(_, w) =>
      var r := ReceiptOf(w);
      if CanApply(read, r.direction == In, r.bank, r.account, r.amount) then
        Outcome(Store(Commit(s.db, id, Change(Apply(read), [PaymentSucceeded(id, read.payment.amount)])), w.id,
                      r.(status := Applied, payment := Some(id))), Ok(()))
      else
        Outcome(Store(s.db, w.id, r.(status := RequiresReview, payment := Some(id))), Ok(()))
  }

  datatype Action =
    | Starts(tx: nat, call: Call)
    | Locks(tx: nat)
    | Commits(tx: nat)
    | Elsewhere(op: Op, db: Db, home: map<nat, (nat, nat)>)

  predicate Next(s: Sys, e: Action, s': Sys)
  {
    match e
    case Starts(t, call) =>
      && t !in s.phases && t !in s.calls
      && (call.Transfer? ==> !InboxBusy(s, call.webhook.id))
      && s' == Begin(s, t, call)
    case Locks(t) =>
      && t in s.phases && s.phases[t].Waiting? && s.phases[t].order in s.db.orders
      && !Locked(s, s.phases[t].order)
      && s' == Lock(s, t)
    case Commits(t) =>
      && t in s.phases && s.phases[t].Holding? && t in s.calls
      && s' == Finish(s, t, s.calls[t], Decide(s, s.calls[t], s.phases[t].order, s.phases[t].position, s.phases[t].read))
    case Elsewhere(op, db', home') =>
      && InBackground(s.db, op, db')
      && (forall r :: r in s.home ==> r in home' && home'[r] == s.home[r])
      && (forall r :: r in home' ==> home'[r].0 in db'.orders)
      && s' == s.(db := db', home := home', history := s.history + [Entry(Background(op), Ok(()), db', home')])
  }

  // ---- The simulation -----------------------------------------------------------------------

  // What the reads before the lock found is still so: it concerns columns nobody rewrites.
  predicate StillTrue(s: Sys, call: Call, id: nat, position: nat)
  {
    id in s.db.orders &&
    match call
    case Move(row, act) => Rejected(act).None? && row in s.home && s.home[row] == (id, position)
    case Abandon(order, _) => order == id
    case Transfer(enabled, w) =>
      && enabled && WebhookValid(w) && w.id !in s.db.receipts
      && Matched(s.db, ReceiptOf(w)) && ReceiptOf(w).code == Some(id)
  }

  predicate PhaseOk(s: Sys, t: nat)
    requires t in s.phases
  {
    t in s.calls &&
    match s.phases[t]
    case Waiting(id, position) => StillTrue(s, s.calls[t], id, position)
    case Holding(id, position, read) => StillTrue(s, s.calls[t], id, position) && s.db.orders[id] == read
    case Done(at) => at < |s.history| && s.history[at].work == Client(s.calls[t])
  }

  predicate InFlight(s: Sys, t: nat)
  {
    t in s.phases && !s.phases[t].Done? && t in s.calls && s.calls[t].Transfer?
  }

  ghost predicate OneInFlight(s: Sys)
  {
    forall t, u :: InFlight(s, t) && InFlight(s, u) && t != u ==> s.calls[t].webhook.id != s.calls[u].webhook.id
  }

  predicate OneHolder(s: Sys)
  {
    forall t, u :: t in s.phases && u in s.phases && s.phases[t].Holding? && s.phases[u].Holding? && t != u ==>
      s.phases[t].order != s.phases[u].order
  }

  ghost predicate SysInv(s: Sys)
  {
    && Serial(s.history)
    && Before(s.history, |s.history|) == (s.db, s.home)
    && OrdersInv(s.db.orders)
    && (forall t :: t in s.phases ==> PhaseOk(s, t))
    && (forall r :: r in s.home ==> s.home[r].0 in s.db.orders)
    && OneInFlight(s) && OneHolder(s)
  }

  // Under the lock the second read is the current row, so the decision is the serial outcome.
  lemma DecideIsSerial(s: Sys, call: Call, id: nat, position: nat, read: Order)
    requires StillTrue(s, call, id, position) && s.db.orders[id] == read
    ensures Decide(s, call, id, position, read) == Serially(s.db, s.home, call)
  {
    hide Perform, WebhookValid, CanApply, Trim;
    assert s.db.orders[id := read] == s.db.orders;
  }

  predicate EndsAtOnce(s: Sys, t: nat, call: Call)
  {
    t in Begin(s, t, call).phases && Begin(s, t, call).phases[t].Done?
  }

  // What reads before the lock see ends in the serial outcome too, when it ends there; otherwise
  // the transaction waits for a lock and what it read is so.
  predicate BeginsSerially(s: Sys, t: nat, call: Call)
  {
    var s' := Begin(s, t, call);
    && t in s'.phases && s'.phases == s.phases[t := s'.phases[t]]
    && (s'.phases[t].Done? ==> s' == Finish(s, t, call, Serially(s.db, s.home, call)))
    && (!s'.phases[t].Done? ==>
          && s'.phases[t].Waiting? && s' == Park(s, t, call, s'.phases[t].order, s'.phases[t].position)
          && StillTrue(s, call, s'.phases[t].order, s'.phases[t].position))
  }

  lemma BeginIsSerial(s: Sys, t: nat, call: Call)
    requires forall r :: r in s.home ==> s.home[r].0 in s.db.orders
    ensures BeginsSerially(s, t, call)
  {
    hide Receive, WebhookValid, Cancel, ActOn, ReceiptOf;
    NotActing(s, call);
  }

  // A call refused for its arguments, or for a missing row, is refused by the transaction too.
  lemma NotActing(s: Sys, call: Call)
    ensures call.Move? && Rejected(call.act).Some? ==> Serially(s.db, s.home, call) == Refused(s.db, Rejected(call.act).value)
    ensures call.Abandon? && call.order !in s.db.orders ==> Serially(s.db, s.home, call) == Refused(s.db, NotFound)
  {
  }

  lemma SerialGrows(h: seq<Entry>, e: Entry)
    requires Serial(h) && EntryValid(Before(h, |h|).0, Before(h, |h|).1, e)
    ensures Serial(h + [e])
    ensures Before(h + [e], |h| + 1) == (e.db, e.home)
  {
    hide EntryValid;
    forall i | 0 <= i < |h| + 1
      ensures EntryValid(Before(h + [e], i).0, Before(h + [e], i).1, (h + [e])[i])
    {
      assert Before(h + [e], i) == Before(h, i);
      if i < |h| {
        assert EntryValid(Before(h, i).0, Before(h, i).1, h[i]);
      }
    }
  }

  // A client transaction touches one order and at most its own receipt, and keeps the columns
  // that earlier reads of others relied on.
  predicate Touches(db: Db, db': Db, id: nat)
  {
    && db'.orders.Keys == db.orders.Keys
    && (forall o :: o in db.orders && o != id ==> db'.orders[o] == db.orders[o])
    && (id in db.orders ==> db'.orders[id].payment.way == db.orders[id].payment.way)
    && OrdersInv(db'.orders)
  }

  lemma MovedTouches(db: Db, db': Db, id: nat)
    requires OrdersInv(db.orders) && MovesOne(db.orders, db'.orders, id)
    ensures Touches(db, db', id)
  {
    hide Consistent, OrdersInv, Moves;
    if db'.orders != db.orders {
      KeptHeader(db.orders[id], db'.orders[id]);
      ReplaceKeepsOrders(db.orders, id, db'.orders[id]);
    }
  }

  lemma KeptHeader(o: Order, o': Order)
    requires Moves(o, o')
    ensures o'.payment.way == o.payment.way
  {
    assert o'.payment.(status := o.payment.status) == o.payment;
  }

  function Target(s: Sys, call: Call): nat
  {
    match call
    case Move(row, _) => if row in s.home then s.home[row].0 else 0
    case Abandon(id, _) => id
    case Transfer(_, w) => if ReceiptOf(w).code.Some? then ReceiptOf(w).code.value else 0
  }

  // Receipts only appear, and only under the number of the transfer that commits.
  predicate OwnReceipt(db: Db, db': Db, call: Call)
  {
    forall u :: u in db'.receipts ==> u in db.receipts || (call.Transfer? && u == call.webhook.id)
  }

  lemma NothingTouched(db: Db, id: nat)
    requires OrdersInv(db.orders)
    ensures Touches(db, db, id)
  {
    hide OrdersInv;
  }

  lemma SeriallyTouches(s: Sys, call: Call)
    requires OrdersInv(s.db.orders)
    ensures Touches(s.db, Serially(s.db, s.home, call).db, Target(s, call))
    ensures OwnReceipt(s.db, Serially(s.db, s.home, call).db, call)
  {
    hide ActOn, CancelOrder, Receive, ReceiptOf, OrdersInv, Rejected, MovesOne, Touches;
    NothingTouched(s.db, Target(s, call));
    match call
    case Move(row, act) =>
      if Rejected(act).None? && row in s.home {
        ActMovesOne(s.db, s.home[row].0, At(act, s.home[row].1));
        MovedTouches(s.db, Serially(s.db, s.home, call).db, s.home[row].0);
      }
    case Abandon(id, user) =>
      CancelMovesOne(s.db, id, user);
      MovedTouches(s.db, Serially(s.db, s.home, call).db, id);
    case Transfer(enabled, w) => ReceiveTouches(s.db, enabled, w, Target(s, call));
  }

  lemma ReceiveTouches(db: Db, enabled: bool, w: Webhook, id: nat)
    requires OrdersInv(db.orders) && (Matched(db, ReceiptOf(w)) ==> ReceiptOf(w).code == Some(id))
    ensures Touches(db, Receive(db, enabled, w).db, id)
    ensures forall u :: u in Receive(db, enabled, w).db.receipts ==> u in db.receipts || u == w.id
  {
    hide Reconcile, ReceiptOf, OrdersInv, WebhookValid, SameTransfer, Matched, MovesOne;
    if Matched(db, ReceiptOf(w)) {
      ReconcileMovesOne(db, w.id, ReceiptOf(w));
      MovedTouches(db, Reconcile(db, w.id, ReceiptOf(w)), id);
    }
  }

  // Another transaction's phase survives a commit on an order it does not hold.
  lemma OthersUndisturbed(s: Sys, s': Sys, t: nat, call: Call, u: nat)
    requires SysInv(s) && u in s.phases && u != t
    requires s'.phases == s.phases[t := Done(|s.history|)] && s'.calls == s.calls[t := call] && s'.home == s.home
    requires |s'.history| == |s.history| + 1 && s'.history[..|s.history|] == s.history
    requires Touches(s.db, s'.db, Target(s, call)) && OwnReceipt(s.db, s'.db, call)
    requires call.Transfer? && s'.db != s.db && u in s.calls && s.calls[u].Transfer? && !s.phases[u].Done? ==>
      s.calls[u].webhook.id != call.webhook.id
    requires s.phases[u].Holding? && s'.db.orders != s.db.orders ==> s.phases[u].order != Target(s, call)
    ensures PhaseOk(s', u)
  {
    hide Serial, OrdersInv, OneInFlight, OneHolder, WebhookValid, ReceiptOf, Target;
    assert PhaseOk(s, u);
    if s.phases[u].Done? {
      assert s'.history[s.phases[u].at] == s.history[s.phases[u].at];
    }
  }

  // ---- Preservation -------------------------------------------------------------------------

  // Ending a transaction with its serial outcome keeps the simulation.
  lemma FinishKeeps(s: Sys, t: nat, call: Call)
    requires SysInv(s)
    requires t in s.phases ==> t in s.calls && s.calls[t] == call && s.phases[t].Holding? && s.phases[t].order == Target(s, call)
    requires t !in s.phases ==> Serially(s.db, s.home, call).db.orders == s.db.orders && (call.Transfer? ==> !InboxBusy(s, call.webhook.id))
    ensures SysInv(Finish(s, t, call, Serially(s.db, s.home, call)))
  {
    hide Serial, OrdersInv, Serially, WebhookValid, ReceiptOf, Target, StillTrue, EntryValid, PhaseOk, OneInFlight;
    var out := Serially(s.db, s.home, call);
    var s' := Finish(s, t, call, out);
    SeriallyTouches(s, call);
    FinishIsEntry(s, t, call);
    SerialGrows(s.history, Entry(Client(call), out.answer, out.db, s.home));
    forall u | u in s'.phases
      ensures PhaseOk(s', u)
    {
      if u != t {
        OtherTransfer(s, t, call, u);
        OthersUndisturbed(s, s', t, call, u);
      }
    }
    FlightEnds(s, s', t);
  }

  lemma FinishIsEntry(s: Sys, t: nat, call: Call)
    ensures var out := Serially(s.db, s.home, call); EntryValid(s.db, s.home, Entry(Client(call), out.answer, out.db, s.home))
    ensures PhaseOk(Finish(s, t, call, Serially(s.db, s.home, call)), t)
  {
    hide Serially;
  }

  // No other transaction in flight delivers the same transfer.
  lemma OtherTransfer(s: Sys, t: nat, call: Call, u: nat)
    requires OneInFlight(s) && u != t
    requires t in s.phases ==> t in s.calls && s.calls[t] == call && s.phases[t].Holding?
    requires t !in s.phases ==> (call.Transfer? ==> !InboxBusy(s, call.webhook.id))
    ensures InFlight(s, u) && call.Transfer? ==> s.calls[u].webhook.id != call.webhook.id
  {
    if t in s.phases && call.Transfer? {
      assert InFlight(s, t);
    }
  }

  lemma FlightEnds(s: Sys, s': Sys, t: nat)
    requires OneInFlight(s) && t in s'.phases && s'.phases[t].Done?
    requires forall u :: u in s'.phases && u != t ==> u in s.phases && s'.phases[u] == s.phases[u]
    requires forall u :: u != t && u in s'.calls ==> u in s.calls && s'.calls[u] == s.calls[u]
    ensures OneInFlight(s')
  {
    assert forall u :: InFlight(s', u) ==> InFlight(s, u) && s'.calls[u] == s.calls[u];
  }

  lemma ParkKeeps(s: Sys, t: nat, call: Call, id: nat, position: nat)
    requires SysInv(s) && t !in s.phases && StillTrue(s, call, id, position)
    requires call.Transfer? ==> !InboxBusy(s, call.webhook.id)
    ensures SysInv(Park(s, t, call, id, position))
  {
    hide Serial, OrdersInv, StillTrue;
    var s' := Park(s, t, call, id, position);
    forall u | u in s'.phases
      ensures PhaseOk(s', u)
    {
      if u != t {
        assert PhaseOk(s, u);
        if !s.phases[u].Done? {
          SameReads(s, s', s.calls[u], s.phases[u].order, s.phases[u].position);
        }
      } else {
        SameReads(s, s', call, id, position);
      }
    }
    forall u, v | InFlight(s', u) && InFlight(s', v) && u != v
      ensures s'.calls[u].webhook.id != s'.calls[v].webhook.id
    {
      assert u != t ==> InFlight(s, u);
      assert v != t ==> InFlight(s, v);
    }
  }

  lemma SameReads(s: Sys, s': Sys, call: Call, id: nat, position: nat)
    requires s'.db == s.db && s'.home == s.home && StillTrue(s, call, id, position)
    ensures StillTrue(s', call, id, position)
  {
  }

  lemma LockKeeps(s: Sys, t: nat)
    requires SysInv(s) && t in s.phases && s.phases[t].Waiting? && s.phases[t].order in s.db.orders && !Locked(s, s.phases[t].order)
    ensures SysInv(Lock(s, t))
  {
    hide Serial, OrdersInv, StillTrue;
    var s' := Lock(s, t);
    forall u | u in s'.phases
      ensures PhaseOk(s', u)
    {
      assert PhaseOk(s, u);
      if !s.phases[u].Done? {
        SameReads(s, s', s.calls[u], s.phases[u].order, s.phases[u].position);
      }
    }
    assert forall u :: InFlight(s', u) <==> InFlight(s, u);
  }

  lemma BackgroundUntouched(db: Db, op: Op, db': Db)
    requires OrdersInv(db.orders) && InBackground(db, op, db')
    ensures db'.receipts == db.receipts && OrdersInv(db'.orders)
    ensures forall id :: id in db.orders ==> id in db'.orders && db'.orders[id] == db.orders[id]
  {
    hide Consistent, Obstacle, UnpayableOnline, Discounted, PlacedFrom, Headed, OrdersInv;
    if op.PlaceOrder? && db' != db {
      PlacedOrderConsistent(db, op.demand, op.world, op.id, op.order, op.discounts, db');
      ReplaceKeepsOrders(db.orders, op.id, op.order);
    }
  }

  lemma PlacedOrderConsistent(db: Db, d: Demand, w: World, id: nat, o: Order, discounts: seq<int64>, db': Db)
    requires Places(db, d, w, id, o, discounts, db')
    ensures Consistent(o) && id !in db.orders && db'.orders == db.orders[id := o] && db'.receipts == db.receipts
  {
    hide Consistent, Grouped, Commissioned, Total;
    AcceptedRows(db, d, w, discounts);
    PlacedIsConsistent(o, PricedRows(db, d, w, discounts), w.shops);
  }

  lemma ElsewhereKeeps(s: Sys, op: Op, db': Db, home': map<nat, (nat, nat)>)
    requires SysInv(s) && InBackground(s.db, op, db')
    requires forall r :: r in s.home ==> r in home' && home'[r] == s.home[r]
    requires forall r :: r in home' ==> home'[r].0 in db'.orders
    ensures SysInv(s.(db := db', home := home', history := s.history + [Entry(Background(op), Ok(()), db', home')]))
  {
    hide Serial, OrdersInv, InBackground, WebhookValid, ReceiptOf;
    var e := Entry(Background(op), Ok(()), db', home');
    var s' := s.(db := db', home := home', history := s.history + [e]);
    BackgroundUntouched(s.db, op, db');
    SerialGrows(s.history, e);
    forall u | u in s'.phases
      ensures PhaseOk(s', u)
    {
      assert PhaseOk(s, u);
      if s.phases[u].Done? {
        assert s'.history[s.phases[u].at] == s.history[s.phases[u].at];
      }
    }
    assert forall u :: InFlight(s', u) <==> InFlight(s, u);
  }

  lemma NextKeeps(s: Sys, e: Action, s': Sys)
    requires SysInv(s) && Next(s, e, s')
    ensures SysInv(s')
  {
    hide SysInv, Serial, Decide, Serially, InBackground, Begin, StillTrue;
    match e
    case Starts(t, call) =>
      HomesKnown(s);
      BeginIsSerial(s, t, call);
      if s'.phases[t].Done? {
        BeginReadsOnly(s, t, call);
        FinishKeeps(s, t, call);
      } else {
        ParkKeeps(s, t, call, s'.phases[t].order, s'.phases[t].position);
      }
    case Locks(t) => LockKeeps(s, t);
    case Commits(t) =>
      HoldingTruth(s, t);
      DecideIsSerial(s, s.calls[t], s.phases[t].order, s.phases[t].position, s.phases[t].read);
      FinishKeeps(s, t, s.calls[t]);
    case Elsewhere(op, db', home') => ElsewhereKeeps(s, op, db', home');
  }

  lemma HomesKnown(s: Sys)
    requires SysInv(s)
    ensures forall r :: r in s.home ==> s.home[r].0 in s.db.orders
  {
  }

  lemma HoldingTruth(s: Sys, t: nat)
    requires SysInv(s) && t in s.phases && s.phases[t].Holding? && t in s.calls
    ensures StillTrue(s, s.calls[t], s.phases[t].order, s.phases[t].position)
    ensures s.db.orders[s.phases[t].order] == s.phases[t].read && s.phases[t].order == Target(s, s.calls[t])
  {
    hide Serial, OrdersInv, OneInFlight, OneHolder, WebhookValid, ReceiptOf;
    assert PhaseOk(s, t);
  }

  // A transaction that ends before it takes a lock changes no order.
  lemma BeginReadsOnly(s: Sys, t: nat, call: Call)
    requires EndsAtOnce(s, t, call)
    ensures Serially(s.db, s.home, call).db.orders == s.db.orders
  {
    hide WebhookValid, ReceiptOf, Reconcile, Perform, Cancel, Rejected, Matched;
  }

  // ---- Runs ---------------------------------------------------------------------------------

  const START := Sys(EMPTY, map[], map[], map[], [], [])

  ghost predicate Interleaving(states: seq<Sys>, events: seq<Action>)
  {
    && |states| == |events| + 1
    && states[0] == START
    && forall i :: 0 <= i < |events| ==> Next(states[i], events[i], states[i + 1])
  }

  lemma {:induction false} InterleavingKeeps(states: seq<Sys>, events: seq<Action>, n: nat)
    requires Interleaving(states, events) && n < |states|
    ensures SysInv(states[n])
  {
    hide SysInv, Next;
    if n == 0 {
      StartOk();
    } else {
      InterleavingKeeps(states, events, n - 1);
      assert Next(states[n - 1], events[n - 1], states[n]);
      NextKeeps(states[n - 1], events[n - 1], states[n]);
    }
  }

  lemma StartOk()
    ensures SysInv(START)
  {
  }

  // Main theorem. After any interleaving there is one serial history: replayed one transaction at
  // a time from the empty database it ends in the same database, and every finished call has its
  // own entry in it, whose answer is the serial one.
  lemma InterleavingIsSerial(states: seq<Sys>, events: seq<Action>, n: nat)
    requires Interleaving(states, events) && n < |states|
    ensures Serial(states[n].history)
    ensures Before(states[n].history, |states[n].history|) == (states[n].db, states[n].home)
    ensures forall t :: t in states[n].phases && states[n].phases[t].Done? ==>
      t in states[n].calls && states[n].phases[t].at < |states[n].history| &&
      states[n].history[states[n].phases[t].at].work == Client(states[n].calls[t])
  {
    hide Serial, OrdersInv, OneInFlight, OneHolder, Next;
    InterleavingKeeps(states, events, n);
    var s := states[n];
    forall t | t in s.phases && s.phases[t].Done?
      ensures t in s.calls && s.phases[t].at < |s.history| && s.history[s.phases[t].at].work == Client(s.calls[t])
    {
      assert PhaseOk(s, t);
    }
  }

  // The serial history keeps the lock order: of two transactions that locked the same order, the
  // one that locked first is finished before the other holds the lock, and comes first.
  predicate LockOrder(s: Sys)
  {
    && (forall i :: 0 <= i < |s.lockLog| ==> HasLocked(s, s.lockLog[i]))
    && (forall i, j :: 0 <= i < j < |s.lockLog| && s.lockLog[i].0 == s.lockLog[j].0 ==> Precedes(s, s.lockLog[i].1, s.lockLog[j].1))
  }

  predicate HasLocked(s: Sys, l: (nat, nat))
  {
    l.1 in s.phases && !s.phases[l.1].Waiting? && (s.phases[l.1].Holding? ==> s.phases[l.1].order == l.0)
    && (s.phases[l.1].Done? ==> s.phases[l.1].at < |s.history|)
  }

  predicate Precedes(s: Sys, t: nat, u: nat)
  {
    && t in s.phases && u in s.phases
    && s.phases[t].Done? && s.phases[t].at < |s.history|
    && (s.phases[u].Done? ==> s.phases[t].at < s.phases[u].at)
  }

  lemma BeginLocksNothing(s: Sys, t: nat, call: Call)
    ensures Begin(s, t, call).lockLog == s.lockLog && s.history <= Begin(s, t, call).history
    ensures Begin(s, t, call).phases == s.phases[t := Begin(s, t, call).phases[t]]
  {
    hide Receive, ReceiptOf, WebhookValid, Matched, Rejected;
  }

  lemma NextKeepsLockOrder(s: Sys, e: Action, s': Sys)
    requires LockOrder(s) && Next(s, e, s')
    ensures LockOrder(s')
  {
    hide Begin, Decide, InBackground;
    match e
    case Starts(t, call) => BeginLocksNothing(s, t, call);
    case Locks(t) =>
      var id := s.phases[t].order;
      forall i | 0 <= i < |s.lockLog| && s.lockLog[i].0 == id
        ensures Precedes(s', s.lockLog[i].1, t)
      {
        assert HasLocked(s, s.lockLog[i]);
      }
    case Commits(t) =>
    case Elsewhere(op, db', home') =>
  }

  lemma {:induction false} LockOrderIsSerialOrder(states: seq<Sys>, events: seq<Action>, n: nat)
    requires Interleaving(states, events) && n < |states|
    ensures LockOrder(states[n])
  {
    hide LockOrder, Next;
    if n == 0 {
      StartUnlocked();
    } else {
      LockOrderIsSerialOrder(states, events, n - 1);
      assert Next(states[n - 1], events[n - 1], states[n]);
      NextKeepsLockOrder(states[n - 1], events[n - 1], states[n]);
    }
  }

  lemma StartUnlocked()
    ensures LockOrder(START)
  {
  }
}
