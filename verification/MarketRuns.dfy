/** Statements about whole runs of the marketplace, drawn from the invariant. */
module MarketRuns {
  import opened Common
  import opened Orders
  import opened Checkout
  import opened Market
  import opened Lifecycle
  import opened MarketInvariant

  // ---- What one reachable state says about one order ----------------------------------------

  predicate NoShipment(cs: seq<Child>)
  {
    forall i :: 0 <= i < |cs| ==> cs[i].shipment.None?
  }

  // Statuses are stored redundantly and agree.
  predicate JointLifecycle(o: Order)
  {
    && o.status == DerivedStatus(o.children)
    && !(HasInternal(o.children) && HasExternal(o.children))
    && (o.status == OrderCancelled ==> NoShipment(o.children))
    && forall i :: 0 <= i < |o.children| && o.children[i].shipment.Some? ==>
         Mirrors(o.children[i].status, o.children[i].shipment.value)
  }

  // Money received is marked exactly when it is, in both payment methods.
  ghost predicate ExactPayment(db: Db, id: nat)
    requires id in db.orders
  {
    var o := db.orders[id];
    && (o.payment.status == Void <==> o.status == OrderCancelled)
    && (o.payment.way == Cod ==> (o.payment.status == Paid <==> CashComplete(o.children)))
    && (o.payment.way == Sepay ==>
          (o.payment.status == Paid <==>
           exists t :: AppliedTo(db.receipts, id) == {t} && t in db.receipts && db.receipts[t].amount == o.payment.amount))
    && (o.payment.way == Sepay && (o.status == OrderProcessing || o.status == OrderDelivered) ==> o.payment.status == Paid)
    && Successes(db.outbox, id) <= 1
  }

  // Main theorem: every order of every reachable state.
  lemma ReachableOrder(states: seq<Db>, ops: seq<Op>, n: nat, id: nat)
    requires Run(states, ops) && n < |states| && id in states[n].orders
    ensures JointLifecycle(states[n].orders[id])
    ensures ExactPayment(states[n], id)
    ensures Sum(CodAmounts(states[n].orders[id].children)) <= states[n].orders[id].payment.amount as int
    ensures var o := states[n].orders[id];
      o.payment.way == Cod && o.payment.status == Paid && HasInternal(o.children) ==>
        Sum(CodAmounts(o.children)) == o.payment.amount as int
  {
    hide Step, Inv, Consistent;
    RunKeepsInvariant(states, ops, n);
    OrderFacts(states[n], id);
    CashConserved(states[n].orders[id]);
    LifecycleOf(states[n].orders[id]);
    PaymentOf(states[n], id);
  }

  lemma OrderFacts(db: Db, id: nat)
    requires Inv(db) && id in db.orders
    ensures Consistent(db.orders[id]) && TransfersInv(db.orders, db.receipts)
    ensures Successes(db.outbox, id) == Announced(db.orders[id])
  {
  }

  lemma LifecycleOf(o: Order)
    requires Consistent(o)
    ensures JointLifecycle(o)
  {
    if o.status == OrderCancelled {
      assert All(o.children, Cancelled);
      assert forall i :: 0 <= i < |o.children| ==> ChildConsistent(o.children[i], o.payment.way);
    }
  }

  lemma PaymentOf(db: Db, id: nat)
    requires id in db.orders && Consistent(db.orders[id]) && TransfersInv(db.orders, db.receipts)
    requires Successes(db.outbox, id) == Announced(db.orders[id])
    ensures ExactPayment(db, id)
  {
    hide AppliedTo, ChildConsistent;
    if db.orders[id].payment.way == Sepay {
      AppliedOnce(db, id);
    }
  }

  lemma AppliedOnce(db: Db, id: nat)
    requires TransfersInv(db.orders, db.receipts) && id in db.orders && db.orders[id].payment.way == Sepay
    ensures db.orders[id].payment.status == Paid <==>
              exists t :: AppliedTo(db.receipts, id) == {t} && t in db.receipts && db.receipts[t].amount == db.orders[id].payment.amount
  {
    var applied := AppliedTo(db.receipts, id);
    if db.orders[id].payment.status == Paid {
      var t :| t in applied;
      assert |applied - {t}| == 0;
      assert applied == {t};
      assert AppliedWell(db.receipts[t], db.orders);
    }
  }

  // Main theorem: the payment history of every reachable state is exactly its matched receipts, and
  // an online payment is paid exactly when one row of its history is applied, with its amount.
  lemma ReachableHistory(states: seq<Db>, ops: seq<Op>, n: nat)
    requires Run(states, ops) && n < |states|
    ensures var db := states[n];
      && db.transactions.Keys == (set t | t in db.receipts && db.receipts[t].payment.Some?)
      && (forall t :: t in db.transactions ==> db.transactions[t].status == Applied || db.transactions[t].status == RequiresReview)
      && forall id :: id in db.orders && db.orders[id].payment.way == Sepay ==>
           (db.orders[id].payment.status == Paid <==>
            exists t :: AppliedRow(db, t, id) && forall u :: AppliedRow(db, u, id) ==> u == t)
  {
    hide Step, Inv, Consistent;
    RunKeepsInvariant(states, ops, n);
    HistoryOf(states[n]);
    var db := states[n];
    forall id | id in db.orders && db.orders[id].payment.way == Sepay
      ensures db.orders[id].payment.status == Paid <==>
        exists t :: AppliedRow(db, t, id) && forall u :: AppliedRow(db, u, id) ==> u == t
    {
      OrderFacts(db, id);
      AppliedOnce(db, id);
      RowsOfApplied(db, id);
    }
  }

  lemma HistoryOf(db: Db)
    requires Inv(db)
    ensures HistoryInv(db.receipts, db.transactions)
  {
  }

  // Applied rows are the applied receipts.
  lemma RowsOfApplied(db: Db, id: nat)
    requires HistoryInv(db.receipts, db.transactions) && TransfersInv(db.orders, db.receipts) && id in db.orders
    ensures forall t :: AppliedRow(db, t, id) <==> t in AppliedTo(db.receipts, id)
  {
    forall t
      ensures AppliedRow(db, t, id) <==> t in AppliedTo(db.receipts, id)
    {
      if t in db.receipts {
        assert AppliedWell(db.receipts[t], db.orders);
      }
    }
  }

  predicate AppliedRow(db: Db, t: int64, id: nat)
  {
    id in db.orders && t in db.transactions && db.transactions[t] == Transaction(id, Applied, db.orders[id].payment.amount)
  }

  // Main theorem: the stock ledger of every reachable state.
  lemma ReachableLedger(states: seq<Db>, ops: seq<Op>, n: nat, v: nat)
    requires Run(states, ops) && n < |states|
    ensures v in states[n].stock ==> 0 <= states[n].stock[v] == Net(states[n].ledger, OfVariant(v))
    ensures forall id :: id in states[n].orders ==>
      Net(states[n].ledger, OfOrder(v, id)) ==
        if states[n].orders[id].status == OrderCancelled then 0 else -Ordered(states[n].orders[id], v)
  {
    RunKeepsInvariant(states, ops, n);
    forall id | id in states[n].orders
      ensures Net(states[n].ledger, OfOrder(v, id)) == Owed(states[n].orders[id], v)
    {
    }
  }

  // ---- Across a run -------------------------------------------------------------------------

  lemma MovesReflexive(o: Order)
    ensures Moves(o, o)
  {
  }

  lemma StepMoves(db: Db, op: Op, db': Db, id: nat)
    requires OrdersInv(db.orders) && Step(db, op, db') && id in db.orders
    ensures id in db'.orders && Moves(db.orders[id], db'.orders[id])
  {
    hide ActOn, CancelOrder, Receive, Adjust, Places, Obstacle, UnpayableOnline, OrdersInv, Moves, MovesOne;
    MovesReflexive(db.orders[id]);
    match op
    case MoveOrder(other, act) =>
      ActMovesOne(db, other, act);
      MovedOne(db.orders, db'.orders, other, id);
    case AbandonOrder(other, user) =>
      CancelMovesOne(db, other, user);
      MovedOne(db.orders, db'.orders, other, id);
    case BankTransfer(enabled, w) => ReceiveMoves(db, enabled, w, id);
    case PlaceOrder(d, w, newId, o, discounts, answer) =>
      if db' != db {
        PlacedKeys(db, d, w, newId, o, discounts, db');
      }
    case AdjustStock(member, owned, v, delta, note) => SameOrders(db, member, owned, v, delta, note);
    case _ =>
  }

  lemma SameOrders(db: Db, member: bool, owned: bool, v: nat, delta: int, note: string)
    ensures Adjust(db, member, owned, v, delta, note).db.orders == db.orders
  {
  }

  lemma OrdersPart(db: Db)
    requires Inv(db)
    ensures OrdersInv(db.orders)
  {
  }

  lemma MovedOne(orders: map<nat, Order>, orders': map<nat, Order>, other: nat, id: nat)
    requires MovesOne(orders, orders', other) && id in orders
    ensures id in orders' && Moves(orders[id], orders'[id])
  {
    hide Moves, Consistent;
    MovesReflexive(orders[id]);
  }

  lemma ReconcileMoves(db: Db, t: int64, r: Receipt, id: nat)
    requires OrdersInv(db.orders) && id in db.orders && Matched(db, r)
    ensures id in Reconcile(db, t, r).orders && Moves(db.orders[id], Reconcile(db, t, r).orders[id])
  {
    hide Moves, OrdersInv, Reconcile, MovesOne;
    ReconcileMovesOne(db, t, r);
    MovedOne(db.orders, Reconcile(db, t, r).orders, r.code.value, id);
  }

  lemma ReceiveMoves(db: Db, enabled: bool, w: Webhook, id: nat)
    requires OrdersInv(db.orders) && id in db.orders
    ensures id in Receive(db, enabled, w).db.orders && Moves(db.orders[id], Receive(db, enabled, w).db.orders[id])
  {
    hide Moves, OrdersInv, Reconcile, ReceiptOf, SameTransfer, WebhookValid, Matched;
    MovesReflexive(db.orders[id]);
    if Matched(db, ReceiptOf(w)) {
      ReconcileMoves(db, w.id, ReceiptOf(w), id);
    }
  }

  // Main theorem: from any state of a run to any later one an order only moves forward. Paid is
  // never undone, delivered and returned shipments are final, drivers are fixed from pick-up on,
  // shipment logs only grow, and money and items never change.
  lemma {:induction false} OrdersMoveForward(states: seq<Db>, ops: seq<Op>, m: nat, n: nat, id: nat)
    requires Run(states, ops) && m <= n < |states| && id in states[m].orders
    ensures id in states[n].orders && Moves(states[m].orders[id], states[n].orders[id])
    decreases n
  {
    hide Moves, Inv, Step;
    if m == n {
      MovesReflexive(states[m].orders[id]);
    } else {
      assert Step(states[n - 1], ops[n - 1], states[n]);
      OrdersMoveForward(states, ops, m, n - 1, id);
      RunKeepsInvariant(states, ops, n - 1);
      OrdersPart(states[n - 1]);
      StepMoves(states[n - 1], ops[n - 1], states[n], id);
      MovesTransitive(states[m].orders[id], states[n - 1].orders[id], states[n].orders[id]);
    }
  }

  // Transactions other than checkout leave the key index alone, and those other than a bank
  // transfer leave the receipts alone.
  lemma OtherTables(db: Db, op: Op, db': Db)
    requires Step(db, op, db')
    ensures !op.PlaceOrder? ==> db'.keys == db.keys
    ensures !op.BankTransfer? ==> db'.receipts == db.receipts
  {
    hide ActOn, CancelOrder, Receive, Places, Obstacle, UnpayableOnline;
    match op
    case MoveOrder(id, act) => ActTables(db, id, act);
    case AbandonOrder(id, user) => CancelTables(db, id, user);
    case BankTransfer(enabled, w) => ReceiveTables(db, enabled, w);
    case PlaceOrder(d, w, id, o, discounts, answer) =>
      if db' != db {
        PlaceTables(db, d, w, id, o, discounts, db');
      }
    case _ =>
  }

  lemma ActTables(db: Db, id: nat, act: Act)
    ensures ActOn(db, id, act).db.keys == db.keys && ActOn(db, id, act).db.receipts == db.receipts
  {
    hide Perform, Rejected;
  }

  lemma CancelTables(db: Db, id: nat, user: nat)
    ensures CancelOrder(db, id, user).db.keys == db.keys && CancelOrder(db, id, user).db.receipts == db.receipts
  {
    hide Cancel, Rows, Restocked, InRange;
  }

  lemma ReconcileTables(db: Db, t: int64, r: Receipt)
    requires Matched(db, r)
    ensures Reconcile(db, t, r).keys == db.keys
  {
    hide CanApply, Apply;
  }

  lemma ReceiveTables(db: Db, enabled: bool, w: Webhook)
    ensures Receive(db, enabled, w).db.keys == db.keys
  {
    hide ReceiptOf, WebhookValid, SameTransfer, Reconcile, Matched;
    if Matched(db, ReceiptOf(w)) {
      ReconcileTables(db, w.id, ReceiptOf(w));
    }
  }

  lemma PlaceTables(db: Db, d: Demand, w: World, id: nat, o: Order, discounts: seq<int64>, db': Db)
    requires Places(db, d, w, id, o, discounts, db')
    ensures db'.receipts == db.receipts
  {
    hide PlacedFrom, Headed;
  }

  lemma StepKeepsKeys(db: Db, op: Op, db': Db, k: (nat, string))
    requires Step(db, op, db') && k in db.keys
    ensures k in db'.keys && db'.keys[k] == db.keys[k]
  {
    hide ActOn, CancelOrder, Receive, Adjust, Places, Obstacle, UnpayableOnline;
    OtherTables(db, op, db');
    match op
    case PlaceOrder(d, w, id, o, discounts, answer) =>
      if db' != db {
        PlacedKeys(db, d, w, id, o, discounts, db');
      }
    case _ =>
  }

  lemma PlacedKeys(db: Db, d: Demand, w: World, id: nat, o: Order, discounts: seq<int64>, db': Db)
    requires Places(db, d, w, id, o, discounts, db')
    ensures db'.keys == db.keys[(d.user, d.key) := id] && id !in db.orders && db'.orders == db.orders[id := o]
    ensures o.user == d.user && o.key == d.key && SameDemand(o, d)
  {
  }

  lemma {:induction false} KeysPersist(states: seq<Db>, ops: seq<Op>, m: nat, n: nat, k: (nat, string))
    requires Run(states, ops) && m <= n < |states| && k in states[m].keys
    ensures k in states[n].keys && states[n].keys[k] == states[m].keys[k]
    decreases n
  {
    hide Step;
    if m < n {
      KeysPersist(states, ops, m, n - 1, k);
      StepKeepsKeys(states[n - 1], ops[n - 1], states[n], k);
    }
  }

  // Main theorem: checkout is idempotent over every run. After a checkout has created an order,
  // any later checkout of the same user with the same key changes nothing; it answers that order
  // exactly when method, selection, coupon and address are those of the first call.
  lemma CheckoutIsIdempotent(states: seq<Db>, ops: seq<Op>, m: nat, n: nat)
    requires Run(states, ops) && m < n < |ops| && ops[m].PlaceOrder? && ops[n].PlaceOrder?
    requires ops[m].answer.Ok? && ops[n].world.userActive
    requires ops[n].demand.user == ops[m].demand.user && ops[n].demand.key == ops[m].demand.key
    ensures states[n + 1] == states[n]
    ensures ops[n].answer == if SameCall(ops[n].demand, ops[m].demand) then ops[m].answer else Err(Conflict)
  {
    var d, k := ops[m].demand, (ops[m].demand.user, ops[m].demand.key);
    var id := ops[m].answer.value;
    RunKeepsInvariant(states, ops, m);
    assert k in states[m + 1].keys && states[m + 1].keys[k] == id && id in states[m + 1].orders && SameDemand(states[m + 1].orders[id], d) by {
      AnsweredCheckout(states[m], ops[m].demand, ops[m].world, ops[m].id, ops[m].order, ops[m].discounts, states[m + 1], id);
    }
    KeysPersist(states, ops, m + 1, n, k);
    OrdersMoveForward(states, ops, m + 1, n, id);
    RunKeepsInvariant(states, ops, n);
    HeaderFixed(states[m + 1].orders[id], states[n].orders[id]);
  }

  // Main theorem: every shipment of every reachable state ends its log in its status, has taken
  // only permitted steps, matches its seller order, carries consistent cash flags, and holds a
  // settlement entry, the last one, exactly when it is settled.
  lemma ReachableShipment(states: seq<Db>, ops: seq<Op>, n: nat, id: nat, i: nat)
    requires Run(states, ops) && n < |states| && id in states[n].orders
    requires i < |states[n].orders[id].children| && states[n].orders[id].children[i].shipment.Some?
    ensures var c := states[n].orders[id].children[i];
      var s := c.shipment.value;
      && Mirrors(c.status, s) && Trail(s)
      && (forall j, k :: 0 <= j < k < |s.events| && s.events[j].status == HandedOver && s.events[k].status == HandedOver ==>
            s.settled && j == |s.events| - 2 && k == |s.events| - 1)
      && (s.settled ==> |s.events| >= 2 && s.events[|s.events| - 1].status == HandedOver && s.events[|s.events| - 2].status == HandedOver)
      && (s.settled ==> s.collected) && (s.collected ==> s.status == HandedOver && c.status == Delivered)
      && (IsInternal(c) && s.status != Requested ==> s.driver.Some?)
  {
    hide Step, Inv, Trail;
    RunKeepsInvariant(states, ops, n);
    OrderFacts(states[n], id);
    assert ChildConsistent(states[n].orders[id].children[i], states[n].orders[id].payment.way);
    SettlementOf(states[n].orders[id].children[i].shipment.value);
  }

  lemma SettlementOf(s: Shipment)
    requires Trail(s)
    ensures forall j, k :: 0 <= j < k < |s.events| && s.events[j].status == HandedOver && s.events[k].status == HandedOver ==>
      s.settled && j == |s.events| - 2 && k == |s.events| - 1
    ensures s.settled ==> |s.events| >= 2 && s.events[|s.events| - 1].status == HandedOver && s.events[|s.events| - 2].status == HandedOver
  {
  }

  // Main theorem: a delivery request key takes effect at most once. After it has been accepted for
  // a shipment, no later call with it, whatever else it says, changes anything.
  lemma RequestKeyTakesEffectOnce(states: seq<Db>, ops: seq<Op>, m: nat, n: nat)
    requires Run(states, ops) && m < n < |ops| && ops[m].MoveOrder? && ops[n].MoveOrder?
    requires ops[m].act.DeliveryUpdate? && ops[n].act.DeliveryUpdate? && ops[n].id == ops[m].id
    requires ops[n].act.child == ops[m].act.child && ops[n].act.key == ops[m].act.key
    requires ActOn(states[m], ops[m].id, ops[m].act).answer.Ok?
    ensures states[n + 1] == states[n]
  {
    hide Moves, Advance, UpdateWellFormed;
    var id, a, b := ops[m].id, ops[m].act, ops[n].act;
    var o := states[m].orders[id];
    assert states[m + 1].orders[id] == Advance(id, o, a.child, a.actor, a.driverApproved, a.key, a.update).value.order;
    OrdersMoveForward(states, ops, m + 1, n, id);
    var later := states[n].orders[id];
    ReplayIsInert(id, o, later, a.child, a.actor, a.driverApproved, a.key, a.update, b.actor, b.driverApproved, b.update);
    assert states[n].orders[id := later] == states[n].orders && states[n].outbox + [] == states[n].outbox;
  }

  predicate SameCall(a: Demand, b: Demand)
  {
    a.way == b.way && a.selection == b.selection && a.coupon == b.coupon && a.address == b.address
  }

  lemma HeaderFixed(o: Order, o': Order)
    requires Moves(o, o')
    ensures o'.payment.way == o.payment.way && o'.selection == o.selection && o'.coupon == o.coupon && o'.address == o.address
  {
    assert o'.(children := o.children, status := o.status, payment := o.payment) == o;
    assert o'.payment.(status := o.payment.status) == o.payment;
  }

  lemma AnsweredCheckout(db: Db, d: Demand, w: World, id: nat, o: Order, discounts: seq<int64>, db': Db, answer: nat)
    requires ChecksOut(db, d, w, id, o, discounts, db', Ok(answer)) && Inv(db)
    ensures (d.user, d.key) in db'.keys && db'.keys[(d.user, d.key)] == answer && answer in db'.orders && SameDemand(db'.orders[answer], d)
  {
    hide Places, Obstacle, UnpayableOnline;
    if (d.user, d.key) !in db.keys {
      PlacedKeys(db, d, w, id, o, discounts, db');
    }
  }

  lemma ReceiveKeepsReceipts(db: Db, enabled: bool, w: Webhook, t: int64)
    requires t in db.receipts
    ensures t in Receive(db, enabled, w).db.receipts && Receive(db, enabled, w).db.receipts[t] == db.receipts[t]
  {
    hide ReceiptOf, Reconcile, Matched, WebhookValid, SameTransfer;
    if Matched(db, ReceiptOf(w)) {
      Reconciled(db, w.id, ReceiptOf(w));
    }
  }

  lemma StepKeepsReceipts(db: Db, op: Op, db': Db, t: int64)
    requires Step(db, op, db') && t in db.receipts
    ensures t in db'.receipts && db'.receipts[t] == db.receipts[t]
  {
    hide ActOn, CancelOrder, Receive, Adjust, Places, Obstacle, UnpayableOnline;
    OtherTables(db, op, db');
    if op.BankTransfer? {
      ReceiveKeepsReceipts(db, op.enabled, op.webhook, t);
    }
  }

  lemma {:induction false} ReceiptsPersist(states: seq<Db>, ops: seq<Op>, m: nat, n: nat, t: int64)
    requires Run(states, ops) && m <= n < |states| && t in states[m].receipts
    ensures t in states[n].receipts && states[n].receipts[t] == states[m].receipts[t]
    decreases n
  {
    hide Step;
    if m < n {
      ReceiptsPersist(states, ops, m, n - 1, t);
      StepKeepsReceipts(states[n - 1], ops[n - 1], states[n], t);
    }
  }

  // Main theorem: a webhook delivered again, however much later, changes nothing; one that reuses
  // the transaction number for a different transfer is rejected and changes nothing either.
  lemma RedeliveryIsInert(states: seq<Db>, ops: seq<Op>, m: nat, n: nat)
    requires Run(states, ops) && m < n < |ops| && ops[m].BankTransfer? && ops[n].BankTransfer?
    requires ops[n].webhook.id == ops[m].webhook.id && ops[n].enabled && WebhookValid(ops[n].webhook)
    requires Receive(states[m], ops[m].enabled, ops[m].webhook).answer.Ok?
    ensures states[n + 1] == states[n]
    ensures Receive(states[n], true, ops[n].webhook).answer ==
              if SameTransfer(ReceiptOf(ops[m].webhook), ReceiptOf(ops[n].webhook)) then Ok(()) else Err(Conflict)
  {
    hide Trim, EqualFold;
    var t := ops[m].webhook.id;
    Received(states[m], ops[m].enabled, ops[m].webhook);
    ReceiptsPersist(states, ops, m + 1, n, t);
  }

  lemma Received(db: Db, enabled: bool, w: Webhook)
    requires Receive(db, enabled, w).answer.Ok?
    ensures w.id in Receive(db, enabled, w).db.receipts
    ensures SameTransfer(Receive(db, enabled, w).db.receipts[w.id], ReceiptOf(w))
  {
    hide ReceiptOf, Reconcile, Matched, WebhookValid;
    var r := ReceiptOf(w);
    if w.id !in db.receipts && Matched(db, r) {
      Reconciled(db, w.id, r);
    }
  }

  lemma Reconciled(db: Db, t: int64, r: Receipt)
    requires Matched(db, r)
    ensures t in Reconcile(db, t, r).receipts && SameTransfer(Reconcile(db, t, r).receipts[t], r)
    ensures Reconcile(db, t, r).receipts == db.receipts[t := Reconcile(db, t, r).receipts[t]]
  {
    hide CanApply, Apply, Store;
    var id := r.code.value;
    var change := Change(Apply(db.orders[id]), [PaymentSucceeded(id, db.orders[id].payment.amount)]);
    StoredShape(Commit(db, id, change), t, r.(status := Applied, payment := Some(id)));
    StoredShape(db, t, r.(status := RequiresReview, payment := Some(id)));
    var r' := Reconcile(db, t, r).receipts[t];
    assert r'.(status := r.status, payment := r.payment) == r;
  }
}
