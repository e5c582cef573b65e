/**
 * From the marketplace to the notification service: every event its transactions queue is well
 * formed for the classifier there, and an order event is addressed to the buyer of its order.
 */
module EventFlow {
  import opened Common
  import opened Orders
  import opened Checkout
  import opened Market
  import opened Lifecycle
  import opened MarketInvariant
  import MarketRuns
  import N = Notifications
  import P = Pipeline
  import D = PipelineDrain

  function StatusText(status: ChildStatus): string
  {
    match status
    case Pending => "pending"
    case Confirmed => "confirmed"
    case Shipping => "shipping"
    case Delivered => "delivered"
    case Cancelled => "cancelled"
  }

  function WayText(way: Method): string
  {
    if way == Cod then "cod" else "sepay"
  }

  const NO_BODY := N.Body(0, 0, 0, 0, "", "", "", 0, false)

  // The envelope a relay builds from an outbox row; row names the aggregate where it is not the order.
  function Enveloped(id: nat, row: nat, e: Event, orders: map<nat, Order>): N.Envelope
    requires Refers(e, orders)
  {
    match e
    case OrderCreated(o, u, total) =>
      N.Envelope(id, N.OrderCreated, 1, "order", o, true,
                 NO_BODY.(order := o, user := u, amount := total, discount := orders[o].discount, currency := "VND"))
    case OrderStatusChanged(o, child, status) =>
      N.Envelope(id, N.OrderStatusChanged, 1, if child.Some? then "seller_order" else "order", if child.Some? then row else o, true,
                 NO_BODY.(order := o, user := orders[o].user, status := StatusText(status)))
    case PaymentSucceeded(o, amount) =>
      N.Envelope(id, N.PaymentSucceeded, 1, if orders[o].payment.way == Cod then "order" else "payment", row, true,
                 NO_BODY.(order := o, user := orders[o].user, amount := amount, way := WayText(orders[o].payment.way)))
    case ShipmentStatusChanged(_, _, _) => N.Envelope(id, N.Other("shipment_status_changed"), 1, "shipment", row, true, NO_BODY)
    case ReconciliationRequired(_) => N.Envelope(id, N.Other("payment_reconciliation_required"), 1, "payment_webhook", row, true, NO_BODY)
    case InventoryChanged(v, _) => N.Envelope(id, N.InventoryChanged, 1, "variant", row, true, NO_BODY.(numericDelta := true))
  }

  // An event is about an order that exists, and names its buyer and no negative amount.
  predicate Refers(e: Event, orders: map<nat, Order>)
  {
    match e
    case OrderCreated(o, u, total) => o in orders && orders[o].user == u && 0 <= total
    case OrderStatusChanged(o, _, _) => o in orders
    case PaymentSucceeded(o, amount) => o in orders && 0 <= amount
    case _ => true
  }

  predicate Priced(o: Order)
  {
    0 <= o.discount && 0 <= o.total
  }

  predicate EventsInv(db: Db)
  {
    && (forall i :: 0 <= i < |db.outbox| ==> Refers(db.outbox[i], db.orders))
    && (forall id :: id in db.orders ==> Priced(db.orders[id]))
  }

  predicate AllRefer(events: seq<Event>, orders: map<nat, Order>)
  {
    forall i :: 0 <= i < |events| ==> Refers(events[i], orders)
  }

  // Orders stay, with the same buyer and the same prices.
  predicate Carried(orders: map<nat, Order>, orders': map<nat, Order>)
  {
    forall id :: id in orders ==> id in orders' && orders'[id].user == orders[id].user
                                  && orders'[id].discount == orders[id].discount && orders'[id].total == orders[id].total
  }

  lemma EventsGrow(db: Db, db': Db, events: seq<Event>)
    requires EventsInv(db) && Carried(db.orders, db'.orders) && db'.outbox == db.outbox + events && AllRefer(events, db'.orders)
    requires forall id :: id in db'.orders && id !in db.orders ==> Priced(db'.orders[id])
    ensures EventsInv(db')
  {
    forall i | 0 <= i < |db'.outbox|
      ensures Refers(db'.outbox[i], db'.orders)
    {
      if i < |db.outbox| {
        assert Refers(db.outbox[i], db.orders);
      } else {
        assert db'.outbox[i] == events[i - |db.outbox|];
      }
    }
  }

  // The events a transaction on one order queues are about that order.
  lemma PerformRefers(id: nat, o: Order, act: Act, orders: map<nat, Order>)
    requires Perform(id, o, act).Ok? && id in orders && 0 <= o.total
    ensures AllRefer(Perform(id, o, act).value.events, orders)
  {
    hide Prior, UpdateWellFormed, Transition, All, AllSettled, HasInternal, HasExternal, CarrierStep;
  }

  lemma MovesCarry(o: Order, o': Order)
    requires Moves(o, o')
    ensures o'.user == o.user && o'.discount == o.discount && o'.total == o.total
  {
    assert o'.(children := o.children, status := o.status, payment := o.payment) == o;
  }

  lemma StepCarries(db: Db, op: Op, db': Db)
    requires OrdersInv(db.orders) && Step(db, op, db')
    ensures Carried(db.orders, db'.orders)
  {
    hide Step, OrdersInv, Moves;
    forall id | id in db.orders
      ensures id in db'.orders && db'.orders[id].user == db.orders[id].user
              && db'.orders[id].discount == db.orders[id].discount && db'.orders[id].total == db.orders[id].total
    {
      MarketRuns.StepMoves(db, op, db', id);
      MovesCarry(db.orders[id], db'.orders[id]);
    }
  }

  lemma ActEvents(db: Db, id: nat, act: Act) returns (events: seq<Event>)
    requires EventsInv(db)
    ensures ActOn(db, id, act).db.outbox == db.outbox + events && ActOn(db, id, act).db.orders.Keys == db.orders.Keys
    ensures AllRefer(events, ActOn(db, id, act).db.orders)
  {
    hide Perform, Rejected;
    events := [];
    if Rejected(act).None? && id in db.orders && Perform(id, db.orders[id], act).Ok? {
      var change := Perform(id, db.orders[id], act).value;
      PerformRefers(id, db.orders[id], act, db.orders[id := change.order]);
      events := change.events;
    }
  }

  lemma CancelEvents(db: Db, id: nat, user: nat) returns (events: seq<Event>)
    ensures CancelOrder(db, id, user).db.outbox == db.outbox + events && CancelOrder(db, id, user).db.orders.Keys == db.orders.Keys
    ensures AllRefer(events, CancelOrder(db, id, user).db.orders)
  {
    hide Rows, Restocked, InRange, All;
    events := [];
    if CancelOrder(db, id, user).db != db {
      events := Cancel(id, db.orders[id], user).value.events;
    }
  }

  lemma ReceiveEvents(db: Db, enabled: bool, w: Webhook) returns (events: seq<Event>)
    ensures Receive(db, enabled, w).db.outbox == db.outbox + events && Receive(db, enabled, w).db.orders.Keys == db.orders.Keys
    ensures AllRefer(events, Receive(db, enabled, w).db.orders)
  {
    hide WebhookValid, SameTransfer, Reconcile, Matched, ReceiptOf, Store;
    events := [];
    var r := ReceiptOf(w);
    if enabled && WebhookValid(w) && w.id !in db.receipts {
      if Matched(db, r) {
        events := ReconcileEvents(db, w.id, r);
      } else {
        events := StoreEvents(db, w.id, r);
      }
    }
  }

  lemma StoreEvents(db: Db, t: int64, r: Receipt) returns (events: seq<Event>)
    ensures Market.Store(db, t, r).outbox == db.outbox + events && Market.Store(db, t, r).orders == db.orders
    ensures AllRefer(events, db.orders) && forall orders :: AllRefer(events, orders)
  {
    events := if r.status == RequiresReview || r.status == Unmatched then [ReconciliationRequired(t as int)] else [];
  }

  lemma ReconcileEvents(db: Db, t: int64, r: Receipt) returns (events: seq<Event>)
    requires Matched(db, r)
    ensures Reconcile(db, t, r).outbox == db.outbox + events && Reconcile(db, t, r).orders.Keys == db.orders.Keys
    ensures AllRefer(events, Reconcile(db, t, r).orders)
  {
    hide EqualFold;
    var id := r.code.value;
    var o := db.orders[id];
    if CanApply(o, r.direction == In, r.bank, r.account, r.amount) {
      events := [PaymentSucceeded(id, o.payment.amount)];
    } else {
      events := StoreEvents(db, t, r.(status := RequiresReview, payment := Some(id)));
    }
  }

  lemma PlacedEvents(db: Db, d: Demand, w: World, id: nat, o: Order, discounts: seq<int64>, db': Db)
    requires Places(db, d, w, id, o, discounts, db')
    ensures db'.outbox == db.outbox + [OrderCreated(id, d.user, o.total)] && db'.orders == db.orders[id := o]
    ensures id !in db.orders && o.user == d.user && Priced(o)
  {
    hide Grouped, Commissioned, Total, Lifecycle.Totals;
    AcceptedRows(db, d, w, discounts);
    MoneyConserved(o, PricedRows(db, d, w, discounts), w.shops);
  }

  lemma StepKeepsEvents(db: Db, op: Op, db': Db)
    requires OrdersInv(db.orders) && EventsInv(db) && Step(db, op, db')
    ensures EventsInv(db')
  {
    hide ActOn, CancelOrder, Receive, Places, Obstacle, UnpayableOnline, OrdersInv, EventsInv, AllRefer, Carried;
    StepCarries(db, op, db');
    match op
    case MoveOrder(id, act) =>
      var events := ActEvents(db, id, act);
      EventsGrow(db, db', events);
    case AbandonOrder(id, user) =>
      var events := CancelEvents(db, id, user);
      EventsGrow(db, db', events);
    case BankTransfer(enabled, w) =>
      var events := ReceiveEvents(db, enabled, w);
      EventsGrow(db, db', events);
    case PlaceOrder(d, w, id, o, discounts, answer) =>
      if db' != db {
        PlacedEvents(db, d, w, id, o, discounts, db');
        CreatedRefers(id, o, db'.orders);
        EventsGrow(db, db', [OrderCreated(id, d.user, o.total)]);
      }
    case AdjustStock(member, owned, v, delta, note) =>
      StockEvent(db, member, owned, v, delta, note);
    case _ => EventsSame(db, db');
  }

  lemma CreatedRefers(id: nat, o: Order, orders: map<nat, Order>)
    requires id in orders && orders[id] == o && Priced(o)
    ensures AllRefer([OrderCreated(id, o.user, o.total)], orders)
  {
  }

  lemma StockEvent(db: Db, member: bool, owned: bool, v: nat, delta: int, note: string)
    requires EventsInv(db)
    ensures EventsInv(Adjust(db, member, owned, v, delta, note).db)
  {
    var db' := Adjust(db, member, owned, v, delta, note).db;
    if db' != db {
      EventsGrow(db, db', [InventoryChanged(v, delta)]);
    }
  }

  lemma EventsSame(db: Db, db': Db)
    requires EventsInv(db) && db'.outbox == db.outbox && db'.orders == db.orders
    ensures EventsInv(db')
  {
  }

  lemma {:induction false} RunKeepsEvents(states: seq<Db>, ops: seq<Op>, n: nat)
    requires Run(states, ops) && n < |states|
    ensures EventsInv(states[n])
  {
    hide Step, Inv, EventsInv;
    if n == 0 {
      NoEvents();
    } else {
      RunKeepsEvents(states, ops, n - 1);
      RunKeepsInvariant(states, ops, n - 1);
      MarketRuns.OrdersPart(states[n - 1]);
      StepKeepsEvents(states[n - 1], ops[n - 1], states[n]);
    }
  }

  lemma NoEvents()
    ensures EventsInv(EMPTY)
  {
  }

  // Main theorem: over any run of the marketplace, no queued event is malformed to the notification
  // service, events about an order go to its buyer, and all others concern nobody.
  lemma EventsReachBuyers(states: seq<Db>, ops: seq<Op>, n: nat, i: nat, id: nat, row: nat)
    requires Run(states, ops) && n < |states| && i < |states[n].outbox| && id != 0 && row != 0
    requires forall o :: o in states[n].orders ==> o != 0 && states[n].orders[o].user != 0
    ensures var e := states[n].outbox[i];
      && Refers(e, states[n].orders)
      && (var verdict := N.Recipient(Enveloped(id, row, e, states[n].orders));
          match e
          case OrderCreated(o, u, _) => verdict == N.For(u, "") && u == states[n].orders[o].user
          case OrderStatusChanged(o, _, status) => verdict == N.For(states[n].orders[o].user, StatusText(status))
          case PaymentSucceeded(o, _) => verdict == N.For(states[n].orders[o].user, "")
          case _ => verdict == N.Unsupported)
  {
    hide Trim;
    RunKeepsEvents(states, ops, n);
    assert Refers(states[n].outbox[i], states[n].orders);
    PlainTexts();
  }

  predicate EnvelopeText(s: string)
  {
    s in {"order", "seller_order", "payment", "shipment", "payment_webhook", "variant", "cod", "sepay",
          "pending", "confirmed", "shipping", "delivered", "cancelled"}
  }

  // None of the texts that go into an envelope trims away.
  lemma PlainTexts()
    ensures forall s :: EnvelopeText(s) ==> Trim(s) == s && s != ""
  {
    forall s | EnvelopeText(s)
      ensures Trim(s) == s && s != ""
    {
      Untrimmed(s);
    }
  }

  lemma Untrimmed(s: string)
    requires s != "" && !Space(s[0]) && !Space(s[|s| - 1])
    ensures Trim(s) == s
  {
  }

  // ---- Through the pipeline -----------------------------------------------------------------

  // The outbox the relays work on holds what the marketplace queued.
  ghost predicate FilledBy(rows: map<nat, P.Row>, db: Db)
  {
    forall id :: id in rows ==> id != 0 && Carries(rows[id].envelope, id, db)
  }

  ghost predicate Carries(e: N.Envelope, id: nat, db: Db)
  {
    exists i: nat, row: nat :: row != 0 && CarriesAt(e, id, row, db, i)
  }

  predicate CarriesAt(e: N.Envelope, id: nat, row: nat, db: Db, i: nat)
  {
    i < |db.outbox| && Refers(db.outbox[i], db.orders) && e == Enveloped(id, row, db.outbox[i], db.orders)
  }

  lemma FilledIsWellFormed(states: seq<Db>, ops: seq<Op>, n: nat, rows: map<nat, P.Row>)
    requires Run(states, ops) && n < |states| && FilledBy(rows, states[n])
    requires forall o :: o in states[n].orders ==> o != 0 && states[n].orders[o].user != 0
    ensures forall id :: id in rows ==> !N.Recipient(rows[id].envelope).Malformed?
  {
    hide N.Recipient, Enveloped, Step, Refers, Run;
    forall id | id in rows
      ensures !N.Recipient(rows[id].envelope).Malformed?
    {
      assert Carries(rows[id].envelope, id, states[n]);
      var i: nat, row: nat :| row != 0 && CarriesAt(rows[id].envelope, id, row, states[n], i);
      EventsReachBuyers(states, ops, n, i, id, row);
    }
  }

  // Main theorem: for the events the marketplace queues, a dead letter topic matters only for what
  // others write. Once failures stop, every continuation ends drained if there is a topic or no
  // foreign record is in the log, and only then.
  lemma MarketEventsDrain(states: seq<Db>, ops: seq<Op>, n: nat, past: seq<P.Sys>, done: seq<P.Action>,
                          run: seq<P.Sys>, steps: seq<P.Action>)
    requires Run(states, ops) && n < |states|
    requires forall o :: o in states[n].orders ==> o != 0 && states[n].orders[o].user != 0
    requires P.Run(past, done) && D.SmoothRun(run, steps)
    requires |past[|done|].committed| == |past[|done|].log| && run[0] == D.Rebalanced(past[|done|])
    requires 0 < |run[0].relays| && 0 < |run[0].log|
    requires FilledBy(run[0].rows, states[n]) && forall a :: !D.Smooth(run[|steps|], a)
    ensures P.Drained(run[|steps|]) <==>
              run[0].dlq || forall p, o :: 0 <= p < |run[0].log| && 0 <= o < |run[0].log[p]| ==> !run[0].log[p][o].Garbage?
  {
    hide N.Recipient, Step, P.Next, P.Enabled, P.Apply, D.Smooth, P.Drained, FilledBy;
    FilledIsWellFormed(states, ops, n, run[0].rows);
    D.FailureFreeContinuationDrains(past, done, run, steps);
  }
}
