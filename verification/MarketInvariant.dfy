/** What holds in every reachable state of the marketplace, over every run of its transactions. */
module MarketInvariant {
  import opened Common
  import opened Orders
  import opened Checkout
  import opened Market
  import opened Lifecycle
  import Voucher

  // ---- The movement ledger ------------------------------------------------------------------

  datatype Pick = OfVariant(variant: nat) | OfOrder(variant: nat, order: nat)

  predicate Picks(p: Pick, m: Movement)
  {
    match p
    case OfVariant(v) => m.variant == v
    case OfOrder(v, o) => m.variant == v && m.order == Some(o)
  }

  function Picked(ledger: seq<Movement>, p: Pick): (xs: seq<int>)
    ensures |xs| == |ledger|
  {
    seq(|ledger|, i requires 0 <= i < |ledger| => if Picks(p, ledger[i]) then ledger[i].quantity else 0)
  }

  function Net(ledger: seq<Movement>, p: Pick): int
  {
    Sum(Picked(ledger, p))
  }

  lemma NetConcat(a: seq<Movement>, b: seq<Movement>, p: Pick)
    ensures Net(a + b, p) == Net(a, p) + Net(b, p)
  {
    assert Picked(a + b, p) == Picked(a, p) + Picked(b, p);
    SumConcat(Picked(a, p), Picked(b, p));
  }

  lemma NetFresh(ledger: seq<Movement>, p: Pick)
    requires forall i :: 0 <= i < |ledger| ==> !Picks(p, ledger[i])
    ensures Net(ledger, p) == 0
  {
    SumBounds(Picked(ledger, p), 0);
  }

  // The movements written for a list of rows net to its units, for the variant and the order.
  lemma {:induction false} NetMovements(items: seq<Item>, sign: int, kind: MovementKind, id: nat, v: nat, other: nat)
    ensures Net(Movements(items, sign, kind, id), OfVariant(v)) == sign * Total(Units(v), items)
    ensures Net(Movements(items, sign, kind, id), OfOrder(v, other)) == if other == id then sign * Total(Units(v), items) else 0
  {
    if items == [] {
    } else {
      var init, last := items[..|items| - 1], items[|items| - 1];
      NetMovements(init, sign, kind, id, v, other);
      var m := Movement(last.variant, sign * last.quantity, kind, Some(id));
      assert Movements(items, sign, kind, id) == Movements(init, sign, kind, id) + [m];
      NetConcat(Movements(init, sign, kind, id), [m], OfVariant(v));
      NetConcat(Movements(init, sign, kind, id), [m], OfOrder(v, other));
      NetOne(m, OfVariant(v));
      NetOne(m, OfOrder(v, other));
      assert items == init + [last];
      TotalSnoc(Units(v), init, last);
      Spread(sign, Total(Units(v), init), Of(Units(v), last));
    }
  }

  lemma NetOne(m: Movement, p: Pick)
    ensures Net([m], p) == if Picks(p, m) then m.quantity else 0
  {
    var x := if Picks(p, m) then m.quantity else 0;
    assert Picked([m], p) == [] + [x];
    SumSnoc([], x);
  }

  lemma Spread(k: int, a: int, b: int)
    ensures k * (a + b) == k * a + k * b
  {
  }

  // ---- Rows of an order ---------------------------------------------------------------------

  function Ordered(o: Order, v: nat): int
  {
    Total(Units(v), Rows(o.children))
  }

  lemma {:induction false} SameRows(cs: seq<Child>, cs': seq<Child>)
    requires |cs| == |cs'| && forall i :: 0 <= i < |cs| ==> cs'[i].items == cs[i].items
    ensures Rows(cs') == Rows(cs)
  {
    if cs != [] {
      SameRows(cs[..|cs| - 1], cs'[..|cs| - 1]);
    }
  }

  lemma {:induction false} TotalConcat(m: Measure, a: seq<Item>, b: seq<Item>)
    ensures Total(m, a + b) == Total(m, a) + Total(m, b)
  {
    if b == [] {
      assert a + b == a;
    } else {
      var init, last := b[..|b| - 1], b[|b| - 1];
      TotalConcat(m, a, init);
      assert a + b == (a + init) + [last] && b == init + [last];
      TotalSnoc(m, a + init, last);
      TotalSnoc(m, init, last);
    }
  }

  // The rows of a grouped order hold exactly the units that were sold.
  lemma RowsOfGroups(cs: seq<Child>, sold: seq<Sold>, v: nat)
    requires Grouped(cs, sold, |sold|)
    ensures Total(Units(v), Rows(cs)) == Total(Units(v), Items(sold))
  {
    var n := |sold|;
    RowsTotal(Units(v), cs, sold, |cs|);
    assert cs[..|cs|] == cs;
    assert PerSeller(Units(v), cs, sold, n)[..|cs|] == PerSeller(Units(v), cs, sold, n);
    PartitionSum(Units(v), cs, sold, n);
    assert Items(sold)[..n] == Items(sold);
  }

  lemma {:induction false} RowsTotal(m: Measure, cs: seq<Child>, sold: seq<Sold>, k: nat)
    requires k <= |cs| && forall i :: 0 <= i < |cs| ==> cs[i].items == ItemsOf(sold, cs[i].seller, |sold|)
    ensures Total(m, Rows(cs[..k])) == Sum(PerSeller(m, cs, sold, |sold|)[..k])
  {
    var xs := PerSeller(m, cs, sold, |sold|);
    if k == 0 {
      assert cs[..0] == [] && xs[..0] == [];
    } else {
      RowsTotal(m, cs, sold, k - 1);
      assert cs[..k][..k - 1] == cs[..k - 1];
      TotalConcat(m, Rows(cs[..k - 1]), cs[k - 1].items);
      assert xs[..k] == xs[..k - 1] + [xs[k - 1]];
      SumSnoc(xs[..k - 1], xs[k - 1]);
    }
  }

  predicate Known(items: seq<Item>, stock: map<nat, int>)
  {
    forall i :: 0 <= i < |items| ==> items[i].variant in stock
  }

  lemma {:induction false} GroupRowsKnown(sold: seq<Sold>, seller: nat, n: nat, stock: map<nat, int>)
    requires n <= |sold| && Known(Items(sold), stock)
    ensures Known(ItemsOf(sold, seller, n), stock)
  {
    if n > 0 {
      GroupRowsKnown(sold, seller, n - 1, stock);
      assert Items(sold)[n - 1].variant in stock;
    }
  }

  lemma {:induction false} RowsKnown(cs: seq<Child>, stock: map<nat, int>)
    requires forall i :: 0 <= i < |cs| ==> Known(cs[i].items, stock)
    ensures Known(Rows(cs), stock)
  {
    if cs != [] {
      RowsKnown(cs[..|cs| - 1], stock);
    }
  }

  // ---- The invariant ------------------------------------------------------------------------

  predicate OrdersInv(orders: map<nat, Order>)
  {
    forall id :: id in orders ==> Consistent(orders[id])
  }

  // At most one order per user and idempotency key: the index and the orders agree.
  predicate KeysInv(orders: map<nat, Order>, keys: map<(nat, string), nat>)
  {
    && (forall id :: id in orders ==> (orders[id].user, orders[id].key) in keys && keys[(orders[id].user, orders[id].key)] == id)
    && (forall k :: k in keys ==> keys[k] in orders)
  }

  // Stock is the sum of its movements and never leaves its range.
  predicate StockInv(stock: map<nat, int>, ledger: seq<Movement>)
  {
    && InRange(stock)
    && (forall v :: v in stock ==> stock[v] == Net(ledger, OfVariant(v)))
    && (forall i :: 0 <= i < |ledger| ==> ledger[i].variant in stock)
  }

  predicate RowsInv(orders: map<nat, Order>, stock: map<nat, int>)
  {
    forall id :: id in orders ==> Known(Rows(orders[id].children), stock)
  }

  predicate ReferencesInv(orders: map<nat, Order>, ledger: seq<Movement>)
  {
    forall i :: 0 <= i < |ledger| && ledger[i].order.Some? ==> ledger[i].order.value in orders
  }

  // An order's movements net to minus what was ordered while it lives, and to zero afterwards.
  function Owed(o: Order, v: nat): int
  {
    if o.status == OrderCancelled then 0 else -Ordered(o, v)
  }

  ghost predicate LedgerInv(orders: map<nat, Order>, ledger: seq<Movement>)
  {
    forall id, v: nat :: id in orders ==> Net(ledger, OfOrder(v, id)) == Owed(orders[id], v)
  }

  function AppliedTo(receipts: map<int64, Receipt>, id: nat): set<int64>
  {
    set t | t in receipts && receipts[t].status == Applied && receipts[t].payment == Some(id)
  }

  predicate ByTransfer(o: Order)
  {
    o.payment.way == Sepay && o.payment.status == Paid
  }

  predicate AppliedWell(r: Receipt, orders: map<nat, Order>)
  {
    r.status == Applied ==> r.payment.Some? && r.payment.value in orders && r.amount == orders[r.payment.value].payment.amount
  }

  // A sepay payment is paid iff exactly one receipt is applied to it, with exactly its amount.
  predicate TransfersInv(orders: map<nat, Order>, receipts: map<int64, Receipt>)
  {
    && (forall t :: t in receipts ==> AppliedWell(receipts[t], orders))
    && (forall id :: id in orders ==> |AppliedTo(receipts, id)| == if ByTransfer(orders[id]) then 1 else 0)
  }

  predicate Decided(r: Receipt)
  {
    r.payment.Some? ==> r.status == Applied || r.status == RequiresReview
  }

  // The history of payments holds exactly the receipts that name one, as they were decided.
  predicate HistoryInv(receipts: map<int64, Receipt>, transactions: map<int64, Transaction>)
  {
    && (forall t :: t in transactions <==> t in receipts && receipts[t].payment.Some?)
    && (forall t :: t in transactions ==> transactions[t] == Transaction(receipts[t].payment.value, receipts[t].status, receipts[t].amount))
    && (forall t :: t in transactions ==> Decided(receipts[t]))
  }

  ghost predicate OutboxInv(orders: map<nat, Order>, outbox: seq<Event>)
  {
    forall id: nat :: Successes(outbox, id) == if id in orders then Announced(orders[id]) else 0
  }

  function Redeemers(redemptions: map<(string, nat), nat>, code: string): set<(string, nat)>
  {
    set k | k in redemptions && k.0 == code
  }

  predicate CounterMatches(code: string, c: Voucher.Coupon, redemptions: map<(string, nat), nat>)
  {
    && c.usedCount == |Redeemers(redemptions, code)|
    && (c.usageLimit > 0 ==> c.usedCount <= c.usageLimit)
  }

  // Coupon counters equal the redemptions, and stay within their limit.
  predicate CountersInv(offers: map<string, Offer>, redemptions: map<(string, nat), nat>)
  {
    && (forall c :: c in offers ==> CounterMatches(c, offers[c].coupon, redemptions))
    && (forall k :: k in redemptions ==> k.0 in offers)
  }

  // Redemptions and discounted orders match one to one.
  predicate RedemptionsInv(orders: map<nat, Order>, redemptions: map<(string, nat), nat>)
  {
    && (forall k :: k in redemptions ==>
          redemptions[k] in orders && k == (orders[redemptions[k]].coupon, orders[redemptions[k]].user))
    && (forall id :: id in orders && orders[id].coupon != "" ==>
          (orders[id].coupon, orders[id].user) in redemptions && redemptions[(orders[id].coupon, orders[id].user)] == id)
  }

  predicate SortedCart(ls: seq<CartLine>)
  {
    forall i, j :: 0 <= i < j < |ls| ==> ls[i].variant < ls[j].variant
  }

  predicate CartsInv(carts: map<nat, seq<CartLine>>)
  {
    forall u :: u in carts ==> SortedCart(carts[u])
  }

  ghost predicate Inv(db: Db)
  {
    && OrdersInv(db.orders)
    && KeysInv(db.orders, db.keys)
    && StockInv(db.stock, db.ledger)
    && RowsInv(db.orders, db.stock)
    && ReferencesInv(db.orders, db.ledger)
    && LedgerInv(db.orders, db.ledger)
    && TransfersInv(db.orders, db.receipts)
    && HistoryInv(db.receipts, db.transactions)
    && OutboxInv(db.orders, db.outbox)
    && CountersInv(db.offers, db.redemptions)
    && RedemptionsInv(db.orders, db.redemptions)
    && CartsInv(db.carts)
  }

  // ---- Moving one order ---------------------------------------------------------------------

  lemma PerformKeeps(id: nat, o: Order, act: Act)
    requires Consistent(o) && Perform(id, o, act).Ok?
    ensures Kept(o, Perform(id, o, act).value.order)
    ensures Announces(id, o, Perform(id, o, act).value)
  {
    match act
    case Fulfilment(i, member, seller, to, carrier, tracking) =>
      FulfilAnnounces(id, o, i, member, seller, to, carrier, tracking);
      match to {
        case Confirmed => ConfirmKeeps(id, o, i, member, seller, carrier, tracking);
        case Shipping => ShipKeeps(id, o, i, member, seller, carrier, tracking);
        case _ => DeliverKeeps(id, o, i, member, seller, carrier, tracking);
      }
    case DeliveryRequest(i, member, shop, actor, approved, pickup) =>
      RequestKeeps(id, o, i, member, shop, actor, approved, pickup);
      RequestAnnounces(id, o, i, member, shop, actor, approved, pickup);
    case Assignment(i, admin, actor, driver, approved) =>
      AssignKeeps(id, o, i, admin, actor, driver, approved);
      AssignAnnounces(id, o, i, admin, actor, driver, approved);
    case DeliveryUpdate(i, actor, approved, key, u) =>
      AdvanceKeeps(id, o, i, actor, approved, key, u);
      AdvanceAnnounces(id, o, i, actor, approved, key, u);
    case Settlement(i, admin, actor) =>
      SettleKeeps(id, o, i, admin, actor);
      SettleAnnounces(id, o, i, admin, actor);
  }

  // Only a transfer pays a sepay payment; fulfilment leaves it alone.
  lemma SepayUntouched(id: nat, o: Order, act: Act)
    requires Perform(id, o, act).Ok? && o.payment.way == Sepay
    ensures Perform(id, o, act).value.order.payment == o.payment
  {
  }

  // The columns that identify an order and what was ordered, which no later transaction touches.
  predicate SameHeader(o: Order, o': Order)
  {
    && o'.user == o.user && o'.key == o.key && o'.coupon == o.coupon
    && o'.payment.way == o.payment.way && o'.payment.amount == o.payment.amount
    && Rows(o'.children) == Rows(o.children)
  }

  lemma MovesKeepHeader(o: Order, o': Order)
    requires Moves(o, o')
    ensures SameHeader(o, o')
  {
    assert o'.(children := o.children, status := o.status, payment := o.payment) == o;
    forall i | 0 <= i < |o.children|
      ensures o'.children[i].items == o.children[i].items
    {
      assert ChildMoves(o.children[i], o'.children[i]);
    }
    SameRows(o.children, o'.children);
  }

  lemma OrderIsConsistent(orders: map<nat, Order>, id: nat)
    requires OrdersInv(orders) && id in orders
    ensures Consistent(orders[id])
  {
  }

  lemma ReplaceKeepsOrders(orders: map<nat, Order>, id: nat, o': Order)
    requires OrdersInv(orders) && Consistent(o')
    ensures OrdersInv(orders[id := o'])
  {
  }

  lemma ReplaceKeepsIndexes(db: Db, id: nat, o': Order)
    requires id in db.orders && SameHeader(db.orders[id], o')
    requires KeysInv(db.orders, db.keys) && RowsInv(db.orders, db.stock) && ReferencesInv(db.orders, db.ledger)
    requires RedemptionsInv(db.orders, db.redemptions)
    ensures var orders := db.orders[id := o'];
      KeysInv(orders, db.keys) && RowsInv(orders, db.stock) && ReferencesInv(orders, db.ledger) && RedemptionsInv(orders, db.redemptions)
  {
  }

  lemma ReplaceKeepsLedger(db: Db, id: nat, o': Order)
    requires id in db.orders && SameHeader(db.orders[id], o')
    requires o'.status == OrderCancelled <==> db.orders[id].status == OrderCancelled
    requires LedgerInv(db.orders, db.ledger)
    ensures LedgerInv(db.orders[id := o'], db.ledger)
  {
    forall other, v: nat | other in db.orders[id := o']
      ensures Net(db.ledger, OfOrder(v, other)) == Owed(db.orders[id := o'][other], v)
    {
      assert Owed(o', v) == Owed(db.orders[id], v);
      assert Net(db.ledger, OfOrder(v, other)) == Owed(db.orders[other], v);
    }
  }

  lemma ReplaceKeepsTransfers(orders: map<nat, Order>, receipts: map<int64, Receipt>, id: nat, o': Order)
    requires id in orders && o'.payment.amount == orders[id].payment.amount && ByTransfer(o') == ByTransfer(orders[id])
    requires TransfersInv(orders, receipts)
    ensures TransfersInv(orders[id := o'], receipts)
  {
    forall t | t in receipts
      ensures AppliedWell(receipts[t], orders[id := o'])
    {
      assert AppliedWell(receipts[t], orders);
    }
  }

  lemma ReplaceKeepsOutbox(orders: map<nat, Order>, outbox: seq<Event>, id: nat, change: Change)
    requires id in orders && OutboxInv(orders, outbox) && Announces(id, orders[id], change)
    ensures OutboxInv(orders[id := change.order], outbox + change.events)
  {
    forall other: nat
      ensures Successes(outbox + change.events, other) ==
                if other in orders[id := change.order] then Announced(orders[id := change.order][other]) else 0
    {
      SuccessesConcat(outbox, change.events, other);
    }
  }

  lemma ActKeeps(db: Db, id: nat, act: Act)
    requires Inv(db)
    ensures Inv(ActOn(db, id, act).db)
  {
    hide Rejected, OrdersInv, KeysInv, StockInv, RowsInv, ReferencesInv, LedgerInv, TransfersInv, HistoryInv, OutboxInv, CountersInv, RedemptionsInv, CartsInv, Perform, Consistent, Moves;
    if id in db.orders && Perform(id, db.orders[id], act).Ok? {
      OrderIsConsistent(db.orders, id);
      PerformKeeps(id, db.orders[id], act);
      if db.orders[id].payment.way == Sepay {
        SepayUntouched(id, db.orders[id], act);
      }
      CommitKeeps(db, id, Perform(id, db.orders[id], act).value);
    }
  }

  lemma CommitKeeps(db: Db, id: nat, change: Change)
    requires Inv(db) && id in db.orders && Kept(db.orders[id], change.order) && Announces(id, db.orders[id], change)
    requires db.orders[id].payment.way == Sepay ==> change.order.payment == db.orders[id].payment
    ensures Inv(Commit(db, id, change))
  {
    hide OrdersInv, KeysInv, StockInv, RowsInv, ReferencesInv, LedgerInv, TransfersInv, HistoryInv, OutboxInv, CountersInv, RedemptionsInv, CartsInv, Consistent, Moves, SameHeader;
    MovesKeepHeader(db.orders[id], change.order);
    ReplaceKeepsOrders(db.orders, id, change.order);
    ReplaceKeepsIndexes(db, id, change.order);
    ReplaceKeepsLedger(db, id, change.order);
    ReplaceKeepsTransfers(db.orders, db.receipts, id, change.order);
    ReplaceKeepsOutbox(db.orders, db.outbox, id, change);
  }

  // ---- Cancellation and stock ---------------------------------------------------------------

  // Movements appended for the rows of one order, seen from every variant and every order.
  lemma Appended(ledger: seq<Movement>, items: seq<Item>, sign: int, kind: MovementKind, id: nat, v: nat, other: nat)
    ensures var ledger' := ledger + Movements(items, sign, kind, id);
      && Net(ledger', OfVariant(v)) == Net(ledger, OfVariant(v)) + sign * Total(Units(v), items)
      && Net(ledger', OfOrder(v, other)) == Net(ledger, OfOrder(v, other)) + if other == id then sign * Total(Units(v), items) else 0
  {
    var ms := Movements(items, sign, kind, id);
    NetMovements(items, sign, kind, id, v, other);
    NetConcat(ledger, ms, OfVariant(v));
    NetConcat(ledger, ms, OfOrder(v, other));
  }

  lemma RestockKeepsStock(stock: map<nat, int>, ledger: seq<Movement>, items: seq<Item>, id: nat)
    requires StockInv(stock, ledger) && Known(items, stock) && InRange(Restocked(stock, items))
    ensures StockInv(Restocked(stock, items), ledger + Movements(items, 1, Cancellation, id))
  {
    hide Total, Net, Movements, Known;
    MovementsKnown(stock, ledger, items, 1, Cancellation, id);
    forall v | v in stock
      ensures Restocked(stock, items)[v] == Net(ledger + Movements(items, 1, Cancellation, id), OfVariant(v))
    {
      Appended(ledger, items, 1, Cancellation, id, v, id);
    }
  }

  lemma RestockKeepsLedger(orders: map<nat, Order>, ledger: seq<Movement>, id: nat, o': Order)
    requires LedgerInv(orders, ledger) && id in orders && orders[id].status != OrderCancelled && o'.status == OrderCancelled
    ensures LedgerInv(orders[id := o'], ledger + Movements(Rows(orders[id].children), 1, Cancellation, id))
  {
    var items := Rows(orders[id].children);
    forall other, v: nat | other in orders
      ensures Net(ledger + Movements(items, 1, Cancellation, id), OfOrder(v, other)) == Owed(orders[id := o'][other], v)
    {
      Appended(ledger, items, 1, Cancellation, id, v, other);
      assert Net(ledger, OfOrder(v, other)) == Owed(orders[other], v);
    }
  }

  lemma CancelKeepsAll(db: Db, id: nat, user: nat)
    requires Inv(db)
    ensures Inv(CancelOrder(db, id, user).db)
  {
    hide OrdersInv, KeysInv, StockInv, RowsInv, ReferencesInv, LedgerInv, TransfersInv, HistoryInv, OutboxInv, CountersInv, RedemptionsInv, CartsInv, Consistent, Moves, Rows, Restocked, InRange;
    if id in db.orders && Cancel(id, db.orders[id], user).Ok? && db.orders[id].status != OrderCancelled {
      var o := db.orders[id];
      var items := Rows(o.children);
      if InRange(Restocked(db.stock, items)) {
        var change := Cancel(id, o, user).value;
        OrderIsConsistent(db.orders, id);
        CancelKeeps(id, o, user);
        CancelAnnounces(id, o, user);
        CancelledEffects(db, id, change, items);
      }
    }
  }

  lemma CancelAnnounces(id: nat, o: Order, user: nat)
    requires Consistent(o) && Cancel(id, o, user).Ok?
    ensures Announces(id, o, Cancel(id, o, user).value)
    ensures o.payment.way == Sepay && Cancel(id, o, user).value.order != o ==>
              o.payment.status != Paid && Cancel(id, o, user).value.order.payment.status != Paid
  {
    CancelKeeps(id, o, user);
    var events := Cancel(id, o, user).value.events;
    if events != [] {
      assert events[..0] == [];
    }
  }

  lemma CancelledEffects(db: Db, id: nat, change: Change, items: seq<Item>)
    requires Inv(db) && id in db.orders && Consistent(change.order) && Moves(db.orders[id], change.order)
    requires Announces(id, db.orders[id], change) && items == Rows(db.orders[id].children)
    requires db.orders[id].status != OrderCancelled && change.order.status == OrderCancelled
    requires db.orders[id].payment.way == Sepay ==> db.orders[id].payment.status != Paid && change.order.payment.status != Paid
    requires InRange(Restocked(db.stock, items))
    ensures Inv(Commit(db, id, change).(stock := Restocked(db.stock, items), ledger := db.ledger + Movements(items, 1, Cancellation, id)))
  {
    hide OrdersInv, KeysInv, StockInv, ReferencesInv, LedgerInv, TransfersInv, HistoryInv, OutboxInv, CountersInv, RedemptionsInv, CartsInv, Consistent, Moves, SameHeader, InRange, Announced, Rows;
    MovesKeepHeader(db.orders[id], change.order);
    ReplaceKeepsOrders(db.orders, id, change.order);
    ReplaceKeepsIndexes(db, id, change.order);
    RestockKeepsStock(db.stock, db.ledger, items, id);
    RestockKeepsLedger(db.orders, db.ledger, id, change.order);
    ReplaceKeepsTransfers(db.orders, db.receipts, id, change.order);
    ReplaceKeepsOutbox(db.orders, db.outbox, id, change);
    SameKeysKnown(db.orders[id := change.order], db.stock, Restocked(db.stock, items));
    ReferencesGrow(db.orders, db.ledger, Movements(items, 1, Cancellation, id), id, change.order);
  }

  lemma SameKeysKnown(orders: map<nat, Order>, stock: map<nat, int>, stock': map<nat, int>)
    requires RowsInv(orders, stock) && stock.Keys <= stock'.Keys
    ensures RowsInv(orders, stock')
  {
  }

  lemma ReferencesGrow(orders: map<nat, Order>, ledger: seq<Movement>, ms: seq<Movement>, id: nat, o': Order)
    requires ReferencesInv(orders, ledger)
    requires forall i :: 0 <= i < |ms| ==> ms[i].order == Some(id) || ms[i].order == None
    ensures ReferencesInv(orders[id := o'], ledger + ms)
  {
  }

  lemma AdjustKeeps(db: Db, member: bool, owned: bool, variant: nat, delta: int, note: string)
    requires Inv(db)
    ensures Inv(Adjust(db, member, owned, variant, delta, note).db)
  {
    hide OrdersInv, KeysInv, StockInv, RowsInv, LedgerInv, TransfersInv, HistoryInv, OutboxInv, CountersInv, RedemptionsInv, CartsInv;
    var db' := Adjust(db, member, owned, variant, delta, note).db;
    if db' != db {
      var m := Movement(variant, delta, Adjustment, None);
      AdjustKeepsStock(db.stock, db.ledger, m);
      AdjustKeepsLedger(db.orders, db.ledger, m);
      QuietOutbox(db.orders, db.outbox, InventoryChanged(variant, delta));
      SameKeysKnown(db.orders, db.stock, db'.stock);
    }
  }

  lemma AdjustKeepsStock(stock: map<nat, int>, ledger: seq<Movement>, m: Movement)
    requires StockInv(stock, ledger) && m.variant in stock && 0 <= stock[m.variant] + m.quantity <= MAX_STOCK
    ensures StockInv(stock[m.variant := stock[m.variant] + m.quantity], ledger + [m])
  {
    forall v | v in stock
      ensures Net(ledger + [m], OfVariant(v)) == Net(ledger, OfVariant(v)) + if v == m.variant then m.quantity else 0
    {
      NetConcat(ledger, [m], OfVariant(v));
      NetOne(m, OfVariant(v));
    }
  }

  lemma AdjustKeepsLedger(orders: map<nat, Order>, ledger: seq<Movement>, m: Movement)
    requires LedgerInv(orders, ledger) && m.order == None
    ensures LedgerInv(orders, ledger + [m])
  {
    forall id, v: nat | id in orders
      ensures Net(ledger + [m], OfOrder(v, id)) == Owed(orders[id], v)
    {
      NetConcat(ledger, [m], OfOrder(v, id));
      NetOne(m, OfOrder(v, id));
    }
  }

  lemma QuietOutbox(orders: map<nat, Order>, outbox: seq<Event>, e: Event)
    requires !e.PaymentSucceeded? && OutboxInv(orders, outbox)
    ensures OutboxInv(orders, outbox + [e])
  {
    assert (outbox + [e])[..|outbox|] == outbox;
  }

  // ---- Bank transfers -----------------------------------------------------------------------

  lemma StoreKeeps(db: Db, t: int64, r: Receipt)
    requires Inv(db) && t !in db.receipts && r.status != Applied && Decided(r)
    ensures Inv(Store(db, t, r))
  {
    hide OrdersInv, KeysInv, StockInv, RowsInv, ReferencesInv, LedgerInv, TransfersInv, HistoryInv, OutboxInv, CountersInv, RedemptionsInv, CartsInv;
    QuietOutbox(db.orders, db.outbox, ReconciliationRequired(t as int));
    RecordKeepsTransfers(db.orders, db.receipts, t, r);
    RecordKeepsHistory(db, t, r);
  }

  // A new receipt adds its own row to the history, under a number the history does not have yet.
  lemma RecordKeepsHistory(db: Db, t: int64, r: Receipt)
    requires HistoryInv(db.receipts, db.transactions) && t !in db.receipts && Decided(r)
    ensures t !in db.transactions && HistoryInv(Store(db, t, r).receipts, Store(db, t, r).transactions)
  {
  }

  lemma RecordKeepsTransfers(orders: map<nat, Order>, receipts: map<int64, Receipt>, t: int64, r: Receipt)
    requires TransfersInv(orders, receipts) && t !in receipts && r.status != Applied
    ensures TransfersInv(orders, receipts[t := r])
  {
    forall id | id in orders
      ensures AppliedTo(receipts[t := r], id) == AppliedTo(receipts, id)
    {
    }
  }

  lemma PayKeepsTransfers(orders: map<nat, Order>, receipts: map<int64, Receipt>, t: int64, r: Receipt, id: nat)
    requires TransfersInv(orders, receipts) && t !in receipts && id in orders
    requires r.status == Applied && r.payment == Some(id) && r.amount == orders[id].payment.amount
    requires orders[id].payment.way == Sepay && orders[id].payment.status == Unpaid
    ensures TransfersInv(orders[id := Apply(orders[id])], receipts[t := r])
  {
    var orders' := orders[id := Apply(orders[id])];
    forall other | other in orders'
      ensures AppliedTo(receipts[t := r], other) == AppliedTo(receipts, other) + (if other == id then {t} else {})
    {
    }
    forall u | u in receipts
      ensures AppliedWell(receipts[u], orders')
    {
      assert AppliedWell(receipts[u], orders);
    }
  }

  lemma ReceiveKeeps(db: Db, enabled: bool, w: Webhook)
    requires Inv(db)
    ensures Inv(Receive(db, enabled, w).db)
  {
    hide Inv, Trim, EqualFold, Reconcile;
    var r := ReceiptOf(w);
    if enabled && WebhookValid(w) && w.id !in db.receipts {
      if Matched(db, r) {
        ReconcileKeeps(db, w.id, r);
      } else {
        StoreKeeps(db, w.id, r);
      }
    }
  }

  lemma ReconcileKeeps(db: Db, t: int64, r: Receipt)
    requires Inv(db) && t !in db.receipts && Matched(db, r)
    ensures Inv(Reconcile(db, t, r))
  {
    hide Inv, EqualFold;
    var id := r.code.value;
    if CanApply(db.orders[id], r.direction == In, r.bank, r.account, r.amount) {
      TransferEffects(db, t, r.(status := Applied, payment := Some(id)), id);
    } else {
      StoreKeeps(db, t, r.(status := RequiresReview, payment := Some(id)));
    }
  }

  lemma TransferEffects(db: Db, t: int64, r: Receipt, id: nat)
    requires Inv(db) && t !in db.receipts && id in db.orders
    requires r.status == Applied && r.payment == Some(id)
    requires CanApply(db.orders[id], r.direction == In, r.bank, r.account, r.amount)
    ensures Inv(Store(Commit(db, id, Change(Apply(db.orders[id]), [PaymentSucceeded(id, db.orders[id].payment.amount)])), t, r))
  {
    hide OrdersInv, KeysInv, StockInv, RowsInv, ReferencesInv, LedgerInv, TransfersInv, HistoryInv, OutboxInv, CountersInv, RedemptionsInv, CartsInv, Consistent, Moves, EqualFold, SameHeader;
    var o := db.orders[id];
    OrderIsConsistent(db.orders, id);
    var change := Change(Apply(o), [PaymentSucceeded(id, o.payment.amount)]);
    ApplyKeeps(o, r.direction == In, r.bank, r.account, r.amount);
    assert change.events[..0] == [];
    MovesKeepHeader(o, Apply(o));
    ReplaceKeepsOrders(db.orders, id, Apply(o));
    ReplaceKeepsIndexes(db, id, Apply(o));
    ReplaceKeepsLedger(db, id, Apply(o));
    PayKeepsTransfers(db.orders, db.receipts, t, r, id);
    RecordKeepsHistory(db, t, r);
    ReplaceKeepsOutbox(db.orders, db.outbox, id, change);
  }

  // ---- Checkout -----------------------------------------------------------------------------

  lemma TakenSorted(ls: seq<CartLine>, selected: seq<nat>)
    requires SortedCart(ls)
    ensures SortedCart(Take(ls, selected)) && SortedCart(Leave(ls, selected))
  {
    TakeSorted(ls, selected);
    LeaveSorted(ls, selected);
  }

  lemma {:induction false} TakeSorted(ls: seq<CartLine>, selected: seq<nat>)
    requires SortedCart(ls)
    ensures SortedCart(Take(ls, selected))
  {
    if ls != [] {
      TakeSorted(ls[1..], selected);
      FirstIsLeast(ls, Take(ls[1..], selected));
    }
  }

  lemma {:induction false} LeaveSorted(ls: seq<CartLine>, selected: seq<nat>)
    requires SortedCart(ls)
    ensures SortedCart(Leave(ls, selected))
  {
    if ls != [] {
      LeaveSorted(ls[1..], selected);
      FirstIsLeast(ls, Leave(ls[1..], selected));
    }
  }

  lemma FirstIsLeast(ls: seq<CartLine>, t: seq<CartLine>)
    requires ls != [] && SortedCart(ls) && SortedCart(t) && forall l :: l in t ==> l in ls[1..]
    ensures SortedCart([ls[0]] + t)
  {
    forall i | 0 <= i < |t|
      ensures ls[0].variant < t[i].variant
    {
      assert t[i] in ls[1..];
    }
  }

  // In a cart a variant occurs once, so what is sold of it is at most one line.
  lemma {:induction false} UnitsOfSortedCart(ls: seq<CartLine>, items: seq<Item>, stock: map<nat, int>, v: nat)
    requires SortedCart(ls) && |items| == |ls|
    requires forall i :: 0 <= i < |ls| ==> items[i].variant == ls[i].variant && items[i].quantity == ls[i].quantity
    requires forall i :: 0 <= i < |ls| ==> ls[i].variant in stock && 0 <= ls[i].quantity <= stock[ls[i].variant]
    ensures 0 <= Total(Units(v), items)
    ensures v in stock && 0 <= stock[v] ==> Total(Units(v), items) <= stock[v]
    ensures (forall i :: 0 <= i < |ls| ==> ls[i].variant != v) ==> Total(Units(v), items) == 0
  {
    if ls != [] {
      var n := |ls| - 1;
      UnitsOfSortedCart(ls[..n], items[..n], stock, v);
      assert items == items[..n] + [items[n]];
      TotalSnoc(Units(v), items[..n], items[n]);
    }
  }

  // What an accepted checkout sells: rows in range, of known variants, within stock.
  lemma AcceptedRows(db: Db, d: Demand, w: World, discounts: seq<int64>)
    requires Obstacle(db, d, w) == None
    requires Discounted(db, d, VoucherLines(Lines(db, d, w), w, db.stock), w.now, discounts)
    ensures RowsInRange(PricedRows(db, d, w, discounts)) && PricedRows(db, d, w, discounts) != []
    ensures Known(Items(PricedRows(db, d, w, discounts)), db.stock)
  {
    var ls := Lines(db, d, w);
    var vs := VoucherLines(ls, w, db.stock);
    var sold := PricedRows(db, d, w, discounts);
    forall i | 0 <= i < |sold|
      ensures RowInRange(sold[i].item) && sold[i].item.variant in db.stock
    {
      assert LineError(db.stock, w.catalog, w.shops, ls[i]) == None;
      assert vs[i].amount as int == sold[i].item.unitPrice as int * sold[i].item.quantity;
      if d.coupon != "" {
        DiscountInRange(db, d, vs, w.now, discounts, i);
      }
    }
  }

  lemma DiscountInRange(db: Db, d: Demand, vs: seq<Voucher.Line>, now: int, discounts: seq<int64>, i: nat)
    requires d.coupon != "" && CouponError(db, d, now, vs) == None && |vs| <= Voucher.MAX_LINES && Voucher.AmountsInRange(vs)
    requires Discounted(db, d, vs, now, discounts) && i < |discounts|
    ensures 0 <= discounts[i] <= vs[i].amount
  {
    var offer := db.offers[d.coupon];
    var ws := Voucher.Weights(offer.rules[0], vs);
    Voucher.ShareBounds(ws, Voucher.Discount(offer.coupon, Sum(ws)), i);
  }

  lemma AcceptedUnits(db: Db, d: Demand, w: World, discounts: seq<int64>, v: nat)
    requires Obstacle(db, d, w) == None && |discounts| == |Lines(db, d, w)|
    requires CartsInv(db.carts) && InRange(db.stock) && v in db.stock
    ensures 0 <= Total(Units(v), Items(PricedRows(db, d, w, discounts))) <= db.stock[v]
  {
    var ls, items := Lines(db, d, w), Items(PricedRows(db, d, w, discounts));
    TakenSorted(db.carts[d.user], d.selected);
    forall i | 0 <= i < |ls|
      ensures ls[i].variant in db.stock && 0 <= ls[i].quantity <= db.stock[ls[i].variant]
      ensures items[i].variant == ls[i].variant && items[i].quantity == ls[i].quantity
    {
      assert LineError(db.stock, w.catalog, w.shops, ls[i]) == None;
    }
    UnitsOfSortedCart(ls, items, db.stock, v);
  }

  lemma MovementsKnown(stock: map<nat, int>, ledger: seq<Movement>, items: seq<Item>, sign: int, kind: MovementKind, id: nat)
    requires Known(items, stock) && forall i :: 0 <= i < |ledger| ==> ledger[i].variant in stock
    ensures forall i :: 0 <= i < |ledger + Movements(items, sign, kind, id)| ==> (ledger + Movements(items, sign, kind, id))[i].variant in stock
  {
  }

  lemma SaleKeepsStock(stock: map<nat, int>, ledger: seq<Movement>, items: seq<Item>, id: nat)
    requires StockInv(stock, ledger) && Known(items, stock)
    requires forall v :: v in stock ==> 0 <= Total(Units(v), items) <= stock[v]
    ensures StockInv(Depleted(stock, items), ledger + Movements(items, -1, Sale, id))
  {
    hide Total, Net, Movements, Known;
    MovementsKnown(stock, ledger, items, -1, Sale, id);
    forall v | v in stock
      ensures Depleted(stock, items)[v] == Net(ledger + Movements(items, -1, Sale, id), OfVariant(v))
    {
      Appended(ledger, items, -1, Sale, id, v, id);
    }
  }

  lemma SaleKeepsLedger(orders: map<nat, Order>, ledger: seq<Movement>, o: Order, sold: seq<Sold>, id: nat)
    requires LedgerInv(orders, ledger) && ReferencesInv(orders, ledger) && id !in orders
    requires Grouped(o.children, sold, |sold|) && o.status == OrderPending
    ensures LedgerInv(orders[id := o], ledger + Movements(Items(sold), -1, Sale, id))
  {
    var items := Items(sold);
    forall other, v: nat | other in orders[id := o]
      ensures Net(ledger + Movements(items, -1, Sale, id), OfOrder(v, other)) == Owed(orders[id := o][other], v)
    {
      Appended(ledger, items, -1, Sale, id, v, other);
      if other == id {
        NetFresh(ledger, OfOrder(v, id));
        RowsOfGroups(o.children, sold, v);
      } else {
        assert Net(ledger, OfOrder(v, other)) == Owed(orders[other], v);
      }
    }
  }

  lemma NewOrderKeepsRows(orders: map<nat, Order>, stock: map<nat, int>, o: Order, sold: seq<Sold>, id: nat)
    requires RowsInv(orders, stock) && Grouped(o.children, sold, |sold|) && Known(Items(sold), stock)
    ensures RowsInv(orders[id := o], stock)
  {
    forall i | 0 <= i < |o.children|
      ensures Known(o.children[i].items, stock)
    {
      GroupRowsKnown(sold, o.children[i].seller, |sold|, stock);
    }
    RowsKnown(o.children, stock);
  }

  lemma NewOrderKeepsTransfers(orders: map<nat, Order>, receipts: map<int64, Receipt>, o: Order, id: nat)
    requires TransfersInv(orders, receipts) && id !in orders && o.payment.status == Unpaid
    ensures TransfersInv(orders[id := o], receipts)
  {
    forall t | t in receipts
      ensures AppliedWell(receipts[t], orders[id := o]) && t !in AppliedTo(receipts, id)
    {
      assert AppliedWell(receipts[t], orders);
    }
    assert AppliedTo(receipts, id) == {};
  }

  lemma NewOrderKeepsOutbox(orders: map<nat, Order>, outbox: seq<Event>, o: Order, id: nat)
    requires OutboxInv(orders, outbox) && id !in orders && o.payment.status == Unpaid
    ensures OutboxInv(orders[id := o], outbox + [OrderCreated(id, o.user, o.total)])
  {
    var e := OrderCreated(id, o.user, o.total);
    assert (outbox + [e])[..|outbox|] == outbox;
  }

  // The coupon of a demand is free to be redeemed by its user.
  predicate Redeemable(db: Db, d: Demand)
  {
    d.coupon != "" ==>
      && d.coupon in db.offers && (d.coupon, d.user) !in db.redemptions
      && var c := db.offers[d.coupon].coupon; !(c.usageLimit > 0 && c.usedCount >= c.usageLimit)
  }

  lemma RedeemersGrow(redemptions: map<(string, nat), nat>, k: (string, nat), id: nat, code: string)
    requires k !in redemptions
    ensures |Redeemers(redemptions[k := id], code)| == |Redeemers(redemptions, code)| + if code == k.0 then 1 else 0
  {
    assert Redeemers(redemptions[k := id], code) == Redeemers(redemptions, code) + (if code == k.0 then {k} else {});
  }

  lemma RedeemKeepsCounters(db: Db, d: Demand, id: nat)
    requires CountersInv(db.offers, db.redemptions) && Redeemable(db, d)
    ensures CountersInv(Redeemed(db, d, id).offers, Redeemed(db, d, id).redemptions)
  {
    var db' := Redeemed(db, d, id);
    if d.coupon != "" {
      forall c | c in db.offers
        ensures CounterMatches(c, db'.offers[c].coupon, db'.redemptions)
      {
        assert CounterMatches(c, db.offers[c].coupon, db.redemptions);
        RedeemersGrow(db.redemptions, (d.coupon, d.user), id, c);
      }
    }
  }

  lemma RedeemKeepsRedemptions(db: Db, d: Demand, id: nat, o: Order)
    requires RedemptionsInv(db.orders, db.redemptions) && Redeemable(db, d) && id !in db.orders
    requires o.coupon == d.coupon && o.user == d.user
    ensures RedemptionsInv(db.orders[id := o], Redeemed(db, d, id).redemptions)
  {
  }

  lemma CouponIsFree(db: Db, d: Demand, w: World)
    requires Obstacle(db, d, w) == None
    ensures Redeemable(db, d) && d.user in db.carts
  {
  }

  lemma PlacesKeeps(db: Db, d: Demand, w: World, id: nat, o: Order, discounts: seq<int64>, db': Db)
    requires Inv(db) && Places(db, d, w, id, o, discounts, db') && (d.user, d.key) !in db.keys
    ensures Inv(db')
  {
    hide Consistent, Grouped, Total, FirstError, LineError;
    var sold := PricedRows(db, d, w, discounts);
    CouponIsFree(db, d, w);
    AcceptedRows(db, d, w, discounts);
    PlacedIsConsistent(o, sold, w.shops);
    forall v | v in db.stock
      ensures 0 <= Total(Units(v), Items(sold)) <= db.stock[v]
    {
      AcceptedUnits(db, d, w, discounts, v);
    }
    TakenSorted(db.carts[d.user], d.selected);
    PlacedEffects(db, d, id, o, sold);
  }

  lemma PlacedEffects(db: Db, d: Demand, id: nat, o: Order, sold: seq<Sold>)
    requires Inv(db) && id !in db.orders && (d.user, d.key) !in db.keys && d.user in db.carts
    requires Consistent(o) && Grouped(o.children, sold, |sold|) && o.status == OrderPending && o.payment.status == Unpaid
    requires o.user == d.user && o.key == d.key && o.coupon == d.coupon && Redeemable(db, d)
    requires Known(Items(sold), db.stock) && forall v :: v in db.stock ==> 0 <= Total(Units(v), Items(sold)) <= db.stock[v]
    requires SortedCart(Leave(db.carts[d.user], d.selected))
    ensures Inv(AfterPlacing(db, d, id, o, Items(sold)))
  {
    hide OrdersInv, KeysInv, StockInv, RowsInv, ReferencesInv, LedgerInv, TransfersInv, HistoryInv, OutboxInv, CountersInv, RedemptionsInv, CartsInv, Consistent, Grouped, Known, Total;
    ReplaceKeepsOrders(db.orders, id, o);
    SaleKeepsStock(db.stock, db.ledger, Items(sold), id);
    SaleKeepsLedger(db.orders, db.ledger, o, sold, id);
    NewOrderKeepsRows(db.orders, db.stock, o, sold, id);
    SameKeysKnown(db.orders[id := o], db.stock, Depleted(db.stock, Items(sold)));
    ReferencesGrow(db.orders, db.ledger, Movements(Items(sold), -1, Sale, id), id, o);
    NewOrderKeepsTransfers(db.orders, db.receipts, o, id);
    NewOrderKeepsOutbox(db.orders, db.outbox, o, id);
    RedeemKeepsCounters(db, d, id);
    RedeemKeepsRedemptions(db, d, id, o);
    NewKey(db.orders, db.keys, o, id);
    EditKeeps(db.carts, d.user, Leave(db.carts[d.user], d.selected));
  }

  lemma EditKeeps(carts: map<nat, seq<CartLine>>, user: nat, ls: seq<CartLine>)
    requires CartsInv(carts) && SortedCart(ls)
    ensures CartsInv(carts[user := ls])
  {
  }

  lemma NewKey(orders: map<nat, Order>, keys: map<(nat, string), nat>, o: Order, id: nat)
    requires KeysInv(orders, keys) && id !in orders && (o.user, o.key) !in keys
    ensures KeysInv(orders[id := o], keys[(o.user, o.key) := id])
  {
  }

  // ---- Runs ---------------------------------------------------------------------------------

  datatype Op =
    | NewVariant(variant: nat)
    | EditCart(user: nat, lines: seq<CartLine>)
    | NewOffer(code: string, offer: Offer)
    | SwitchOffer(code: string, active: bool)
    | PlaceOrder(demand: Demand, world: World, id: nat, order: Order, discounts: seq<int64>, answer: Result<nat>)
    | AbandonOrder(id: nat, user: nat)
    | MoveOrder(id: nat, act: Act)
    | BankTransfer(enabled: bool, webhook: Webhook)
    | AdjustStock(member: bool, owned: bool, variant: nat, delta: int, note: string)

  predicate Step(db: Db, op: Op, db': Db)
  {
    match op
    case NewVariant(v) => v !in db.stock && db' == db.(stock := db.stock[v := 0])
    case EditCart(u, ls) => SortedCart(ls) && db' == db.(carts := db.carts[u := ls])
    case NewOffer(c, offer) => c !in db.offers && offer.coupon.usedCount == 0 && db' == db.(offers := db.offers[c := offer])
    case SwitchOffer(c, active) =>
      c in db.offers && db' == db.(offers := db.offers[c := db.offers[c].(coupon := db.offers[c].coupon.(active := active))])
    case PlaceOrder(d, w, id, o, discounts, answer) => ChecksOut(db, d, w, id, o, discounts, db', answer)
    case AbandonOrder(id, user) => db' == CancelOrder(db, id, user).db
    case MoveOrder(id, act) => db' == ActOn(db, id, act).db
    case BankTransfer(enabled, w) => db' == Receive(db, enabled, w).db
    case AdjustStock(member, owned, v, delta, note) => db' == Adjust(db, member, owned, v, delta, note).db
  }

  // What an order transaction does to the orders table: nothing, or one order moves on.
  predicate MovesOne(orders: map<nat, Order>, orders': map<nat, Order>, id: nat)
  {
    orders' == orders ||
    (id in orders && id in orders' && orders' == orders[id := orders'[id]]
     && Consistent(orders'[id]) && Moves(orders[id], orders'[id]))
  }

  lemma ActMovesOne(db: Db, id: nat, act: Act)
    requires OrdersInv(db.orders)
    ensures MovesOne(db.orders, ActOn(db, id, act).db.orders, id) && ActOn(db, id, act).db.receipts == db.receipts
  {
    hide Rejected, Perform, Consistent, Moves, OrdersInv, Announces;
    if id in db.orders && Perform(id, db.orders[id], act).Ok? {
      OrderIsConsistent(db.orders, id);
      PerformKeeps(id, db.orders[id], act);
    }
  }

  lemma CancelMovesOne(db: Db, id: nat, user: nat)
    requires OrdersInv(db.orders)
    ensures MovesOne(db.orders, CancelOrder(db, id, user).db.orders, id) && CancelOrder(db, id, user).db.receipts == db.receipts
  {
    hide Cancel, Consistent, Moves, OrdersInv, Rows, Restocked, InRange, Movements;
    if id in db.orders && Cancel(id, db.orders[id], user).Ok? {
      OrderIsConsistent(db.orders, id);
      CancelKeeps(id, db.orders[id], user);
    }
  }

  lemma StoredShape(db: Db, t: int64, r: Receipt)
    ensures Store(db, t, r).orders == db.orders && Store(db, t, r).receipts == db.receipts[t := r]
  {
  }

  lemma ReconcileMovesOne(db: Db, t: int64, r: Receipt)
    requires OrdersInv(db.orders) && Matched(db, r)
    ensures MovesOne(db.orders, Reconcile(db, t, r).orders, r.code.value)
    ensures t in Reconcile(db, t, r).receipts && Reconcile(db, t, r).receipts == db.receipts[t := Reconcile(db, t, r).receipts[t]]
  {
    hide Consistent, Moves, OrdersInv, CanApply, Apply, Store;
    var o := db.orders[r.code.value];
    var change := Change(Apply(o), [PaymentSucceeded(r.code.value, o.payment.amount)]);
    StoredShape(Commit(db, r.code.value, change), t, r.(status := Applied, payment := r.code));
    StoredShape(db, t, r.(status := RequiresReview, payment := r.code));
    if CanApply(o, r.direction == In, r.bank, r.account, r.amount) {
      OrderIsConsistent(db.orders, r.code.value);
      ApplyKeeps(o, r.direction == In, r.bank, r.account, r.amount);
    }
  }

  lemma NewVariantKeeps(stock: map<nat, int>, ledger: seq<Movement>, v: nat)
    requires StockInv(stock, ledger) && v !in stock
    ensures StockInv(stock[v := 0], ledger)
  {
    NetFresh(ledger, OfVariant(v));
  }

  lemma NewOfferKeeps(offers: map<string, Offer>, redemptions: map<(string, nat), nat>, c: string, offer: Offer)
    requires CountersInv(offers, redemptions) && c !in offers && offer.coupon.usedCount == 0
    ensures CountersInv(offers[c := offer], redemptions)
  {
    assert Redeemers(redemptions, c) == {};
    forall b | b in offers
      ensures CounterMatches(b, offers[b].coupon, redemptions)
    {
    }
  }

  lemma SwitchKeeps(offers: map<string, Offer>, redemptions: map<(string, nat), nat>, c: string, active: bool)
    requires CountersInv(offers, redemptions) && c in offers
    ensures CountersInv(offers[c := offers[c].(coupon := offers[c].coupon.(active := active))], redemptions)
  {
    forall b | b in offers
      ensures CounterMatches(b, offers[b].coupon, redemptions)
    {
    }
  }

  lemma StepKeeps(db: Db, op: Op, db': Db)
    requires Inv(db) && Step(db, op, db')
    ensures Inv(db')
  {
    hide ActOn, CancelOrder, Receive, Adjust, Places, Obstacle, UnpayableOnline, Consistent;
    match op
    case NewVariant(v) =>
      NewVariantKeeps(db.stock, db.ledger, v);
      SameKeysKnown(db.orders, db.stock, db'.stock);
    case EditCart(u, ls) =>
    case NewOffer(c, offer) => NewOfferKeeps(db.offers, db.redemptions, c, offer);
    case SwitchOffer(c, active) => SwitchKeeps(db.offers, db.redemptions, c, active);
    case PlaceOrder(d, w, id, o, discounts, answer) =>
      if db' != db {
        PlacesKeeps(db, d, w, id, o, discounts, db');
      }
    case AbandonOrder(id, user) => CancelKeepsAll(db, id, user);
    case MoveOrder(id, act) => ActKeeps(db, id, act);
    case BankTransfer(enabled, w) => ReceiveKeeps(db, enabled, w);
    case AdjustStock(member, owned, v, delta, note) => AdjustKeeps(db, member, owned, v, delta, note);
  }

  // A run: any sequence of transactions from the empty database.
  predicate Run(states: seq<Db>, ops: seq<Op>)
  {
    && |states| == |ops| + 1
    && states[0] == EMPTY
    && forall i :: 0 <= i < |ops| ==> Step(states[i], ops[i], states[i + 1])
  }

  lemma InitiallyInvariant()
    ensures Inv(EMPTY)
  {
  }

  lemma {:induction false} RunKeepsInvariant(states: seq<Db>, ops: seq<Op>, n: nat)
    requires Run(states, ops) && n < |states|
    ensures Inv(states[n])
  {
    hide Inv, Step;
    if n == 0 {
      InitiallyInvariant();
    } else {
      RunKeepsInvariant(states, ops, n - 1);
      StepKeeps(states[n - 1], ops[n - 1], states[n]);
    }
  }
}
