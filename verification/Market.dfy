/**
 * The marketplace database: orders, stock with its movement ledger, carts, coupons, the bank
 * transfer inbox and the outbox. One function or predicate per transaction.
 */
module Market {
  import opened Common
  import opened Orders
  import opened Checkout
  import Voucher

  const MAX_STOCK := 2_147_483_647

  datatype MovementKind = Sale | Cancellation | Adjustment
  datatype Movement = Movement(variant: nat, quantity: int, kind: MovementKind, order: Option<nat>)

  datatype Offer = Offer(coupon: Voucher.Coupon, rules: seq<Voucher.Rule>)

  datatype Direction = In | Out | Unknown
  datatype ReceiptStatus = Unmatched | Ignored | RequiresReview | Applied
  // The payment code of an order is its identifier in another notation, so it is modelled as the
  // identifier; a payment row is named by its order.
  datatype Receipt = Receipt(code: Option<nat>, bank: string, account: string, direction: Direction,
                             amount: int64, status: ReceiptStatus, payment: Option<nat>)
  // A row of a payment's history, named like its receipt by the number of the transfer.
  datatype Transaction = Transaction(order: nat, status: ReceiptStatus, amount: int64)
  datatype Webhook = Webhook(id: int64, gateway: string, account: string, code: Option<nat>,
                             direction: Direction, amount: int64)

  datatype Db = Db(orders: map<nat, Order>, keys: map<(nat, string), nat>,
                   stock: map<nat, int>, ledger: seq<Movement>,
                   carts: map<nat, seq<CartLine>>,
                   offers: map<string, Offer>, redemptions: map<(string, nat), nat>,
                   receipts: map<int64, Receipt>, transactions: map<int64, Transaction>, outbox: seq<Event>)

  const EMPTY := Db(map[], map[], map[], [], map[], map[], map[], map[], map[], [])

  datatype Outcome = Outcome(db: Db, answer: Result<()>)

  function Refused(db: Db, e: Error): Outcome
  {
    Outcome(db, Err(e))
  }

  function Unchanged(db: Db): Outcome
  {
    Outcome(db, Ok(()))
  }

  // ---- Transactions on one order ------------------------------------------------------------

  datatype Act =
    | Fulfilment(child: nat, member: bool, seller: nat, to: ChildStatus, carrier: string, tracking: string)
    | DeliveryRequest(child: nat, member: bool, shop: nat, actor: nat, shopApproved: bool, pickup: bool)
    | Assignment(child: nat, admin: bool, actor: nat, driver: nat, driverApproved: bool)
    | DeliveryUpdate(child: nat, actor: nat, driverApproved: bool, key: string, update: Update)
    | Settlement(child: nat, admin: bool, actor: nat)

  function Perform(id: nat, o: Order, act: Act): Result<Change>
  {
    match act
    case Fulfilment(i, member, seller, to, carrier, tracking) => Fulfil(id, o, i, member, seller, to, carrier, tracking)
    case DeliveryRequest(i, member, shop, actor, approved, pickup) => Request(id, o, i, member, shop, actor, approved, pickup)
    case Assignment(i, admin, actor, driver, approved) => Assign(id, o, i, admin, actor, driver, approved)
    case DeliveryUpdate(i, actor, approved, key, u) => Advance(id, o, i, actor, approved, key, u)
    case Settlement(i, admin, actor) => Settle(id, o, i, admin, actor)
  }

  function Commit(db: Db, id: nat, change: Change): Db
  {
    db.(orders := db.orders[id := change.order], outbox := db.outbox + change.events)
  }

  // What is refused before any row is read. A driver is named by a natural; zero is the nil identifier.
  function Rejected(act: Act): Option<Error>
  {
    match act
    case Fulfilment(_, member, _, to, carrier, tracking) =>
      if (to != Confirmed && to != Shipping && to != Delivered) || (to == Shipping && (carrier == "" || tracking == "")) then Some(Invalid)
      else if !member then Some(Forbidden)
      else None
    case Assignment(_, _, _, driver, _) => if driver == 0 then Some(Invalid) else None
    case DeliveryRequest(_, member, _, _, _, _) => if member then None else Some(Forbidden)
    case DeliveryUpdate(_, _, _, key, u) => if UpdateWellFormed(key, u) then None else Some(Invalid)
    case _ => None
  }

  function ActOn(db: Db, id: nat, act: Act): Outcome
  {
    if Rejected(act).Some? then Refused(db, Rejected(act).value)
    else if id !in db.orders then Refused(db, NotFound)
    else
      var r := Perform(id, db.orders[id], act);
      if r.Err? then Refused(db, r.error) else Outcome(Commit(db, id, r.value), Ok(()))
  }

  // ---- Stock --------------------------------------------------------------------------------

  function Rows(cs: seq<Child>): seq<Item>
  {
    if cs == [] then [] else Rows(cs[..|cs| - 1]) + cs[|cs| - 1].items
  }

  function Movements(items: seq<Item>, sign: int, kind: MovementKind, id: nat): (ms: seq<Movement>)
    ensures |ms| == |items|
  {
    seq(|items|, i requires 0 <= i < |items| => Movement(items[i].variant, sign * items[i].quantity, kind, Some(id)))
  }

  function Restocked(stock: map<nat, int>, items: seq<Item>): map<nat, int>
  {
    map v | v in stock :: stock[v] + Total(Units(v), items)
  }

  function Depleted(stock: map<nat, int>, items: seq<Item>): map<nat, int>
  {
    map v | v in stock :: stock[v] - Total(Units(v), items)
  }

  predicate InRange(stock: map<nat, int>)
  {
    forall v :: v in stock ==> 0 <= stock[v] <= MAX_STOCK
  }

  // Cancelling a pending order puts its rows back on the shelf; a stock column that would leave
  // its 32-bit range aborts the transaction.
  function CancelOrder(db: Db, id: nat, user: nat): Outcome
  {
    if id !in db.orders then Refused(db, NotFound)
    else
      var o := db.orders[id];
      var r := Cancel(id, o, user);
      if r.Err? then Refused(db, r.error)
      else if o.status == OrderCancelled then Unchanged(db)
      else
        var items := Rows(o.children);
        var stock := Restocked(db.stock, items);
        if !InRange(stock) then Refused(db, Conflict)
        else
          Outcome(Commit(db, id, r.value).(stock := stock, ledger := db.ledger + Movements(items, 1, Cancellation, id)), Ok(()))
  }

  function Adjust(db: Db, member: bool, owned: bool, variant: nat, delta: int, note: string): Outcome
  {
    if delta == 0 || delta < -1_000_000 || delta > 1_000_000 || |note| == 0 || |note| > 500 then Refused(db, Invalid)
    else if !member then Refused(db, Forbidden)
    else if variant !in db.stock || !owned then Refused(db, NotFound)
    else if db.stock[variant] + delta < 0 || db.stock[variant] + delta > MAX_STOCK then Refused(db, Conflict)
    else
      Outcome(db.(stock := db.stock[variant := db.stock[variant] + delta],
                  ledger := db.ledger + [Movement(variant, delta, Adjustment, None)],
                  outbox := db.outbox + [InventoryChanged(variant, delta)]), Ok(()))
  }

  // ---- Bank transfers -----------------------------------------------------------------------

  predicate WebhookValid(w: Webhook)
  {
    w.id > 0 && w.amount >= 0 && w.account != "" && w.gateway != "" && w.direction != Unknown
  }

  function ReceiptOf(w: Webhook): Receipt
  {
    Receipt(w.code, Trim(w.gateway), w.account, w.direction, w.amount,
            if w.direction == In then Unmatched else Ignored, None)
  }

  predicate SameTransfer(a: Receipt, b: Receipt)
  {
    a.code == b.code && a.amount == b.amount && a.bank == b.bank && a.account == b.account && a.direction == b.direction
  }

  // The receipt, its history row if it names a payment, and a call for review if it needs one.
  function Store(db: Db, id: int64, r: Receipt): Db
  {
    var review := r.status == RequiresReview || r.status == Unmatched;
    db.(receipts := db.receipts[id := r],
        transactions := if r.payment.Some? then db.transactions[id := Transaction(r.payment.value, r.status, r.amount)] else db.transactions,
        outbox := if review then db.outbox + [ReconciliationRequired(id as int)] else db.outbox)
  }

  // The receipt names an online payment.
  predicate Matched(db: Db, r: Receipt)
  {
    r.status != Ignored && r.code.Some? && r.code.value in db.orders && db.orders[r.code.value].payment.way == Sepay
  }

  function Reconcile(db: Db, t: int64, r: Receipt): Db
    requires Matched(db, r)
  {
    var id := r.code.value;
    var o := db.orders[id];
    if CanApply(o, r.direction == In, r.bank, r.account, r.amount) then
      Store(Commit(db, id, Change(Apply(o), [PaymentSucceeded(id, o.payment.amount)])), t, r.(status := Applied, payment := Some(id)))
    else
      Store(db, t, r.(status := RequiresReview, payment := Some(id)))
  }

  function Receive(db: Db, enabled: bool, w: Webhook): Outcome
  {
    var r := ReceiptOf(w);
    if !enabled then Refused(db, Unavailable)
    else if !WebhookValid(w) then Refused(db, Invalid)
    else if w.id in db.receipts then
      (if SameTransfer(db.receipts[w.id], r) then Unchanged(db) else Refused(db, Conflict))
    else if Matched(db, r) then Outcome(Reconcile(db, w.id, r), Ok(()))
    else Outcome(Store(db, w.id, r), Ok(()))
  }

  // ---- Checkout -----------------------------------------------------------------------------

  datatype Demand = Demand(user: nat, address: nat, key: string, way: Method, selected: seq<nat>, selection: string, coupon: string)

  // What checkout reads from other services and tables; destination is the text of the address row.
  datatype World = World(userActive: bool, addressOwned: bool, destination: string, catalog: map<nat, CatalogRow>, shops: map<nat, Shop>,
                         sepayEnabled: bool, bank: string, account: string, now: int)

  predicate Wanted(l: CartLine, selected: seq<nat>)
  {
    selected == [] || l.variant in selected
  }

  function Take(ls: seq<CartLine>, selected: seq<nat>): (t: seq<CartLine>)
    ensures forall l :: l in t ==> l in ls && Wanted(l, selected)
  {
    if ls == [] then []
    else if Wanted(ls[0], selected) then [ls[0]] + Take(ls[1..], selected)
    else Take(ls[1..], selected)
  }

  function Leave(ls: seq<CartLine>, selected: seq<nat>): (t: seq<CartLine>)
    ensures forall l :: l in t ==> l in ls && !Wanted(l, selected)
  {
    if ls == [] then []
    else if Wanted(ls[0], selected) then Leave(ls[1..], selected)
    else [ls[0]] + Leave(ls[1..], selected)
  }

  predicate Priced(ls: seq<CartLine>, w: World, stock: map<nat, int>)
  {
    |ls| <= Voucher.MAX_LINES && forall i :: 0 <= i < |ls| ==> LineError(stock, w.catalog, w.shops, ls[i]) == None
  }

  function Amount(price: int64, quantity: int): (a: int64)
    requires 0 <= price as int <= MAX_PRICE && 1 <= quantity <= MAX_QUANTITY
    ensures 0 <= a as int <= Voucher.MAX_LINE_AMOUNT && a as int == price as int * quantity
  {
    Voucher.MulAtMost(price as int, quantity, MAX_QUANTITY);
    Voucher.MulAtMost(quantity, 0, price as int);
    (price as int * quantity) as int64
  }

  function VoucherLines(ls: seq<CartLine>, w: World, stock: map<nat, int>): (vs: seq<Voucher.Line>)
    requires Priced(ls, w, stock)
    ensures |vs| == |ls| && Voucher.AmountsInRange(vs)
  {
    seq(|ls|, i requires 0 <= i < |ls| =>
      var row := w.catalog[ls[i].variant];
      assert LineError(stock, w.catalog, w.shops, ls[i]) == None;
      Voucher.Line(row.seller, Amount(row.price, ls[i].quantity)))
  }

  function CouponError(db: Db, d: Demand, now: int, vs: seq<Voucher.Line>): Option<Error>
  {
    if d.coupon == "" then None
    else if d.coupon !in db.offers then Some(NotFound)
    else if |db.offers[d.coupon].rules| != 1 then Some(Conflict)
    else
      var refusal := Voucher.Refusal(db.offers[d.coupon].coupon, db.offers[d.coupon].rules[0], vs, now);
      if refusal.Some? then refusal
      else if (d.coupon, d.user) in db.redemptions then Some(Conflict)
      else None
  }

  // The line discounts of an accepted checkout.
  predicate Discounted(db: Db, d: Demand, vs: seq<Voucher.Line>, now: int, discounts: seq<int64>)
    requires CouponError(db, d, now, vs) == None && |vs| <= Voucher.MAX_LINES && Voucher.AmountsInRange(vs)
  {
    && |discounts| == |vs|
    && if d.coupon == "" then forall i :: 0 <= i < |discounts| ==> discounts[i] == 0
       else
         var offer := db.offers[d.coupon];
         var ws := Voucher.Weights(offer.rules[0], vs);
         var whole := Voucher.Discount(offer.coupon, Sum(ws));
         forall i :: 0 <= i < |discounts| ==> discounts[i] as int == Voucher.Share(ws, whole, i)
  }

  // Everything that stops a checkout before a price is known, in the order it is looked at.
  function Obstacle(db: Db, d: Demand, w: World): Option<Error>
  {
    if !w.addressOwned || d.user !in db.carts then Some(NotFound)
    else
      var ls := Take(db.carts[d.user], d.selected);
      if ls == [] || |ls| > Voucher.MAX_LINES || (d.selected != [] && |ls| != |d.selected|) then Some(Conflict)
      else
        var e := FirstError(db.stock, w.catalog, w.shops, ls);
        if e.Some? then e else CouponError(db, d, w.now, VoucherLines(ls, w, db.stock))
  }

  function Lines(db: Db, d: Demand, w: World): (ls: seq<CartLine>)
    requires Obstacle(db, d, w) == None
    ensures Priced(ls, w, db.stock) && ls != []
  {
    Take(db.carts[d.user], d.selected)
  }

  function PricedRows(db: Db, d: Demand, w: World, discounts: seq<int64>): seq<Sold>
    requires Obstacle(db, d, w) == None && |discounts| == |Lines(db, d, w)|
  {
    assert forall i :: 0 <= i < |Lines(db, d, w)| ==> LineError(db.stock, w.catalog, w.shops, Lines(db, d, w)[i]) == None;
    SoldRows(Lines(db, d, w), w.catalog, discounts)
  }

  // The header of a new order, copied from the demand.
  predicate Headed(o: Order, d: Demand, w: World)
  {
    && o.user == d.user && o.key == d.key && o.address == d.address && o.selection == d.selection && o.coupon == d.coupon
    && o.destination == w.destination
    && o.payment.way == d.way
    && o.payment.bank == (if d.way == Sepay then w.bank else "")
    && o.payment.account == (if d.way == Sepay then w.account else "")
  }

  function Redeemed(db: Db, d: Demand, id: nat): Db
    requires d.coupon != "" ==> d.coupon in db.offers
  {
    if d.coupon == "" then db
    else
      var offer := db.offers[d.coupon];
      db.(offers := db.offers[d.coupon := offer.(coupon := offer.coupon.(usedCount := offer.coupon.usedCount + 1))],
          redemptions := db.redemptions[(d.coupon, d.user) := id])
  }

  function AfterPlacing(db: Db, d: Demand, id: nat, o: Order, items: seq<Item>): Db
    requires d.coupon != "" ==> d.coupon in db.offers
    requires d.user in db.carts
  {
    Redeemed(db, d, id).(
      orders := db.orders[id := o],
      keys := db.keys[(d.user, d.key) := id],
      stock := Depleted(db.stock, items),
      ledger := db.ledger + Movements(items, -1, Sale, id),
      carts := db.carts[d.user := Leave(db.carts[d.user], d.selected)],
      outbox := db.outbox + [OrderCreated(id, d.user, o.total)])
  }

  // A checkout that reaches the end: the order, its rows and everything else it writes.
  predicate Places(db: Db, d: Demand, w: World, id: nat, o: Order, discounts: seq<int64>, db': Db)
  {
    && id !in db.orders
    && Obstacle(db, d, w) == None
    && Discounted(db, d, VoucherLines(Lines(db, d, w), w, db.stock), w.now, discounts)
    && (var sold := PricedRows(db, d, w, discounts);
        && PlacedFrom(o, sold, w.shops)
        && Headed(o, d, w)
        && (d.way == Sepay ==> w.sepayEnabled && o.total > 0)
        && db' == AfterPlacing(db, d, id, o, Items(sold)))
  }

  // A checkout whose only failure is its online payment: not configured, or nothing to pay.
  predicate UnpayableOnline(db: Db, d: Demand, w: World, discounts: seq<int64>)
  {
    && d.way == Sepay
    && Obstacle(db, d, w) == None
    && Discounted(db, d, VoucherLines(Lines(db, d, w), w, db.stock), w.now, discounts)
    && (var items := Items(PricedRows(db, d, w, discounts));
        !w.sepayEnabled || Total(Price, items) - Total(Reduction, items) <= 0)
  }

  predicate SameDemand(o: Order, d: Demand)
  {
    o.payment.way == d.way && o.selection == d.selection && o.coupon == d.coupon && o.address == d.address
  }

  // The whole checkout transaction: a repeat is answered from the stored order, a refusal
  // changes nothing, and otherwise one order appears.
  predicate ChecksOut(db: Db, d: Demand, w: World, id: nat, o: Order, discounts: seq<int64>, db': Db, answer: Result<nat>)
  {
    if !w.userActive then
      db' == db && answer == Err(NotFound)
    else if (d.user, d.key) in db.keys then
      var first := db.keys[(d.user, d.key)];
      db' == db && answer == if first in db.orders && SameDemand(db.orders[first], d) then Ok(first) else Err(Conflict)
    else if Obstacle(db, d, w).Some? then
      db' == db && answer == Err(Obstacle(db, d, w).value)
    else if UnpayableOnline(db, d, w, discounts) then
      db' == db && answer == Err(Invalid)
    else
      Places(db, d, w, id, o, discounts, db') && answer == Ok(id)
  }
}
