/**
 * The transactions as the services run them, statement by statement, over mutable tables. Every
 * method is proved to leave exactly the database, and give exactly the answer, of the transition
 * it implements; a failed one leaves the tables as they were.
 */
module MarketStore {
  import opened Common
  import opened Orders
  import opened Market
  import opened Checkout
  import opened CheckoutSteps
  import MarketInvariant
  import Voucher

  const BLANK := Order(0, OrderPending, 0, 0, 0, 0, "", 0, "", "", "", [], Payment(Cod, Unpaid, 0, "", ""))

  class Store {
    var orders: map<nat, Order>
    var keys: map<(nat, string), nat>
    var stock: map<nat, int>
    var ledger: seq<Movement>
    var carts: map<nat, seq<CartLine>>
    var offers: map<string, Offer>
    var redemptions: map<(string, nat), nat>
    var receipts: map<int64, Receipt>
    var transactions: map<int64, Transaction>
    var outbox: seq<Event>

    function View(): Db
      reads this
    {
      Db(orders, keys, stock, ledger, carts, offers, redemptions, receipts, transactions, outbox)
    }

    constructor ()
      ensures View() == EMPTY
    {
      orders, keys, stock, ledger, carts := map[], map[], map[], [], map[];
      offers, redemptions, receipts, transactions, outbox := map[], map[], map[], map[], [];
    }

    // ---- Seller fulfilment ------------------------------------------------------------------

    method Fulfil(id: nat, i: nat, member: bool, seller: nat, status: ChildStatus, carrier: string, tracking: string)
      returns (r: Result<()>)
      modifies this
      ensures Outcome(View(), r) == old(ActOn(View(), id, Fulfilment(i, member, seller, status, carrier, tracking)))
    {
      if status != Confirmed && status != Shipping && status != Delivered {
        return Err(Invalid);
      }
      if status == Shipping && (carrier == "" || tracking == "") {
        return Err(Invalid);
      }
      if !member {
        return Err(Forbidden);
      }
      if id !in orders || i >= |orders[id].children| || orders[id].children[i].seller != seller {
        return Err(NotFound);
      }
      var parent := orders[id];
      var child := parent.children[i];
      if IsInternal(child) {
        return Err(Conflict);
      }
      if status == Shipping {
        var n := CountInternal(parent.children);
        if n > 0 {
          return Err(Conflict);
        }
      }
      if child.status == status {
        return Ok(());
      }
      if !ValidTransition(child.status, status) || parent.status == OrderCancelled {
        return Err(Conflict);
      }
      if parent.payment.way != Cod && parent.payment.status != Paid {
        return Err(Conflict);
      }
      child := child.(status := status);
      if status == Shipping {
        if child.shipment.Some? || carrier == INTERNAL {
          return Err(Conflict);
        }
        var shipment := Shipment(carrier, InTransit, None, 0, false, false, []);
        shipment := shipment.(events := shipment.events + [ShipmentEvent(InTransit, None, None, "")]);
        child := child.(shipment := Some(shipment));
      }
      if status == Delivered {
        if child.shipment.None? {
          return Err(NotFound);
        }
        var shipment := child.shipment.value.(status := HandedOver);
        shipment := shipment.(events := shipment.events + [ShipmentEvent(HandedOver, None, None, "")]);
        child := child.(shipment := Some(shipment));
      }
      parent := parent.(children := parent.children[i := child]);
      var allDelivered := true;
      for k := 0 to |parent.children|
        invariant allDelivered <==> forall j :: 0 <= j < k ==> parent.children[j].status == Delivered
      {
        if parent.children[k].status != Delivered {
          allDelivered := false;
        }
      }
      var parentStatus := OrderProcessing;
      if allDelivered {
        parentStatus := OrderDelivered;
        var internal := CountInternal(parent.children);
        if parent.payment.way == Cod && internal == 0 {
          parent := parent.(payment := parent.payment.(status := Paid));
        }
      }
      parent := parent.(status := parentStatus);
      orders := orders[id := parent];
      outbox := outbox + [OrderStatusChanged(id, Some(i), status)];
      assert [] + [ShipmentEvent(InTransit, None, None, "")] == [ShipmentEvent(InTransit, None, None, "")];
      return Ok(());
    }

    // ---- Internal delivery ------------------------------------------------------------------

    method RequestDelivery(id: nat, i: nat, member: bool, shop: nat, actor: nat, approved: bool, pickup: bool)
      returns (r: Result<()>)
      modifies this
      ensures Outcome(View(), r) == old(ActOn(View(), id, DeliveryRequest(i, member, shop, actor, approved, pickup)))
    {
      if !member {
        return Err(Forbidden);
      }
      if id !in orders || i >= |orders[id].children| {
        return Err(NotFound);
      }
      var o := orders[id];
      var c := o.children[i];
      if c.seller != shop {
        return Err(Forbidden);
      }
      if c.shipment.Some? {
        if c.shipment.value.carrier != INTERNAL {
          return Err(Conflict);
        }
        return Ok(());
      }
      if c.status != Confirmed || o.status == OrderCancelled {
        return Err(Conflict);
      }
      var mixed := CountExternal(o.children);
      if mixed > 0 {
        return Err(Conflict);
      }
      if o.payment.way != Cod && o.payment.status != Paid {
        return Err(Conflict);
      }
      if !approved || !pickup {
        return Err(Conflict);
      }
      var v := Shipment(INTERNAL, Requested, None, 0, false, false, []);
      if o.payment.way == Cod {
        v := v.(codAmount := c.total);
      }
      if o.payment.way == Cod && o.shippingFee != 0 {
        return Err(Conflict);
      }
      v := v.(events := v.events + [ShipmentEvent(v.status, Some(actor), None, "delivery requested")]);
      assert v.events == [ShipmentEvent(Requested, Some(actor), None, "delivery requested")];
      SaveShipment(id, i, v);
      return Ok(());
    }

    // Writes a shipment row back and queues its status.
    method SaveShipment(id: nat, i: nat, v: Shipment)
      requires id in orders && i < |orders[id].children|
      modifies this
      ensures View() == old(Commit(View(), id, Change(WithShipment(orders[id], i, v), [ShipmentStatusChanged(id, i, v.status)])))
    {
      var o := orders[id];
      orders := orders[id := o.(children := o.children[i := o.children[i].(shipment := Some(v))])];
      outbox := outbox + [ShipmentStatusChanged(id, i, v.status)];
    }

    method Assign(id: nat, i: nat, admin: bool, actor: nat, driver: nat, driverApproved: bool) returns (r: Result<()>)
      modifies this
      ensures Outcome(View(), r) == old(ActOn(View(), id, Assignment(i, admin, actor, driver, driverApproved)))
    {
      if driver == 0 {
        return Err(Invalid);
      }
      if id !in orders || i >= |orders[id].children| || !IsInternal(orders[id].children[i]) {
        return Err(NotFound);
      }
      if orders[id].status == OrderCancelled {
        return Err(Conflict);
      }
      if !admin || !driverApproved {
        return Err(Forbidden);
      }
      var v := orders[id].children[i].shipment.value;
      if v.status != Requested && v.status != Assigned && v.status != Accepted {
        return Err(Conflict);
      }
      if v.driver != None && v.driver.value == driver {
        return Ok(());
      }
      v := v.(driver := Some(driver));
      v := v.(status := Assigned);
      v := v.(events := v.events + [ShipmentEvent(v.status, Some(actor), None, "assigned")]);
      SaveShipment(id, i, v);
      return Ok(());
    }

    method Advance(id: nat, i: nat, actor: nat, driverApproved: bool, key: string, u: Update) returns (r: Result<()>)
      modifies this
      ensures Outcome(View(), r) == old(ActOn(View(), id, DeliveryUpdate(i, actor, driverApproved, key, u)))
    {
      hide UpdateWellFormed, Prior, Transition, All;
      if !UpdateWellFormed(key, u) {
        return Err(Invalid);
      }
      if id !in orders || i >= |orders[id].children| || !IsInternal(orders[id].children[i]) {
        return Err(NotFound);
      }
      var o := orders[id];
      if o.status == OrderCancelled {
        return Err(Conflict);
      }
      var v := o.children[i].shipment.value;
      if !driverApproved || v.driver == None || v.driver.value != actor {
        return Err(Forbidden);
      }
      var prior := FindEvent(v.events, key);
      if prior.Some? {
        if prior.value.actor != Some(actor) || prior.value.status != u.status || prior.value.note != u.reason {
          return Err(Conflict);
        }
        if u.status == HandedOver && (v.codAmount > 0) != u.collected {
          return Err(Conflict);
        }
        return Ok(());
      }
      if !Transition(v.status, u.status) {
        return Err(Conflict);
      }
      if o.payment.way != Cod && o.payment.status != Paid {
        return Err(Conflict);
      }
      if u.status == HandedOver {
        if (v.codAmount > 0) != u.collected {
          return Err(Invalid);
        }
        v := v.(collected := u.collected);
      }
      v := v.(status := u.status);
      var childStatus := Shipping;
      if u.status == Accepted {
        childStatus := Confirmed;
      }
      if u.status == HandedOver {
        childStatus := Delivered;
      }
      v := v.(events := v.events + [ShipmentEvent(v.status, Some(actor), Some(key), u.reason)]);
      SyncOrder(id, i, childStatus, v);
      return Ok(());
    }

    // Mirrors a delivery status in the seller order and recomputes the status of the order.
    method SyncOrder(id: nat, i: nat, childStatus: ChildStatus, v: Shipment)
      requires id in orders && i < |orders[id].children|
      modifies this
      ensures View() == old(var moved := WithChild(orders[id], i, orders[id].children[i].(status := childStatus, shipment := Some(v)));
        Commit(View(), id, Change(moved.(status := ParentStatus(moved.children)), [ShipmentStatusChanged(id, i, v.status)])))
    {
      var o := orders[id];
      var children := o.children[i := o.children[i].(status := childStatus, shipment := Some(v))];
      var pending := CountUndelivered(children);
      var parent := OrderProcessing;
      if pending == 0 {
        parent := OrderDelivered;
      }
      orders := orders[id := o.(children := children, status := parent)];
      outbox := outbox + [ShipmentStatusChanged(id, i, v.status)];
    }

    method Settle(id: nat, i: nat, admin: bool, actor: nat) returns (r: Result<()>)
      modifies this
      ensures Outcome(View(), r) == old(ActOn(View(), id, Settlement(i, admin, actor)))
    {
      if id !in orders || i >= |orders[id].children| || !IsInternal(orders[id].children[i]) {
        return Err(NotFound);
      }
      if orders[id].status == OrderCancelled {
        return Err(Conflict);
      }
      if !admin {
        return Err(Forbidden);
      }
      var v := orders[id].children[i].shipment.value;
      if orders[id].payment.way != Cod || v.status != HandedOver || (!v.collected && v.codAmount > 0) {
        return Err(Conflict);
      }
      if v.settled {
        return Ok(());
      }
      v := v.(settled := true);
      v := v.(collected := true);
      v := v.(events := v.events + [ShipmentEvent(v.status, Some(actor), None, "COD settled")]);
      SaveShipment(id, i, v);
      var o := orders[id];
      var open := CountUnsettled(o.children);
      if open > 0 {
        return Ok(());
      }
      if o.payment.status == Unpaid {
        orders := orders[id := o.(payment := o.payment.(status := Paid))];
        outbox := outbox + [PaymentSucceeded(id, o.total)];
      }
      return Ok(());
    }

    // ---- Checkout ---------------------------------------------------------------------------

    // Redeems the coupon of a demand on the transaction's own copy of its tables.
    method Redeem(d: Demand, vs: seq<Voucher.Line>, now: int, id: nat)
      returns (r: Result<Voucher.Quote>, book: map<string, Offer>, used: map<(string, nat), nat>)
      requires d.coupon != "" && |vs| <= Voucher.MAX_LINES && Voucher.AmountsInRange(vs)
      ensures r.Err? <==> CouponError(View(), d, now, vs).Some?
      ensures r.Err? ==> r.error == CouponError(View(), d, now, vs).value
      ensures r.Ok? ==> Discounted(View(), d, vs, now, r.value.lineDiscounts) && r.value.discount as int == Sum(Voucher.Widen(r.value.lineDiscounts))
      ensures r.Ok? ==> d.coupon in offers && book == Redeemed(View(), d, id).offers && used == Redeemed(View(), d, id).redemptions
    {
      book, used := offers, redemptions;
      if d.coupon !in offers {
        return Err(NotFound), book, used;
      }
      var offer := offers[d.coupon];
      if |offer.rules| != 1 {
        return Err(Conflict), book, used;
      }
      r := Voucher.Calculate(offer.coupon, offer.rules[0], vs, now);
      if r.Err? {
        return;
      }
      if (d.coupon, d.user) in redemptions {
        r := Err(Conflict);
        return;
      }
      Voucher.QuoteIsExact(r.value, offer.coupon, offer.rules[0], vs, now);
      book := book[d.coupon := offer.(coupon := offer.coupon.(usedCount := offer.coupon.usedCount + 1))];
      used := used[(d.coupon, d.user) := id];
    }

    // From accepted rows to an order row with its groups, and what its sale does to the shelves.
    method Build(d: Demand, w: World, id: nat, ls: seq<CartLine>, subtotal: int64, quote: Voucher.Quote, ghost sold: seq<Sold>)
      returns (order: Order, shelves: map<nat, int>, log: seq<Movement>)
      requires PricedLines(View(), w, ls, quote.lineDiscounts, sold)
      requires subtotal as int == Total(Price, Items(sold)) && quote.discount as int == Total(Reduction, Items(sold))
      ensures PlacedFrom(order, sold, w.shops) && Headed(order, d, w)
      ensures shelves == Depleted(stock, Items(sold)) && log == ledger + Movements(Items(sold), -1, Sale, id)
    {
      hide Total, Items, Depleted, Movements, Grouped, RowsInRange, OnlyCommission, LineError, SoldRows, PlacedFrom;
      var total := subtotal - quote.discount;
      var groups, shelves', log' := FormGroups(ls, w.catalog, quote.lineDiscounts, stock, ledger, id);
      GroupsPriced(groups, sold, w.shops);
      var children := Commissions(groups, w.shops);
      CommissionKeepsGroups(groups, children, sold);
      var pay := Payment(d.way, Unpaid, total, if d.way == Sepay then w.bank else "", if d.way == Sepay then w.account else "");
      order := Order(d.user, OrderPending, subtotal, quote.discount, 0, total, d.key, d.address, w.destination, d.selection, d.coupon, children, pay);
      RowsMakeOrder(order, sold, w.shops);
      shelves, log := shelves', log';
    }

    // Builds the order, checks its online payment, and only then commits the writes.
    method Place(d: Demand, w: World, id: nat, ls: seq<CartLine>, subtotal: int64, quote: Voucher.Quote,
                 book: map<string, Offer>, used: map<(string, nat), nat>)
      returns (r: Result<nat>, ghost o: Order)
      requires id !in orders && Cleared(View(), d, w, ls, quote.lineDiscounts)
      requires Listed(ls, w.catalog) && subtotal as int == Sum(Worth(ls, w.catalog))
      requires quote.discount as int == Sum(Voucher.Widen(quote.lineDiscounts))
      requires book == Redeemed(View(), d, id).offers && used == Redeemed(View(), d, id).redemptions
      modifies this
      ensures if UnpayableOnline(old(View()), d, w, quote.lineDiscounts)
              then View() == old(View()) && r == Err(Invalid)
              else Places(old(View()), d, w, id, o, quote.lineDiscounts, View()) && r == Ok(id)
    {
      hide Depleted, Total, Items, Redeemed, Worth, Movements, Places, UnpayableOnline, PlacedFrom, Headed, PricedLines, PricedRows, Cleared, Obstacle, Lines, Sum, Listed, AfterPlacing;
      ghost var db := View();
      PricedFacts(db, d, w, ls, quote.lineDiscounts);
      ghost var sold := PricedRows(db, d, w, quote.lineDiscounts);
      var order, shelves, log := Build(d, w, id, ls, subtotal, quote, sold);
      o := order;
      OrderTotal(order, sold, w.shops);
      PayableOnline(db, d, w, quote.lineDiscounts, order.total);
      if d.way == Sepay && (!w.sepayEnabled || order.total <= 0) {
        return Err(Invalid), o;
      }
      PlacedAll(db, d, w, id, o, ls, quote.lineDiscounts);
      Write(d, id, order, sold, shelves, log, book, used);
      return Ok(id), o;
    }

    // The writes of a checkout: all of them, in one transaction.
    method Write(d: Demand, id: nat, order: Order, ghost sold: seq<Sold>, shelves: map<nat, int>, log: seq<Movement>,
                 book: map<string, Offer>, used: map<(string, nat), nat>)
      requires d.user in carts && (d.coupon != "" ==> d.coupon in offers)
      requires shelves == Depleted(stock, Items(sold)) && log == ledger + Movements(Items(sold), -1, Sale, id)
      requires book == Redeemed(View(), d, id).offers && used == Redeemed(View(), d, id).redemptions
      modifies this
      ensures View() == old(AfterPlacing(View(), d, id, order, Items(sold)))
    {
      hide Depleted, Items, Movements, Redeemed, Leave;
      RedeemedElsewhere(View(), d, id);
      stock, ledger, offers, redemptions := shelves, log, book, used;
      orders, keys := orders[id := order], keys[(d.user, d.key) := id];
      carts := carts[d.user := Leave(carts[d.user], d.selected)];
      outbox := outbox + [OrderCreated(id, d.user, order.total)];
    }

    // The lines of a demand with their subtotal, or the first obstacle before the coupon.
    method Gather(d: Demand, w: World) returns (r: Result<int64>, ls: seq<CartLine>)
      ensures r.Err? ==> Obstacle(View(), d, w) == Some(r.error)
      ensures r.Ok? ==> d.user in carts && ls == Take(carts[d.user], d.selected) && 0 < |ls| <= Voucher.MAX_LINES && Priced(ls, w, stock)
      ensures r.Ok? ==> Listed(ls, w.catalog) && r.value as int == Sum(Worth(ls, w.catalog))
      ensures r.Ok? ==> Obstacle(View(), d, w) == CouponError(View(), d, w.now, VoucherLines(ls, w, stock))
    {
      hide FirstError, Take, Listed, Worth, Sum, VoucherLines, LineError, CouponError;
      if !w.addressOwned || d.user !in carts {
        return Err(NotFound), [];
      }
      ls := Take(carts[d.user], d.selected);
      if |ls| == 0 || |ls| > 100 || (|d.selected| > 0 && |ls| != |d.selected|) {
        return Err(Conflict), [];
      }
      r := CheckLines(stock, w.catalog, w.shops, ls);
    }

    method Checkout(d: Demand, w: World, id: nat) returns (r: Result<nat>, ghost o: Order, ghost discounts: seq<int64>)
      requires id !in orders
      modifies this
      ensures ChecksOut(old(View()), d, w, id, o, discounts, View(), r)
    {
      hide Obstacle, Take, Places, UnpayableOnline, Discounted, Listed, Worth, VoucherLines, Redeemed, CouponError, Priced, Sum;
      ghost var db := View();
      o, discounts := BLANK, [];
      if !w.userActive {
        r := Err(NotFound);
        return;
      }
      if (d.user, d.key) in keys {
        var first := keys[(d.user, d.key)];
        if first !in orders {
          r := Err(Conflict);
          return;
        }
        var previous := orders[first];
        if previous.payment.way != d.way || previous.selection != d.selection || previous.coupon != d.coupon || previous.address != d.address {
          r := Err(Conflict);
          return;
        }
        r := Ok(first);
        return;
      }
      var total, ls := Gather(d, w);
      if total.Err? {
        r := Err(total.error);
        return;
      }
      var quote := Voucher.Quote(0, seq(|ls|, _ => 0));
      var book, used := offers, redemptions;
      if d.coupon == "" {
        NoCoupon(db, d, w, id, ls, quote.lineDiscounts);
      } else {
        var vs := CouponLines(stock, w, ls);
        var redeemed;
        redeemed, book, used := Redeem(d, vs, w.now, id);
        if redeemed.Err? {
          r := Err(redeemed.error);
          return;
        }
        quote := redeemed.value;
      }
      discounts := quote.lineDiscounts;
      r, o := Place(d, w, id, ls, total.value, quote, book, used);
    }

    // ---- Cancellation, stock and bank transfers ---------------------------------------------

    method Cancel(id: nat, user: nat) returns (r: Result<()>)
      modifies this
      ensures Outcome(View(), r) == old(CancelOrder(View(), id, user))
    {
      if id !in orders || orders[id].user != user {
        return Err(NotFound);
      }
      var o := orders[id];
      if o.status == OrderCancelled {
        return Ok(());
      }
      if o.status != OrderPending {
        return Err(Conflict);
      }
      if o.payment.way != Cod && o.payment.status == Paid {
        return Err(Conflict);
      }
      var n := CountNotPending(o.children);
      if n > 0 {
        return Err(Conflict);
      }
      var items := Rows(o.children);
      var shelves, log, fits := Restock(id, items);
      if !fits {
        return Err(Conflict);
      }
      stock, ledger := shelves, log;
      var children := seq(|o.children|, k requires 0 <= k < |o.children| => o.children[k].(status := Cancelled));
      orders := orders[id := o.(status := OrderCancelled, children := children, payment := o.payment.(status := Void))];
      outbox := outbox + [OrderStatusChanged(id, None, Cancelled)];
      return Ok(());
    }

    // The restocking loop of a cancellation, on the transaction's own copy of the tables.
    method Restock(id: nat, items: seq<Item>) returns (shelves: map<nat, int>, log: seq<Movement>, fits: bool)
      ensures shelves == Restocked(stock, items)
      ensures log == ledger + Movements(items, 1, Cancellation, id)
      ensures fits == InRange(shelves)
    {
      shelves, log := stock, ledger;
      assert items[..0] == [];
      for k := 0 to |items|
        invariant shelves == Restocked(stock, items[..k])
        invariant log == ledger + Movements(items[..k], 1, Cancellation, id)
      {
        var item := items[k];
        ghost var before := shelves;
        assert items[..k + 1] == items[..k] + [item];
        RestockStep(stock, items[..k], item);
        if item.variant in shelves {
          shelves := shelves[item.variant := shelves[item.variant] + item.quantity];
        }
        log := log + [Movement(item.variant, item.quantity, Cancellation, Some(id))];
        assert Movements(items[..k + 1], 1, Cancellation, id) ==
               Movements(items[..k], 1, Cancellation, id) + [Movement(item.variant, item.quantity, Cancellation, Some(id))];
      }
      assert items[..|items|] == items;
      fits := forall v :: v in shelves ==> 0 <= shelves[v] <= MAX_STOCK;
    }

    method Adjust(member: bool, owned: bool, variant: nat, delta: int, note: string) returns (r: Result<()>)
      modifies this
      ensures Outcome(View(), r) == old(Market.Adjust(View(), member, owned, variant, delta, note))
    {
      if delta == 0 || delta < -1_000_000 || delta > 1_000_000 || |note| == 0 || |note| > 500 {
        return Err(Invalid);
      }
      if !member {
        return Err(Forbidden);
      }
      if variant !in stock || !owned {
        return Err(NotFound);
      }
      if stock[variant] + delta < 0 || stock[variant] + delta > MAX_STOCK {
        return Err(Conflict);
      }
      stock := stock[variant := stock[variant] + delta];
      ledger := ledger + [Movement(variant, delta, Adjustment, None)];
      outbox := outbox + [InventoryChanged(variant, delta)];
      return Ok(());
    }

    method Receive(enabled: bool, w: Webhook) returns (r: Result<()>)
      modifies this
      ensures Outcome(View(), r) == old(Market.Receive(View(), enabled, w))
    {
      if !enabled {
        return Err(Unavailable);
      }
      if w.id <= 0 || w.amount < 0 || w.account == "" || w.gateway == "" || w.direction == Unknown {
        return Err(Invalid);
      }
      var rec := ReceiptOf(w);
      if w.id in receipts {
        var earlier := receipts[w.id];
        if earlier.code != rec.code || earlier.amount != rec.amount || earlier.bank != rec.bank || earlier.account != rec.account || earlier.direction != rec.direction {
          return Err(Conflict);
        }
        return Ok(());
      }
      if rec.status != Ignored && rec.code != None {
        var code := rec.code.value;
        if code in orders && orders[code].payment.way == Sepay {
          var o := orders[code];
          rec := rec.(payment := Some(code), status := RequiresReview);
          if CanApply(o, rec.direction == In, rec.bank, rec.account, rec.amount) {
            rec := rec.(status := Applied);
            orders := orders[code := o.(payment := o.payment.(status := Paid))];
            outbox := outbox + [PaymentSucceeded(code, o.payment.amount)];
          }
          transactions := transactions[w.id := Transaction(code, rec.status, rec.amount)];
        }
      }
      if rec.status == RequiresReview || rec.status == Unmatched {
        outbox := outbox + [ReconciliationRequired(w.id as int)];
      }
      receipts := receipts[w.id := rec];
      return Ok(());
    }
  }

  // ---- Queries --------------------------------------------------------------------------------

  method CountInternal(cs: seq<Child>) returns (n: nat)
    ensures n > 0 <==> HasInternal(cs)
  {
    n := 0;
    for k := 0 to |cs|
      invariant n > 0 <==> exists j :: 0 <= j < k && IsInternal(cs[j])
    {
      if IsInternal(cs[k]) {
        n := n + 1;
      }
    }
  }

  method CountExternal(cs: seq<Child>) returns (n: nat)
    ensures n > 0 <==> HasExternal(cs)
  {
    n := 0;
    for k := 0 to |cs|
      invariant n > 0 <==> exists j :: 0 <= j < k && IsExternal(cs[j])
    {
      if IsExternal(cs[k]) {
        n := n + 1;
      }
    }
  }

  method CountUndelivered(cs: seq<Child>) returns (n: nat)
    ensures n == 0 <==> All(cs, Delivered)
  {
    n := 0;
    for k := 0 to |cs|
      invariant n == 0 <==> forall j :: 0 <= j < k ==> cs[j].status == Delivered
    {
      if cs[k].status != Delivered {
        n := n + 1;
      }
    }
  }

  method CountNotPending(cs: seq<Child>) returns (n: nat)
    ensures n == 0 <==> All(cs, Pending)
  {
    n := 0;
    for k := 0 to |cs|
      invariant n == 0 <==> forall j :: 0 <= j < k ==> cs[j].status == Pending
    {
      if cs[k].status != Pending {
        n := n + 1;
      }
    }
  }

  method CountUnsettled(cs: seq<Child>) returns (n: nat)
    ensures n == 0 <==> AllSettled(cs)
  {
    n := 0;
    for k := 0 to |cs|
      invariant n == 0 <==> forall j :: 0 <= j < k ==> SettledChild(cs[j])
    {
      if !SettledChild(cs[k]) {
        n := n + 1;
      }
    }
  }

  method FindEvent(events: seq<ShipmentEvent>, key: string) returns (e: Option<ShipmentEvent>)
    ensures e == Prior(events, key)
  {
    for k := 0 to |events|
      invariant Prior(events, key) == Prior(events[k..], key)
    {
      if events[k].key == Some(key) {
        return Some(events[k]);
      }
    }
    return None;
  }

  lemma RestockStep(stock: map<nat, int>, items: seq<Item>, x: Item)
    ensures Restocked(stock, items + [x]) ==
      if x.variant in stock then Restocked(stock, items)[x.variant := Restocked(stock, items)[x.variant] + x.quantity]
      else Restocked(stock, items)
  {
    forall v | v in stock
      ensures Total(Units(v), items + [x]) == Total(Units(v), items) + if v == x.variant then x.quantity else 0
    {
      TotalSnoc(Units(v), items, x);
    }
  }

  // ---- Facts about the rows of an accepted checkout -----------------------------------------

  // A checkout with no obstacle left, and the discounts of its lines.
  predicate Cleared(db: Db, d: Demand, w: World, ls: seq<CartLine>, discounts: seq<int64>)
  {
    && Obstacle(db, d, w) == None && ls == Lines(db, d, w)
    && Discounted(db, d, VoucherLines(ls, w, db.stock), w.now, discounts)
  }

  predicate PricedLines(db: Db, w: World, ls: seq<CartLine>, discounts: seq<int64>, sold: seq<Sold>)
  {
    && |discounts| == |ls| && Listed(ls, w.catalog) && sold == SoldRows(ls, w.catalog, discounts)
    && RowsInRange(sold) && (forall i :: 0 <= i < |ls| ==> ls[i].variant in db.stock)
    && (forall i :: 0 <= i < |sold| ==> sold[i].seller in w.shops)
    && 0 <= Total(Reduction, Items(sold)) <= Total(Price, Items(sold)) <= 1_000_000_000_000_000_000
  }

  lemma PricedFacts(db: Db, d: Demand, w: World, ls: seq<CartLine>, discounts: seq<int64>)
    requires Cleared(db, d, w, ls, discounts)
    ensures Obstacle(db, d, w) == None && ls == Lines(db, d, w)
    ensures |discounts| == |Lines(db, d, w)| && d.user in db.carts && (d.coupon != "" ==> d.coupon in db.offers)
    ensures PricedLines(db, w, ls, discounts, PricedRows(db, d, w, discounts))
    ensures Total(Price, Items(PricedRows(db, d, w, discounts))) == Sum(Worth(ls, w.catalog))
    ensures Total(Reduction, Items(PricedRows(db, d, w, discounts))) == Sum(Voucher.Widen(discounts))
  {
    hide Obstacle, Total, VoucherLines, Worth;
    CouponFacts(db, d, w);
    var sold := PricedRows(db, d, w, discounts);
    forall i | 0 <= i < |ls|
      ensures ls[i].variant in db.stock && ls[i].variant in w.catalog && w.catalog[ls[i].variant].seller in w.shops
    {
      assert LineError(db.stock, w.catalog, w.shops, ls[i]) == None;
    }
    MarketInvariant.AcceptedRows(db, d, w, discounts);
    WholeInRange(sold);
    SubtotalIsWorth(ls, w.catalog, discounts);
    DiscountIsReduction(ls, w.catalog, discounts);
  }

  lemma CouponFacts(db: Db, d: Demand, w: World)
    requires Obstacle(db, d, w) == None
    ensures d.user in db.carts && (d.coupon != "" ==> d.coupon in db.offers)
  {
  }

  lemma OrderTotal(o: Order, sold: seq<Sold>, shops: map<nat, Shop>)
    requires PlacedFrom(o, sold, shops)
    ensures o.total as int == Total(Price, Items(sold)) - Total(Reduction, Items(sold))
  {
  }

  lemma DiscountIsReduction(ls: seq<CartLine>, catalog: map<nat, CatalogRow>, discounts: seq<int64>)
    requires Listed(ls, catalog) && |discounts| == |ls|
    ensures Total(Reduction, Items(SoldRows(ls, catalog, discounts))) == Sum(Voucher.Widen(discounts))
  {
    var items := Items(SoldRows(ls, catalog, discounts));
    assert seq(|items|, i requires 0 <= i < |items| => Of(Reduction, items[i])) == Voucher.Widen(discounts);
  }

  lemma {:induction false} RowBehindGroup(sold: seq<Sold>, seller: nat, n: nat)
    requires n <= |sold| && ItemsOf(sold, seller, n) != []
    ensures exists j :: 0 <= j < n && sold[j].seller == seller
  {
    if sold[n - 1].seller != seller {
      RowBehindGroup(sold, seller, n - 1);
    }
  }

  lemma GroupsPriced(cs: seq<Child>, sold: seq<Sold>, shops: map<nat, Shop>)
    requires Grouped(cs, sold, |sold|) && RowsInRange(sold)
    requires forall i :: 0 <= i < |sold| ==> sold[i].seller in shops
    ensures forall i :: 0 <= i < |cs| ==> 0 <= cs[i].total && cs[i].seller in shops
  {
    forall i | 0 <= i < |cs|
      ensures 0 <= cs[i].total && cs[i].seller in shops
    {
      assert GroupOf(cs[i], sold, |sold|);
      PartInRange(sold, cs[i].seller, |sold|);
      RowBehindGroup(sold, cs[i].seller, |sold|);
    }
  }

  lemma PayableOnline(db: Db, d: Demand, w: World, discounts: seq<int64>, total: int64)
    requires Obstacle(db, d, w) == None && Cleared(db, d, w, Lines(db, d, w), discounts) && |discounts| == |Lines(db, d, w)|
    requires total as int == Total(Price, Items(PricedRows(db, d, w, discounts))) - Total(Reduction, Items(PricedRows(db, d, w, discounts)))
    ensures UnpayableOnline(db, d, w, discounts) <==> d.way == Sepay && (!w.sepayEnabled || total <= 0)
  {
    hide Obstacle, Discounted, Total, PricedRows;
  }

  lemma RowsMakeOrder(o: Order, sold: seq<Sold>, shops: map<nat, Shop>)
    requires o.status == OrderPending && o.shippingFee == 0 && Grouped(o.children, sold, |sold|) && Commissioned(o.children, shops)
    requires o.subtotal as int == Total(Price, Items(sold)) && o.discount as int == Total(Reduction, Items(sold))
    requires o.total as int == o.subtotal as int - o.discount as int
    requires o.payment.status == Unpaid && o.payment.amount == o.total
    ensures PlacedFrom(o, sold, shops)
  {
  }

  lemma PlacedAll(db: Db, d: Demand, w: World, id: nat, o: Order, ls: seq<CartLine>, discounts: seq<int64>)
    requires id !in db.orders && Obstacle(db, d, w) == None && Cleared(db, d, w, ls, discounts) && |discounts| == |Lines(db, d, w)|
    requires PlacedFrom(o, PricedRows(db, d, w, discounts), w.shops) && Headed(o, d, w)
    requires d.way == Sepay ==> w.sepayEnabled && o.total > 0
    requires (d.coupon != "" ==> d.coupon in db.offers) && d.user in db.carts
    ensures Places(db, d, w, id, o, discounts, AfterPlacing(db, d, id, o, Items(PricedRows(db, d, w, discounts))))
  {
    hide Obstacle, Discounted, PlacedFrom, Headed, AfterPlacing, PricedRows, VoucherLines;
  }

  // Without a coupon nothing is taken off and nothing is redeemed.
  lemma NoCoupon(db: Db, d: Demand, w: World, id: nat, ls: seq<CartLine>, discounts: seq<int64>)
    requires d.coupon == "" && |discounts| == |ls| && (forall i :: 0 <= i < |discounts| ==> discounts[i] == 0)
    requires Priced(ls, w, db.stock)
    ensures Sum(Voucher.Widen(discounts)) == 0
    ensures Redeemed(db, d, id) == db
    ensures CouponError(db, d, w.now, VoucherLines(ls, w, db.stock)) == None
    ensures Discounted(db, d, VoucherLines(ls, w, db.stock), w.now, discounts)
  {
    SumBounds(Voucher.Widen(discounts), 0);
  }

  // Redeeming touches only the coupon book and the redemptions.
  lemma RedeemedElsewhere(db: Db, d: Demand, id: nat)
    requires d.coupon != "" ==> d.coupon in db.offers
    ensures var r := Redeemed(db, d, id); db.(offers := r.offers, redemptions := r.redemptions) == r
  {
  }
}
