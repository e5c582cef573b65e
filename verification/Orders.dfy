/**
 * One order with its seller orders, their shipments and its payment, and the transactions that
 * move them. Each function is what one committed transaction makes of the rows of one order.
 * A seller order is named by its position inside the order; the position never changes.
 */
module Orders {
  import opened Common

  datatype OrderStatus = OrderPending | OrderProcessing | OrderDelivered | OrderCancelled
  datatype ChildStatus = Pending | Confirmed | Shipping | Delivered | Cancelled
  // Requested is the stored value "pending"; InTransit is "shipping", used by outside carriers only.
  datatype ShipmentStatus = Requested | Assigned | Accepted | PickedUp | Delivering | Failed
                          | Returned | HandedOver | InTransit
  datatype Method = Cod | Sepay
  datatype PaymentStatus = Unpaid | Paid | Void

  datatype ShipmentEvent = ShipmentEvent(status: ShipmentStatus, actor: Option<nat>, key: Option<string>, note: string)
  datatype Shipment = Shipment(carrier: string, status: ShipmentStatus, driver: Option<nat>,
                               codAmount: int64, collected: bool, settled: bool, events: seq<ShipmentEvent>)
  // What a variant was called when it was sold.
  datatype Title = Title(product: string, sku: string, name: string)
  datatype Item = Item(variant: nat, unitPrice: int64, quantity: int, discount: int64, title: Title)
  datatype Child = Child(seller: nat, status: ChildStatus, subtotal: int64, discount: int64, total: int64,
                         commission: int64, items: seq<Item>, shipment: Option<Shipment>)
  datatype Payment = Payment(way: Method, status: PaymentStatus, amount: int64, bank: string, account: string)
  datatype Order = Order(user: nat, status: OrderStatus, subtotal: int64, discount: int64, shippingFee: int64,
                         total: int64, key: string, address: nat, destination: string, selection: string, coupon: string,
                         children: seq<Child>, payment: Payment)

  // Rows the transactions append to the outbox.
  datatype Event =
    | OrderCreated(order: nat, user: nat, total: int64)
    | OrderStatusChanged(order: nat, child: Option<nat>, status: ChildStatus)
    | PaymentSucceeded(order: nat, amount: int64)
    | ShipmentStatusChanged(order: nat, childIndex: nat, shipment: ShipmentStatus)
    | ReconciliationRequired(transaction: int)
    | InventoryChanged(variant: nat, delta: int)

  // What a transaction on an order commits.
  datatype Change = Change(order: Order, events: seq<Event>)

  const INTERNAL := "internal"

  predicate IsInternal(c: Child)
  {
    c.shipment.Some? && c.shipment.value.carrier == INTERNAL
  }

  predicate IsExternal(c: Child)
  {
    c.shipment.Some? && c.shipment.value.carrier != INTERNAL
  }

  predicate HasInternal(cs: seq<Child>)
  {
    exists i :: 0 <= i < |cs| && IsInternal(cs[i])
  }

  predicate HasExternal(cs: seq<Child>)
  {
    exists i :: 0 <= i < |cs| && IsExternal(cs[i])
  }

  predicate All(cs: seq<Child>, status: ChildStatus)
  {
    forall i :: 0 <= i < |cs| ==> cs[i].status == status
  }

  // Payable is what every fulfilment step asks: cash on delivery, or money already in.
  predicate Payable(p: Payment)
  {
    p.way == Cod || p.status == Paid
  }

  function ParentStatus(cs: seq<Child>): OrderStatus
  {
    if All(cs, Delivered) then OrderDelivered else OrderProcessing
  }

  function WithChild(o: Order, i: nat, c: Child): Order
    requires i < |o.children|
  {
    o.(children := o.children[i := c])
  }

  // In every function below the booleans stand for role, membership and approval checks.

  // ---- Seller fulfilment --------------------------------------------------------------------

  predicate ValidTransition(from: ChildStatus, to: ChildStatus)
  {
    || (from == Pending && to == Confirmed)
    || (from == Confirmed && to == Shipping)
    || (from == Shipping && to == Delivered)
  }

  // The shipment row after the seller moved its order. A second row for the same seller order,
  // or an outside shipment that claims the internal carrier, is refused by the schema.
  function CarrierStep(c: Child, status: ChildStatus, carrier: string): Result<Option<Shipment>>
  {
    match status
    case Shipping =>
      if c.shipment.Some? || carrier == INTERNAL then Err(Conflict)
      else Ok(Some(Shipment(carrier, InTransit, None, 0, false, false, [ShipmentEvent(InTransit, None, None, "")])))
    case Delivered =>
      if c.shipment.None? then Err(NotFound)
      else
        var s := c.shipment.value;
        Ok(Some(s.(status := HandedOver, events := s.events + [ShipmentEvent(HandedOver, None, None, "")])))
    case _ => Ok(c.shipment)
  }

  function AfterFulfil(o: Order): Order
  {
    var paid := All(o.children, Delivered) && o.payment.way == Cod && !HasInternal(o.children);
    o.(status := ParentStatus(o.children), payment := if paid then o.payment.(status := Paid) else o.payment)
  }

  function Fulfil(id: nat, o: Order, i: nat, member: bool, seller: nat, status: ChildStatus, carrier: string, tracking: string): Result<Change>
  {
    if status != Confirmed && status != Shipping && status != Delivered then Err(Invalid)
    else if status == Shipping && (carrier == "" || tracking == "") then Err(Invalid)
    else if !member then Err(Forbidden)
    else if i >= |o.children| || o.children[i].seller != seller then Err(NotFound)
    else
      var c := o.children[i];
      if IsInternal(c) || (status == Shipping && HasInternal(o.children)) then Err(Conflict)
      else if c.status == status then Ok(Change(o, []))
      else if !ValidTransition(c.status, status) || o.status == OrderCancelled || !Payable(o.payment) then Err(Conflict)
      else
        var s := CarrierStep(c, status, carrier);
        if s.Err? then Err(s.error)
        else
          var moved := WithChild(o, i, c.(status := status, shipment := s.value));
          Ok(Change(AfterFulfil(moved), [OrderStatusChanged(id, Some(i), status)]))
  }

  // ---- Internal delivery --------------------------------------------------------------------

  predicate Transition(from: ShipmentStatus, to: ShipmentStatus)
  {
    match from
    case Assigned => to == Accepted
    case Accepted => to == PickedUp
    case PickedUp => to == Delivering
    case Delivering => to == HandedOver || to == Failed
    case Failed => to == Delivering || to == Returned
    case _ => false
  }

  // Request an internal delivery. A second request returns the first shipment.
  function Request(id: nat, o: Order, i: nat, member: bool, shop: nat, actor: nat, approved: bool, pickup: bool): Result<Change>
  {
    if !member then Err(Forbidden)
    else if i >= |o.children| then Err(NotFound)
    else
      var c := o.children[i];
      if c.seller != shop then Err(Forbidden)
      else if c.shipment.Some? then (if IsInternal(c) then Ok(Change(o, [])) else Err(Conflict))
      else if c.status != Confirmed || o.status == OrderCancelled || HasExternal(o.children) then Err(Conflict)
      else if !Payable(o.payment) || !approved || !pickup then Err(Conflict)
      else if o.payment.way == Cod && o.shippingFee != 0 then Err(Conflict)
      else
        var cod := if o.payment.way == Cod then c.total else 0;
        var s := Shipment(INTERNAL, Requested, None, cod, false, false,
                          [ShipmentEvent(Requested, Some(actor), None, "delivery requested")]);
        Ok(Change(WithChild(o, i, c.(shipment := Some(s))), [ShipmentStatusChanged(id, i, Requested)]))
  }

  // The part every later delivery step shares: the row exists, is internal, the order is live.
  function Delivery(o: Order, i: nat): Result<Shipment>
  {
    if i >= |o.children| || !IsInternal(o.children[i]) then Err(NotFound)
    else if o.status == OrderCancelled then Err(Conflict)
    else Ok(o.children[i].shipment.value)
  }

  function WithShipment(o: Order, i: nat, s: Shipment): Order
    requires i < |o.children|
  {
    WithChild(o, i, o.children[i].(shipment := Some(s)))
  }

  function Logged(s: Shipment, actor: nat, key: Option<string>, note: string): Shipment
  {
    s.(events := s.events + [ShipmentEvent(s.status, Some(actor), key, note)])
  }

  function Assign(id: nat, o: Order, i: nat, admin: bool, actor: nat, driver: nat, approved: bool): Result<Change>
  {
    var d := Delivery(o, i);
    if d.Err? then Err(d.error)
    else if !admin || !approved then Err(Forbidden)
    else
      var s := d.value;
      if s.status != Requested && s.status != Assigned && s.status != Accepted then Err(Conflict)
      else if s.driver == Some(driver) then Ok(Change(o, []))
      else
        var s' := Logged(s.(driver := Some(driver), status := Assigned), actor, None, "assigned");
        Ok(Change(WithShipment(o, i, s'), [ShipmentStatusChanged(id, i, Assigned)]))
  }

  datatype Update = Update(status: ShipmentStatus, reason: string, collected: bool)

  predicate UpdateWellFormed(key: string, u: Update)
  {
    && u.status != InTransit
    && !Blank(key) && |key| <= 128
    && |u.reason| <= 1000
    && (u.status == Failed ==> !Blank(u.reason))
    && (u.collected ==> u.status == HandedOver)
  }

  predicate Mentions(e: ShipmentEvent, key: string)
  {
    e.key == Some(key)
  }

  function Prior(events: seq<ShipmentEvent>, key: string): (e: Option<ShipmentEvent>)
    ensures e.Some? ==> e.value in events && Mentions(e.value, key)
    ensures e.None? ==> forall i :: 0 <= i < |events| ==> !Mentions(events[i], key)
  {
    if events == [] then None
    else if Mentions(events[0], key) then Some(events[0])
    else Prior(events[1..], key)
  }

  // The seller order status a delivery status stands for.
  function Mirrored(status: ShipmentStatus): ChildStatus
  {
    match status
    case Accepted => Confirmed
    case HandedOver => Delivered
    case _ => Shipping
  }

  function Advance(id: nat, o: Order, i: nat, actor: nat, approved: bool, key: string, u: Update): Result<Change>
  {
    if !UpdateWellFormed(key, u) then Err(Invalid)
    else
      var d := Delivery(o, i);
      if d.Err? then Err(d.error)
      else if !approved || d.value.driver != Some(actor) then Err(Forbidden)
      else
        var s := d.value;
        var prior := Prior(s.events, key);
        if prior.Some? then
          (if prior.value.actor != Some(actor) || prior.value.status != u.status || prior.value.note != u.reason then Err(Conflict)
           else if u.status == HandedOver && (s.codAmount > 0) != u.collected then Err(Conflict)
           else Ok(Change(o, [])))
        else if !Transition(s.status, u.status) || !Payable(o.payment) then Err(Conflict)
        else if u.status == HandedOver && (s.codAmount > 0) != u.collected then Err(Invalid)
        else
          var s' := Logged(s.(status := u.status, collected := if u.status == HandedOver then u.collected else s.collected),
                           actor, Some(key), u.reason);
          var moved := WithChild(o, i, o.children[i].(status := Mirrored(u.status), shipment := Some(s')));
          Ok(Change(moved.(status := ParentStatus(moved.children)), [ShipmentStatusChanged(id, i, u.status)]))
  }

  predicate SettledChild(c: Child)
  {
    c.status == Delivered && IsInternal(c) && c.shipment.value.settled
  }

  predicate AllSettled(cs: seq<Child>)
  {
    forall i :: 0 <= i < |cs| ==> SettledChild(cs[i])
  }

  function Settle(id: nat, o: Order, i: nat, admin: bool, actor: nat): Result<Change>
  {
    var d := Delivery(o, i);
    if d.Err? then Err(d.error)
    else if !admin then Err(Forbidden)
    else
      var s := d.value;
      if o.payment.way != Cod || s.status != HandedOver || (!s.collected && s.codAmount > 0) then Err(Conflict)
      else if s.settled then Ok(Change(o, []))
      else
        var s' := Logged(s.(settled := true, collected := true), actor, None, "COD settled");
        var moved := WithShipment(o, i, s');
        var event := ShipmentStatusChanged(id, i, HandedOver);
        if AllSettled(moved.children) && moved.payment.status == Unpaid then
          Ok(Change(moved.(payment := moved.payment.(status := Paid)), [event, PaymentSucceeded(id, o.total)]))
        else
          Ok(Change(moved, [event]))
  }

  // ---- Cancellation and bank transfer -------------------------------------------------------

  function Cancel(id: nat, o: Order, user: nat): Result<Change>
  {
    if o.user != user then Err(NotFound)
    else if o.status == OrderCancelled then Ok(Change(o, []))
    else if o.status != OrderPending then Err(Conflict)
    else if o.payment.way != Cod && o.payment.status == Paid then Err(Conflict)
    else if !All(o.children, Pending) then Err(Conflict)
    else
      var children := seq(|o.children|, i requires 0 <= i < |o.children| => o.children[i].(status := Cancelled));
      Ok(Change(o.(status := OrderCancelled, children := children, payment := o.payment.(status := Void)),
                [OrderStatusChanged(id, None, Cancelled)]))
  }

  // A bank transfer that reconciles with the payment of this order.
  predicate CanApply(o: Order, incoming: bool, bank: string, account: string, amount: int64)
  {
    && incoming && EqualFold(bank, o.payment.bank) && account == o.payment.account
    && amount > 0 && amount == o.payment.amount
    && o.payment.way == Sepay && o.payment.status == Unpaid && o.status == OrderPending
  }

  function Apply(o: Order): Order
  {
    o.(payment := o.payment.(status := Paid))
  }
}
