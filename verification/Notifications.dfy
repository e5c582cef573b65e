/**
 * Classification of domain events by the notification service: whom an event concerns, what is
 * malformed, what is none of its business, and the notification row it becomes.
 */
module Notifications {
  import opened Common

  // Identifiers are naturals; zero is the nil identifier.
  datatype Kind = OrderCreated | PaymentSucceeded | OrderStatusChanged | ProductSearchUpdated
                | InventoryChanged | ReviewSearchUpdated | SellerStatusChanged | SellerSearchUpdated
                | Other(name: string)

  // A payload as decoding finds it: absent fields have their zero value.
  datatype Payload = Undecodable
                   | Body(order: nat, user: nat, amount: int64, discount: int64, currency: string,
                          way: string, status: string, product: nat, numericDelta: bool)

  datatype Envelope = Envelope(id: nat, kind: Kind, version: int, aggregateType: string, aggregate: nat,
                               dated: bool, payload: Payload)

  datatype Notification = Notification(user: nat, event: nat, kind: Kind, title: string, body: string)

  datatype Verdict = Unsupported | Malformed | For(user: nat, status: string)

  predicate Headed(e: Envelope)
  {
    e.id != 0 && e.version == 1 && Trim(e.aggregateType) != "" && e.aggregate != 0 && e.dated
  }

  function Recipient(e: Envelope): Verdict
  {
    if !Headed(e) then Malformed
    else
      match e.kind
      case OrderCreated =>
        if e.payload == Undecodable || e.payload.order == 0 || e.payload.user == 0 || e.payload.amount < 0
           || e.payload.discount < 0 || e.payload.currency == "" then Malformed
        else For(e.payload.user, "")
      case PaymentSucceeded =>
        if e.payload == Undecodable || e.payload.order == 0 || e.payload.user == 0 || e.payload.amount < 0
           || Trim(e.payload.way) == "" then Malformed
        else For(e.payload.user, "")
      case OrderStatusChanged =>
        if e.payload == Undecodable || e.payload.order == 0 || e.payload.user == 0 || Trim(e.payload.status) == "" then Malformed
        else For(e.payload.user, e.payload.status)
      case ProductSearchUpdated =>
        if e.aggregateType != "product" || e.payload == Undecodable then Malformed else Unsupported
      case InventoryChanged =>
        if e.aggregateType != "variant" || e.payload == Undecodable || !e.payload.numericDelta then Malformed else Unsupported
      case ReviewSearchUpdated =>
        if e.aggregateType != "product" || e.payload == Undecodable || e.payload.product == 0
           || e.payload.product != e.aggregate then Malformed
        else Unsupported
      case SellerStatusChanged =>
        if e.aggregateType != "seller" || e.payload == Undecodable
           || (e.payload.status != "approved" && e.payload.status != "rejected" && e.payload.status != "suspended") then Malformed
        else Unsupported
      case SellerSearchUpdated =>
        if e.aggregateType != "seller" || e.payload == Undecodable then Malformed else Unsupported
      case Other(_) => Unsupported
  }

  function Title(kind: Kind): string
  {
    match kind
    case OrderCreated => "New order"
    case PaymentSucceeded => "Payment succeeded"
    case OrderStatusChanged => "Order updated"
    case _ => "Account update"
  }

  function Text(kind: Kind, status: string): string
  {
    match kind
    case OrderCreated => "Your order was created successfully."
    case PaymentSucceeded => "Your payment was received successfully."
    case OrderStatusChanged => "Your order status changed to: " + status
    case _ => "You have a new update."
  }

  function RowFor(e: Envelope): Notification
    requires Recipient(e).For?
  {
    Notification(Recipient(e).user, e.id, e.kind, Title(e.kind), Text(e.kind, Recipient(e).status))
  }

  predicate Named(n: Notification, event: nat)
  {
    n.event == event
  }

  predicate Notified(ns: seq<Notification>, event: nat)
  {
    exists i :: 0 <= i < |ns| && Named(ns[i], event)
  }

  // Insert unless a row for the event is already there.
  function Insert(ns: seq<Notification>, n: Notification): seq<Notification>
  {
    if Notified(ns, n.event) then ns else ns + [n]
  }

  predicate OnePerEvent(ns: seq<Notification>)
  {
    forall i, j :: 0 <= i < j < |ns| ==> ns[i].event != ns[j].event
  }

  lemma InsertOnce(ns: seq<Notification>, n: Notification)
    requires OnePerEvent(ns)
    ensures OnePerEvent(Insert(ns, n)) && Notified(Insert(ns, n), n.event)
    ensures forall event :: Notified(ns, event) ==> Notified(Insert(ns, n), event)
  {
    var ns' := Insert(ns, n);
    if !Notified(ns, n.event) {
      assert Named(ns'[|ns|], n.event);
      forall i | 0 <= i < |ns|
        ensures ns[i].event != n.event
      {
        assert !Named(ns[i], n.event);
      }
    }
    forall event | Notified(ns, event)
      ensures Notified(ns', event)
    {
      var i :| 0 <= i < |ns| && Named(ns[i], event);
      assert Named(ns'[i], event);
    }
  }
}
