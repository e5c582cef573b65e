/** The joint invariant of order, seller orders, shipments and payment, kept by every transaction. */
module Lifecycle {
  import opened Common
  import opened Orders

  // ---- One shipment -------------------------------------------------------------------------

  // The steps an internal shipment's log may take: (re)assignment, delivery, settlement.
  predicate Edge(from: ShipmentStatus, to: ShipmentStatus)
  {
    || ((from == Requested || from == Assigned || from == Accepted) && to == Assigned)
    || Transition(from, to)
    || (from == HandedOver && to == HandedOver)
  }

  predicate ExternalEdge(from: ShipmentStatus, to: ShipmentStatus)
  {
    from == InTransit && to == HandedOver
  }

  predicate UniqueKeys(events: seq<ShipmentEvent>)
  {
    forall i, j :: 0 <= i < j < |events| && events[i].key.Some? ==> events[i].key != events[j].key
  }

  // The log of a shipment: it ends in the current status, every step is an edge, keys are unique.
  predicate Trail(s: Shipment)
  {
    && 0 < |s.events|
    && s.events[|s.events| - 1].status == s.status
    && s.events[0].status == (if s.carrier == INTERNAL then Requested else InTransit)
    && (forall i :: 0 < i < |s.events| ==>
      if s.carrier == INTERNAL then Edge(s.events[i - 1].status, s.events[i].status)
      else ExternalEdge(s.events[i - 1].status, s.events[i].status))
    && UniqueKeys(s.events)
    && SettledOnce(s)
  }

  // Delivery is logged once; a second entry of that status is the settlement, and it is the last.
  predicate SettledOnce(s: Shipment)
    requires 0 < |s.events|
  {
    && (forall i :: 0 <= i < |s.events| && s.events[i].status == HandedOver ==>
          i == |s.events| - 1 || (s.settled && i == |s.events| - 2))
    && (s.settled ==> |s.events| >= 2 && s.events[|s.events| - 2].status == HandedOver)
  }

  predicate DeliveryFlags(s: Shipment)
  {
    && (s.settled ==> s.collected)
    && (s.collected ==> s.status == HandedOver)
    && (s.status == HandedOver && s.codAmount > 0 ==> s.collected)
    && (s.status != Requested ==> s.driver.Some?)
    && (s.status == Requested ==> s.driver.None?)
  }

  // ---- One seller order ---------------------------------------------------------------------

  predicate Mirrors(child: ChildStatus, s: Shipment)
  {
    if s.carrier == INTERNAL then
      match s.status
      case Requested => child == Confirmed
      case Assigned => child == Confirmed
      case Accepted => child == Confirmed
      case PickedUp => child == Shipping
      case Delivering => child == Shipping
      case Failed => child == Shipping
      case Returned => child == Shipping
      case HandedOver => child == Delivered
      case InTransit => false
    else
      (child == Shipping && s.status == InTransit) || (child == Delivered && s.status == HandedOver)
  }

  predicate ChildConsistent(c: Child, way: Method)
  {
    && 0 <= c.total
    && (c.shipment.None? ==> c.status == Pending || c.status == Confirmed || c.status == Cancelled)
    && (c.shipment.Some? ==>
          var s := c.shipment.value;
          && Mirrors(c.status, s)
          && Trail(s)
          && (IsInternal(c) ==> DeliveryFlags(s) && s.codAmount == (if way == Cod then c.total else 0))
          && (!IsInternal(c) ==> s.codAmount == 0 && !s.settled && !s.collected)
          && (way == Sepay ==> !s.settled))
  }

  // ---- The whole order ----------------------------------------------------------------------

  function DerivedStatus(cs: seq<Child>): OrderStatus
  {
    if All(cs, Pending) then OrderPending
    else if All(cs, Cancelled) then OrderCancelled
    else if All(cs, Delivered) then OrderDelivered
    else OrderProcessing
  }

  // When money counts as received for cash on delivery.
  predicate CashComplete(cs: seq<Child>)
  {
    All(cs, Delivered) && (HasInternal(cs) ==> AllSettled(cs))
  }

  predicate PaymentConsistent(o: Order)
  {
    && (o.payment.status == Void <==> o.status == OrderCancelled)
    && (o.payment.way == Cod ==> (o.payment.status == Paid <==> CashComplete(o.children)))
    && (o.payment.way == Sepay && (o.status == OrderProcessing || o.status == OrderDelivered) ==> o.payment.status == Paid)
  }

  function Totals(cs: seq<Child>): (ts: seq<int>)
    ensures |ts| == |cs|
  {
    seq(|cs|, i requires 0 <= i < |cs| => cs[i].total as int)
  }

  function CodAmounts(cs: seq<Child>): (ts: seq<int>)
    ensures |ts| == |cs|
  {
    seq(|cs|, i requires 0 <= i < |cs| => if IsInternal(cs[i]) then cs[i].shipment.value.codAmount as int else 0)
  }

  predicate Consistent(o: Order)
  {
    && 0 < |o.children|
    && o.status == DerivedStatus(o.children)
    && (forall i :: 0 <= i < |o.children| ==> ChildConsistent(o.children[i], o.payment.way))
    && ((exists i :: 0 <= i < |o.children| && o.children[i].status == Cancelled) ==> All(o.children, Cancelled))
    && !(HasInternal(o.children) && HasExternal(o.children))
    && PaymentConsistent(o)
    && o.payment.amount == o.total
    && Sum(Totals(o.children)) == o.total as int
    && o.shippingFee == 0
  }

  // Two states of one order across a transaction.
  predicate Moves(o: Order, o': Order)
  {
    && |o'.children| == |o.children|
    && Totals(o'.children) == Totals(o.children)
    && o'.(children := o.children, status := o.status, payment := o.payment) == o
    && o'.payment.(status := o.payment.status) == o.payment
    && (o.payment.status == Paid ==> o'.payment.status == Paid)
    && (forall i :: 0 <= i < |o.children| ==> ChildMoves(o.children[i], o'.children[i]))
  }

  // Money and items of a seller order never change; a shipment is never dropped, its log only
  // grows, its final statuses are final and its driver is fixed from pick-up on.
  predicate ChildMoves(c: Child, c': Child)
  {
    && c'.(status := c.status, shipment := c.shipment) == c
    && (c.shipment.Some? ==>
          && c'.shipment.Some?
          && ShipmentMoves(c.shipment.value, c'.shipment.value))
  }

  predicate PickedUpOrLater(status: ShipmentStatus)
  {
    status != Requested && status != Assigned && status != Accepted
  }

  predicate ShipmentMoves(s: Shipment, s': Shipment)
  {
    && s'.carrier == s.carrier && s'.codAmount == s.codAmount
    && s.events <= s'.events
    && (s.status == HandedOver || s.status == Returned ==> s'.status == s.status)
    && (s.settled ==> s'.settled)
    && (PickedUpOrLater(s.status) ==> PickedUpOrLater(s'.status) && s'.driver == s.driver)
  }

  // How many PaymentSucceeded rows an order in this state has behind it. Cash collected by
  // outside carriers is marked paid without one.
  function Announced(o: Order): nat
  {
    if o.payment.status == Paid && (o.payment.way == Sepay || HasInternal(o.children)) then 1 else 0
  }

  function Successes(events: seq<Event>, id: nat): nat
  {
    if events == [] then 0
    else Successes(events[..|events| - 1], id) +
         (match events[|events| - 1] case PaymentSucceeded(o, _) => (if o == id then 1 else 0) case _ => 0)
  }

  lemma {:induction false} SuccessesConcat(xs: seq<Event>, ys: seq<Event>, id: nat)
    ensures Successes(xs + ys, id) == Successes(xs, id) + Successes(ys, id)
  {
    if ys == [] {
      assert xs + ys == xs;
    } else {
      assert (xs + ys)[..|xs + ys| - 1] == xs + ys[..|ys| - 1];
      SuccessesConcat(xs, ys[..|ys| - 1], id);
    }
  }

  // What every fulfilment or delivery transaction keeps.
  predicate Kept(o: Order, o': Order)
  {
    Consistent(o') && Moves(o, o') && (o'.status == OrderCancelled <==> o.status == OrderCancelled)
  }

  // The rows a transaction queues announce exactly the payments it completes.
  ghost predicate Announces(id: nat, o: Order, change: Change)
  {
    && Announced(change.order) == Announced(o) + Successes(change.events, id)
    && (forall other: nat :: other != id ==> Successes(change.events, other) == 0)
  }

  // ---- Preservation -------------------------------------------------------------------------

  lemma SameTotals(cs: seq<Child>, i: nat, c: Child)
    requires i < |cs| && c.total == cs[i].total
    ensures Totals(cs[i := c]) == Totals(cs)
  {
  }

  lemma LoggedTrail(s: Shipment, s': Shipment, e: ShipmentEvent)
    requires Trail(s) && s'.carrier == s.carrier
    requires s'.events == s.events + [e] && s'.status == e.status
    requires if s.carrier == INTERNAL then Edge(s.status, e.status) else ExternalEdge(s.status, e.status)
    requires forall i :: 0 <= i < |s.events| && s.events[i].key.Some? ==> s.events[i].key != e.key
    requires !s.settled && (s'.settled <==> s.status == HandedOver)
    ensures Trail(s')
  {
  }

  // A live seller order moved on, so the parent status is recomputed rather than derived.
  lemma Rederived(cs: seq<Child>, i: nat, c: Child)
    requires i < |cs| && c.status != Pending && c.status != Cancelled
    ensures DerivedStatus(cs[i := c]) == ParentStatus(cs[i := c])
  {
    assert cs[i := c][i] == c;
  }

  lemma SameDerived(cs: seq<Child>, i: nat, c: Child)
    requires i < |cs| && c.status == cs[i].status
    ensures DerivedStatus(cs[i := c]) == DerivedStatus(cs)
    ensures All(cs[i := c], Cancelled) == All(cs, Cancelled)
    ensures All(cs[i := c], Delivered) == All(cs, Delivered)
  {
    forall s: ChildStatus
      ensures All(cs[i := c], s) == All(cs, s)
    {
      assert All(cs[i := c], s) ==> forall j :: 0 <= j < |cs| ==> cs[j].status == cs[i := c][j].status;
    }
  }

  lemma SameKinds(cs: seq<Child>, i: nat, c: Child)
    requires i < |cs| && IsInternal(c) == IsInternal(cs[i]) && IsExternal(c) == IsExternal(cs[i])
    ensures HasInternal(cs[i := c]) == HasInternal(cs)
    ensures HasExternal(cs[i := c]) == HasExternal(cs)
  {
    var cs' := cs[i := c];
    assert forall j :: 0 <= j < |cs| ==> IsInternal(cs'[j]) == IsInternal(cs[j]) && IsExternal(cs'[j]) == IsExternal(cs[j]);
    if HasInternal(cs) {
      var j :| 0 <= j < |cs| && IsInternal(cs[j]);
      assert IsInternal(cs'[j]);
    }
    if HasExternal(cs) {
      var j :| 0 <= j < |cs| && IsExternal(cs[j]);
      assert IsExternal(cs'[j]);
    }
  }

  // One seller order moved; what is left to show is said about that seller order alone.
  lemma ChildStep(o: Order, o': Order, i: nat, c: Child)
    requires Consistent(o) && i < |o.children| && o.children[i].status != Cancelled
    requires o'.children == o.children[i := c]
    requires o'.(children := o.children, status := o.status, payment := o.payment) == o
    requires o'.payment.(status := o.payment.status) == o.payment
    requires ChildConsistent(c, o.payment.way) && ChildMoves(o.children[i], c)
    requires c.status != Cancelled && o'.status == DerivedStatus(o'.children)
    requires !(HasInternal(o'.children) && HasExternal(o'.children))
    requires PaymentConsistent(o') && (o.payment.status == Paid ==> o'.payment.status == Paid)
    ensures Consistent(o') && Moves(o, o')
    ensures o.status != OrderCancelled && o'.status != OrderCancelled
  {
    hide Trail, Mirrors, DeliveryFlags;
    assert o'.children[i] == c;
    SameTotals(o.children, i, c);
    assert !All(o.children, Cancelled);
  }

  lemma ConfirmKeeps(id: nat, o: Order, i: nat, member: bool, seller: nat, carrier: string, tracking: string)
    requires Consistent(o)
    requires Fulfil(id, o, i, member, seller, Confirmed, carrier, tracking).Ok?
    ensures Kept(o, Fulfil(id, o, i, member, seller, Confirmed, carrier, tracking).value.order)
  {
    var o' := Fulfil(id, o, i, member, seller, Confirmed, carrier, tracking).value.order;
    if o.children[i].status != Confirmed {
      var c := o.children[i].(status := Confirmed);
      assert o'.children == o.children[i := c];
      Rederived(o.children, i, c);
      SameKinds(o.children, i, c);
      assert o'.children[i].status != Delivered;
      assert !All(o.children, Delivered);
      ChildStep(o, o', i, c);
    }
  }

  lemma ShipKeeps(id: nat, o: Order, i: nat, member: bool, seller: nat, carrier: string, tracking: string)
    requires Consistent(o)
    requires Fulfil(id, o, i, member, seller, Shipping, carrier, tracking).Ok?
    ensures Kept(o, Fulfil(id, o, i, member, seller, Shipping, carrier, tracking).value.order)
  {
    var o' := Fulfil(id, o, i, member, seller, Shipping, carrier, tracking).value.order;
    if o.children[i].status != Shipping {
      var c := o'.children[i];
      assert o'.children == o.children[i := c];
      Rederived(o.children, i, c);
      assert !HasInternal(o'.children);
      assert o'.children[i].status != Delivered;
      assert !All(o.children, Delivered);
      ChildStep(o, o', i, c);
    }
  }

  lemma DeliverKeeps(id: nat, o: Order, i: nat, member: bool, seller: nat, carrier: string, tracking: string)
    requires Consistent(o)
    requires Fulfil(id, o, i, member, seller, Delivered, carrier, tracking).Ok?
    ensures Kept(o, Fulfil(id, o, i, member, seller, Delivered, carrier, tracking).value.order)
  {
    hide Trail;
    var o' := Fulfil(id, o, i, member, seller, Delivered, carrier, tracking).value.order;
    if o.children[i].status != Delivered {
      var c, c' := o.children[i], o'.children[i];
      assert o'.children == o.children[i := c'];
      Rederived(o.children, i, c');
      SameKinds(o.children, i, c');
      var s, s' := c.shipment.value, c'.shipment.value;
      LoggedTrail(s, s', s'.events[|s.events|]);
      assert IsExternal(c);
      assert !All(o.children, Delivered);
      ChildStep(o, o', i, c');
    }
  }

  lemma RequestKeeps(id: nat, o: Order, i: nat, member: bool, shop: nat, actor: nat, approved: bool, pickup: bool)
    requires Consistent(o)
    requires Request(id, o, i, member, shop, actor, approved, pickup).Ok?
    ensures Kept(o, Request(id, o, i, member, shop, actor, approved, pickup).value.order)
  {
    var o' := Request(id, o, i, member, shop, actor, approved, pickup).value.order;
    if o.children[i].shipment.None? {
      var c := o'.children[i];
      assert o'.children == o.children[i := c];
      SameDerived(o.children, i, c);
      assert !HasExternal(o'.children);
      assert !All(o.children, Delivered);
      ChildStep(o, o', i, c);
    }
  }

  lemma AssignKeeps(id: nat, o: Order, i: nat, admin: bool, actor: nat, driver: nat, approved: bool)
    requires Consistent(o)
    requires Assign(id, o, i, admin, actor, driver, approved).Ok?
    ensures Kept(o, Assign(id, o, i, admin, actor, driver, approved).value.order)
  {
    hide Trail;
    var o' := Assign(id, o, i, admin, actor, driver, approved).value.order;
    if o.children[i].shipment.value.driver != Some(driver) {
      var c, c' := o.children[i], o'.children[i];
      assert o'.children == o.children[i := c'];
      var s, s' := c.shipment.value, c'.shipment.value;
      LoggedTrail(s, s', s'.events[|s.events|]);
      SameDerived(o.children, i, c');
      SameKinds(o.children, i, c');
      assert !All(o.children, Delivered);
      ChildStep(o, o', i, c');
    }
  }

  lemma AdvanceKeeps(id: nat, o: Order, i: nat, actor: nat, approved: bool, key: string, u: Update)
    requires Consistent(o)
    requires Advance(id, o, i, actor, approved, key, u).Ok?
    ensures Kept(o, Advance(id, o, i, actor, approved, key, u).value.order)
  {
    hide Trail;
    var o' := Advance(id, o, i, actor, approved, key, u).value.order;
    var c := o.children[i];
    var s := c.shipment.value;
    if Prior(s.events, key).None? {
      var c' := o'.children[i];
      var s' := c'.shipment.value;
      assert o'.children == o.children[i := c'];
      assert s'.events[|s.events|] == ShipmentEvent(u.status, Some(actor), Some(key), u.reason);
      assert forall j :: 0 <= j < |s.events| ==> !Mentions(s.events[j], key);
      LoggedTrail(s, s', s'.events[|s.events|]);
      Rederived(o.children, i, c');
      SameKinds(o.children, i, c');
      assert !All(o.children, Delivered);
      assert !SettledChild(o'.children[i]);
      assert HasInternal(o'.children);
      ChildStep(o, o', i, c');
    }
  }

  lemma SettleKeeps(id: nat, o: Order, i: nat, admin: bool, actor: nat)
    requires Consistent(o)
    requires Settle(id, o, i, admin, actor).Ok?
    ensures Kept(o, Settle(id, o, i, admin, actor).value.order)
  {
    hide Trail;
    var o' := Settle(id, o, i, admin, actor).value.order;
    var c := o.children[i];
    if !c.shipment.value.settled {
      var c' := o'.children[i];
      assert o'.children == o.children[i := c'];
      var s, s' := c.shipment.value, c'.shipment.value;
      LoggedTrail(s, s', s'.events[|s.events|]);
      SameDerived(o.children, i, c');
      SameKinds(o.children, i, c');
      assert !SettledChild(o.children[i]);
      AllSettledMeansDelivered(o'.children);
      ChildStep(o, o', i, c');
    }
  }

  lemma AllSettledMeansDelivered(cs: seq<Child>)
    ensures AllSettled(cs) ==> All(cs, Delivered)
  {
    if AllSettled(cs) {
      forall i | 0 <= i < |cs|
        ensures cs[i].status == Delivered
      {
        assert SettledChild(cs[i]);
      }
    }
  }

  // An unchanged set of shipment kinds and an unchanged payment announce nothing.
  lemma Quiet(id: nat, o: Order, change: Change, i: nat)
    requires i < |o.children| && change.order.payment == o.payment
    requires |change.order.children| == |o.children|
    requires change.order.children == o.children[i := change.order.children[i]]
    requires IsInternal(change.order.children[i]) == IsInternal(o.children[i])
    requires IsExternal(change.order.children[i]) == IsExternal(o.children[i])
    requires |change.events| == 1 && !change.events[0].PaymentSucceeded?
    ensures Announces(id, o, change)
  {
    SameKinds(o.children, i, change.order.children[i]);
    assert change.events[..0] == [];
  }

  lemma FulfilAnnounces(id: nat, o: Order, i: nat, member: bool, seller: nat, status: ChildStatus, carrier: string, tracking: string)
    requires Consistent(o)
    requires Fulfil(id, o, i, member, seller, status, carrier, tracking).Ok?
    ensures Announces(id, o, Fulfil(id, o, i, member, seller, status, carrier, tracking).value)
  {
    var change := Fulfil(id, o, i, member, seller, status, carrier, tracking).value;
    var o' := change.order;
    if change.events != [] {
      assert change.events[..0] == [];
      if status == Shipping {
        assert !HasInternal(o'.children);
      } else {
        SameKinds(o.children, i, o'.children[i]);
      }
      assert !All(o.children, Delivered);
    }
  }

  lemma RequestAnnounces(id: nat, o: Order, i: nat, member: bool, shop: nat, actor: nat, approved: bool, pickup: bool)
    requires Consistent(o)
    requires Request(id, o, i, member, shop, actor, approved, pickup).Ok?
    ensures Announces(id, o, Request(id, o, i, member, shop, actor, approved, pickup).value)
  {
    var change := Request(id, o, i, member, shop, actor, approved, pickup).value;
    if change.events != [] {
      assert change.events[..0] == [];
      assert !All(o.children, Delivered);
    }
  }

  lemma AssignAnnounces(id: nat, o: Order, i: nat, admin: bool, actor: nat, driver: nat, approved: bool)
    requires Assign(id, o, i, admin, actor, driver, approved).Ok?
    ensures Announces(id, o, Assign(id, o, i, admin, actor, driver, approved).value)
  {
    var change := Assign(id, o, i, admin, actor, driver, approved).value;
    if change.events != [] {
      Quiet(id, o, change, i);
    }
  }

  lemma AdvanceAnnounces(id: nat, o: Order, i: nat, actor: nat, approved: bool, key: string, u: Update)
    requires Advance(id, o, i, actor, approved, key, u).Ok?
    ensures Announces(id, o, Advance(id, o, i, actor, approved, key, u).value)
  {
    var change := Advance(id, o, i, actor, approved, key, u).value;
    if change.events != [] {
      Quiet(id, o, change, i);
    }
  }

  lemma SettleAnnounces(id: nat, o: Order, i: nat, admin: bool, actor: nat)
    requires Settle(id, o, i, admin, actor).Ok?
    ensures Announces(id, o, Settle(id, o, i, admin, actor).value)
  {
    hide AllSettled;
    var change := Settle(id, o, i, admin, actor).value;
    if |change.events| == 1 {
      Quiet(id, o, change, i);
    } else if |change.events| == 2 {
      SameKinds(o.children, i, change.order.children[i]);
      assert IsInternal(o.children[i]) && HasInternal(o.children);
      TwoEvents(id, change.events[0], o.total);
      assert change.events == [change.events[0], PaymentSucceeded(id, o.total)];
    }
  }

  lemma TwoEvents(id: nat, e: Event, amount: int64)
    requires !e.PaymentSucceeded?
    ensures forall other: nat :: Successes([e, PaymentSucceeded(id, amount)], other) == if other == id then 1 else 0
  {
    forall other: nat
      ensures Successes([e, PaymentSucceeded(id, amount)], other) == if other == id then 1 else 0
    {
      assert [e, PaymentSucceeded(id, amount)] == [e] + [PaymentSucceeded(id, amount)];
      SuccessesConcat([e], [PaymentSucceeded(id, amount)], other);
      assert [e][..0] == [] && [PaymentSucceeded(id, amount)][..0] == [];
    }
  }

  lemma CancelKeeps(id: nat, o: Order, user: nat)
    requires Consistent(o)
    requires Cancel(id, o, user).Ok?
    ensures var o' := Cancel(id, o, user).value.order; Consistent(o') && Moves(o, o')
    ensures Announced(Cancel(id, o, user).value.order) == Announced(o)
    ensures Cancel(id, o, user).value.order.status == OrderCancelled
  {
    var o' := Cancel(id, o, user).value.order;
    if o' != o {
      assert Totals(o'.children) == Totals(o.children);
      assert !All(o.children, Delivered);
      assert o'.children[0].status != Delivered;
    }
  }

  lemma ApplyKeeps(o: Order, incoming: bool, bank: string, account: string, amount: int64)
    requires Consistent(o) && CanApply(o, incoming, bank, account, amount)
    ensures Consistent(Apply(o)) && Moves(o, Apply(o))
    ensures Announced(o) == 0 && Announced(Apply(o)) == 1
  {
  }

  // ---- What the invariant says --------------------------------------------------------------

  // Cash asked for at the door never exceeds the payment; once the payment is settled through
  // internal delivery, the settled shipments carry exactly its amount.
  lemma CashConserved(o: Order)
    requires Consistent(o)
    ensures Sum(CodAmounts(o.children)) <= o.payment.amount as int
    ensures o.payment.way == Cod && o.payment.status == Paid && HasInternal(o.children) ==>
              AllSettled(o.children) && Sum(CodAmounts(o.children)) == o.payment.amount as int
  {
    var cs := o.children;
    SumMonotone(CodAmounts(cs), Totals(cs));
    if o.payment.way == Cod && o.payment.status == Paid && HasInternal(cs) {
      forall i | 0 <= i < |cs|
        ensures CodAmounts(cs)[i] == Totals(cs)[i]
      {
        assert SettledChild(cs[i]);
      }
      assert CodAmounts(cs) == Totals(cs);
    }
  }

  // A request key takes effect at most once: once it is in the log of a shipment, no later call
  // with that key, after any further transactions, changes the order.
  lemma ReplayIsInert(id: nat, o: Order, later: Order, i: nat, actor: nat, approved: bool, key: string, u: Update,
                      actor': nat, approved': bool, u': Update)
    requires Advance(id, o, i, actor, approved, key, u).Ok?
    requires Moves(Advance(id, o, i, actor, approved, key, u).value.order, later)
    ensures Advance(id, later, i, actor', approved', key, u').Ok? ==>
              Advance(id, later, i, actor', approved', key, u').value == Change(later, [])
  {
    var o' := Advance(id, o, i, actor, approved, key, u).value.order;
    var s' := o'.children[i].shipment.value;
    if Prior(o.children[i].shipment.value.events, key).Some? {
      assert o' == o;
      PriorFound(s'.events, key);
    } else {
      assert Mentions(s'.events[|s'.events| - 1], key);
    }
    if Advance(id, later, i, actor', approved', key, u').Ok? {
      var l := later.children[i].shipment.value;
      assert ChildMoves(o'.children[i], later.children[i]);
      var k :| 0 <= k < |s'.events| && Mentions(s'.events[k], key);
      assert l.events[k] == s'.events[k];
    }
  }

  lemma PriorFound(events: seq<ShipmentEvent>, key: string)
    requires Prior(events, key).Some?
    ensures exists k :: 0 <= k < |events| && Mentions(events[k], key)
  {
    var e := Prior(events, key).value;
    var k :| 0 <= k < |events| && events[k] == e;
    assert Mentions(events[k], key);
  }

  // Moves composes, so its clauses hold across any number of transactions.
  lemma MovesTransitive(a: Order, b: Order, c: Order)
    requires Moves(a, b) && Moves(b, c)
    ensures Moves(a, c)
  {
    forall i | 0 <= i < |a.children|
      ensures ChildMoves(a.children[i], c.children[i])
    {
      assert ChildMoves(a.children[i], b.children[i]) && ChildMoves(b.children[i], c.children[i]);
    }
  }
}
