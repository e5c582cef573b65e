/** From a cart to an order: line checks, the split into seller orders, commission, totals. */
module Checkout {
  import opened Common
  import opened Orders
  import Lifecycle
  import Voucher

  const MAX_PRICE := 1_000_000_000_000
  const MAX_QUANTITY := 10_000

  datatype CartLine = CartLine(variant: nat, quantity: int)
  datatype CatalogRow = CatalogRow(seller: nat, price: int64, published: bool, title: Title)
  // The commission rate is in ten-thousandths; the schema keeps it in this range.
  type Rate = r: int | 0 <= r <= 10_000
  datatype Shop = Shop(approved: bool, rate: Rate)
  // One cart line with its seller and the row it becomes.
  datatype Sold = Sold(seller: nat, item: Item)

  // ---- Line checks --------------------------------------------------------------------------

  function LineError(stock: map<nat, int>, catalog: map<nat, CatalogRow>, shops: map<nat, Shop>, l: CartLine): Option<Error>
  {
    if l.variant !in stock || l.variant !in catalog || !catalog[l.variant].published then Some(NotFound)
    else if catalog[l.variant].seller !in shops || !shops[catalog[l.variant].seller].approved then Some(NotFound)
    else if l.quantity < 1 || l.quantity > MAX_QUANTITY || stock[l.variant] < l.quantity then Some(Conflict)
    else if catalog[l.variant].price < 0 || catalog[l.variant].price as int > MAX_PRICE then Some(Conflict)
    else None
  }

  function FirstError(stock: map<nat, int>, catalog: map<nat, CatalogRow>, shops: map<nat, Shop>, ls: seq<CartLine>): (e: Option<Error>)
    ensures e == None <==> forall i :: 0 <= i < |ls| ==> LineError(stock, catalog, shops, ls[i]) == None
  {
    if ls == [] then None
    else
      var e := LineError(stock, catalog, shops, ls[0]);
      if e.Some? then e else FirstError(stock, catalog, shops, ls[1..])
  }

  // ---- Measures over rows -------------------------------------------------------------------

  // Whatever is added up over rows: money before discount, discount, or units of one variant.
  datatype Measure = Price | Reduction | Units(variant: nat)

  function Of(m: Measure, i: Item): int
  {
    match m
    case Price => i.unitPrice as int * i.quantity
    case Reduction => i.discount as int
    case Units(v) => if i.variant == v then i.quantity else 0
  }

  function Total(m: Measure, items: seq<Item>): int
  {
    Sum(seq(|items|, i requires 0 <= i < |items| => Of(m, items[i])))
  }

  lemma TotalSnoc(m: Measure, items: seq<Item>, x: Item)
    ensures Total(m, items + [x]) == Total(m, items) + Of(m, x)
  {
    var ys := seq(|items|, i requires 0 <= i < |items| => Of(m, items[i]));
    var zs := items + [x];
    assert seq(|zs|, i requires 0 <= i < |zs| => Of(m, zs[i])) == ys + [Of(m, x)];
    SumSnoc(ys, Of(m, x));
  }

  function Items(sold: seq<Sold>): (items: seq<Item>)
    ensures |items| == |sold|
  {
    seq(|sold|, i requires 0 <= i < |sold| => sold[i].item)
  }

  // The rows of one seller among the first n, in order.
  function ItemsOf(sold: seq<Sold>, seller: nat, n: nat): seq<Item>
    requires n <= |sold|
  {
    if n == 0 then []
    else if sold[n - 1].seller == seller then ItemsOf(sold, seller, n - 1) + [sold[n - 1].item]
    else ItemsOf(sold, seller, n - 1)
  }

  // ---- Grouping -----------------------------------------------------------------------------

  predicate DistinctSellers(cs: seq<Child>)
  {
    forall i, j :: 0 <= i < j < |cs| ==> cs[i].seller != cs[j].seller
  }

  predicate GroupOf(c: Child, sold: seq<Sold>, n: nat)
    requires n <= |sold|
  {
    && c.items == ItemsOf(sold, c.seller, n)
    && c.items != []
    && c.subtotal as int == Total(Price, c.items)
    && c.discount as int == Total(Reduction, c.items)
    && c.total as int == c.subtotal as int - c.discount as int
    && c.status == Pending
    && c.shipment == None
  }

  predicate HasSeller(cs: seq<Child>, seller: nat)
  {
    exists i :: 0 <= i < |cs| && cs[i].seller == seller
  }

  // One seller order per seller, holding exactly that seller's rows of the first n.
  predicate Grouped(cs: seq<Child>, sold: seq<Sold>, n: nat)
    requires n <= |sold|
  {
    && DistinctSellers(cs)
    && (forall i :: 0 <= i < |cs| ==> GroupOf(cs[i], sold, n))
    && (forall j :: 0 <= j < n ==> HasSeller(cs, sold[j].seller))
  }

  function PerSeller(m: Measure, cs: seq<Child>, sold: seq<Sold>, n: nat): (xs: seq<int>)
    requires n <= |sold|
    ensures |xs| == |cs|
  {
    seq(|cs|, i requires 0 <= i < |cs| => Total(m, ItemsOf(sold, cs[i].seller, n)))
  }

  lemma SellerIndex(cs: seq<Child>, seller: nat) returns (k: nat)
    requires HasSeller(cs, seller)
    ensures k < |cs| && cs[k].seller == seller
  {
    k :| 0 <= k < |cs| && cs[k].seller == seller;
  }

  lemma PartitionOfNothing(m: Measure, cs: seq<Child>, sold: seq<Sold>)
    ensures Sum(PerSeller(m, cs, sold, 0)) == 0 == Total(m, Items(sold)[..0])
  {
    var xs := PerSeller(m, cs, sold, 0);
    assert forall i :: 0 <= i < |xs| ==> 0 <= xs[i] <= 0;
    SumBounds(xs, 0);
    assert Items(sold)[..0] == [];
  }

  // Splitting rows by seller loses and duplicates nothing, whatever is added up.
  lemma {:induction false} PartitionSum(m: Measure, cs: seq<Child>, sold: seq<Sold>, n: nat)
    requires n <= |sold| && DistinctSellers(cs)
    requires forall j :: 0 <= j < n ==> HasSeller(cs, sold[j].seller)
    ensures Sum(PerSeller(m, cs, sold, n)) == Total(m, Items(sold)[..n])
  {
    hide Total, Of, ItemsOf, Sum, HasSeller, DistinctSellers, PerSeller;
    if n == 0 {
      PartitionOfNothing(m, cs, sold);
    } else {
      PartitionSum(m, cs, sold, n - 1);
      var item, ys := sold[n - 1].item, PerSeller(m, cs, sold, n - 1);
      var k := SellerIndex(cs, sold[n - 1].seller);
      PerSellerStep(m, cs, sold, n, k);
      SumUpdate(ys, k, ys[k] + Of(m, item));
      assert Items(sold)[..n] == Items(sold)[..n - 1] + [item];
      TotalSnoc(m, Items(sold)[..n - 1], item);
    }
  }

  lemma PerSellerStep(m: Measure, cs: seq<Child>, sold: seq<Sold>, n: nat, k: nat)
    requires 0 < n <= |sold| && k < |cs| && DistinctSellers(cs) && cs[k].seller == sold[n - 1].seller
    ensures var ys := PerSeller(m, cs, sold, n - 1);
      PerSeller(m, cs, sold, n) == ys[k := ys[k] + Of(m, sold[n - 1].item)]
  {
    var xs, ys := PerSeller(m, cs, sold, n), PerSeller(m, cs, sold, n - 1);
    TotalSnoc(m, ItemsOf(sold, cs[k].seller, n - 1), sold[n - 1].item);
    forall i | 0 <= i < |cs| && i != k
      ensures xs[i] == ys[i]
    {
      assert cs[i].seller != cs[k].seller;
    }
  }

  predicate RowsInRange(sold: seq<Sold>)
  {
    && |sold| <= Voucher.MAX_LINES
    && forall i :: 0 <= i < |sold| ==> RowInRange(sold[i].item)
  }

  predicate RowInRange(i: Item)
  {
    && 0 <= i.unitPrice as int <= MAX_PRICE
    && 1 <= i.quantity <= MAX_QUANTITY
    && 0 <= i.discount as int <= i.unitPrice as int * i.quantity
  }

  lemma RowAmount(i: Item)
    requires RowInRange(i)
    ensures 0 <= Of(Reduction, i) <= Of(Price, i) <= Voucher.MAX_LINE_AMOUNT
  {
    var p, q := i.unitPrice as int, i.quantity;
    Voucher.MulAtMost(p, q, MAX_QUANTITY);
  }

  // No sum over any part of an accepted cart can leave int64.
  lemma {:induction false} PartInRange(sold: seq<Sold>, seller: nat, n: nat)
    requires RowsInRange(sold) && n <= |sold|
    ensures 0 <= Total(Reduction, ItemsOf(sold, seller, n)) <= Total(Price, ItemsOf(sold, seller, n)) <= n * Voucher.MAX_LINE_AMOUNT
  {
    if n > 0 {
      PartInRange(sold, seller, n - 1);
      var s := sold[n - 1];
      RowAmount(s.item);
      TotalSnoc(Price, ItemsOf(sold, seller, n - 1), s.item);
      TotalSnoc(Reduction, ItemsOf(sold, seller, n - 1), s.item);
    }
  }

  // ---- Commission ---------------------------------------------------------------------------

  // The split formula is the exact floor and stays between zero and the total.
  lemma CommissionExact(total: int, rate: Rate)
    requires 0 <= total
    ensures total / 10_000 * rate + total % 10_000 * rate / 10_000 == total * rate / 10_000
    ensures 0 <= total * rate / 10_000 <= total
    ensures 0 <= total / 10_000 * rate <= total
  {
    var q, r := total / 10_000, total % 10_000;
    assert total * rate == 10_000 * (q * rate) + r * rate by {
      assert total == 10_000 * q + r;
    }
    Voucher.MulAtMost(total, rate, 10_000);
    Voucher.MulAtMost(total, 0, rate);
    Voucher.MulAtMost(q, rate, 10_000);
    Voucher.MulAtMost(q, 0, rate);
  }

  predicate Commissioned(cs: seq<Child>, shops: map<nat, Shop>)
  {
    forall i :: 0 <= i < |cs| ==> cs[i].seller in shops && cs[i].commission as int == cs[i].total as int * shops[cs[i].seller].rate / 10_000
  }

  // ---- The placed order ---------------------------------------------------------------------

  function SoldRows(ls: seq<CartLine>, catalog: map<nat, CatalogRow>, discounts: seq<int64>): (sold: seq<Sold>)
    requires |discounts| == |ls|
    requires forall i :: 0 <= i < |ls| ==> ls[i].variant in catalog
    ensures |sold| == |ls|
  {
    seq(|ls|, i requires 0 <= i < |ls| =>
      var row := catalog[ls[i].variant];
      Sold(row.seller, Item(ls[i].variant, row.price, ls[i].quantity, discounts[i], row.title)))
  }

  // An order as checkout writes it: grouped rows, commissions, totals and a matching payment.
  predicate PlacedFrom(o: Order, sold: seq<Sold>, shops: map<nat, Shop>)
  {
    && o.status == OrderPending
    && o.shippingFee == 0
    && Grouped(o.children, sold, |sold|)
    && Commissioned(o.children, shops)
    && o.subtotal as int == Total(Price, Items(sold))
    && o.discount as int == Total(Reduction, Items(sold))
    && o.total as int == o.subtotal as int - o.discount as int
    && o.payment.status == Unpaid
    && o.payment.amount == o.total
  }

  function Subtotals(cs: seq<Child>): seq<int>
  {
    seq(|cs|, i requires 0 <= i < |cs| => cs[i].subtotal as int)
  }

  function Reductions(cs: seq<Child>): seq<int>
  {
    seq(|cs|, i requires 0 <= i < |cs| => cs[i].discount as int)
  }

  // Money conservation, for every accepted cart: the seller orders add up to the order in all
  // three columns, the payment is the total, and every commission is an exact bounded floor.
  lemma MoneyConserved(o: Order, sold: seq<Sold>, shops: map<nat, Shop>)
    requires RowsInRange(sold) && PlacedFrom(o, sold, shops)
    ensures Sum(Subtotals(o.children)) == o.subtotal as int
    ensures Sum(Reductions(o.children)) == o.discount as int
    ensures Sum(Lifecycle.Totals(o.children)) == o.total as int == o.payment.amount as int
    ensures 0 <= o.discount <= o.subtotal && o.subtotal as int <= 1_000_000_000_000_000_000
    ensures forall i :: 0 <= i < |o.children| ==> 0 <= o.children[i].commission <= o.children[i].total <= o.total
  {
    var n, cs := |sold|, o.children;
    assert Items(sold)[..n] == Items(sold);
    PartitionSum(Price, cs, sold, n);
    PartitionSum(Reduction, cs, sold, n);
    assert Subtotals(cs) == PerSeller(Price, cs, sold, n);
    assert Reductions(cs) == PerSeller(Reduction, cs, sold, n);
    SumDifference(Subtotals(cs), Reductions(cs), Lifecycle.Totals(cs));
    WholeInRange(sold);
    forall i | 0 <= i < |cs|
      ensures 0 <= cs[i].commission <= cs[i].total <= o.total
    {
      PartInRange(sold, cs[i].seller, n);
      CommissionExact(cs[i].total as int, shops[cs[i].seller].rate);
      forall j | 0 <= j < |cs| ensures 0 <= Lifecycle.Totals(cs)[j] {
        PartInRange(sold, cs[j].seller, n);
      }
      PartAtMostSum(Lifecycle.Totals(cs), i);
    }
  }

  lemma {:induction false} PartAtMostSum(xs: seq<int>, i: nat)
    requires i < |xs| && Voucher.NonNegative(xs)
    ensures xs[i] <= Sum(xs)
  {
    Voucher.PrefixSums(xs, i);
  }

  lemma {:induction false} SumDifference(xs: seq<int>, ys: seq<int>, zs: seq<int>)
    requires |xs| == |ys| == |zs|
    requires forall i :: 0 <= i < |xs| ==> zs[i] == xs[i] - ys[i]
    ensures Sum(zs) == Sum(xs) - Sum(ys)
  {
    if xs != [] {
      var n := |xs| - 1;
      SumDifference(xs[..n], ys[..n], zs[..n]);
    }
  }

  lemma {:induction false} WholeInRange(sold: seq<Sold>)
    requires RowsInRange(sold)
    ensures 0 <= Total(Reduction, Items(sold)) <= Total(Price, Items(sold)) <= |sold| * Voucher.MAX_LINE_AMOUNT
  {
    if sold != [] {
      var init, last := sold[..|sold| - 1], sold[|sold| - 1].item;
      WholeInRange(init);
      RowAmount(last);
      assert Items(sold) == Items(init) + [last];
      TotalSnoc(Price, Items(init), last);
      TotalSnoc(Reduction, Items(init), last);
    }
  }

  // A placed order starts its life in a consistent state.
  lemma PlacedIsConsistent(o: Order, sold: seq<Sold>, shops: map<nat, Shop>)
    requires RowsInRange(sold) && sold != [] && PlacedFrom(o, sold, shops)
    ensures Lifecycle.Consistent(o)
  {
    MoneyConserved(o, sold, shops);
    assert HasSeller(o.children, sold[0].seller);
    assert o.children[0].status == Pending;
  }
}
