/**
 * The loops of a checkout as they run: line checks with a memo of sellers, coupon lines, grouping
 * by seller with the stock writes, and commission. All money is int64 and proved not to overflow.
 */
module CheckoutSteps {
  import opened Common
  import opened Orders
  import opened Checkout
  import opened Market
  import Voucher

  predicate Listed(ls: seq<CartLine>, catalog: map<nat, CatalogRow>)
  {
    forall i :: 0 <= i < |ls| ==> ls[i].variant in catalog
  }

  // What each cart line costs before discount.
  function Worth(ls: seq<CartLine>, catalog: map<nat, CatalogRow>): (xs: seq<int>)
    requires Listed(ls, catalog)
    ensures |xs| == |ls|
  {
    seq(|ls|, i requires 0 <= i < |ls| => catalog[ls[i].variant].price as int * ls[i].quantity)
  }

  lemma WorthStep(ls: seq<CartLine>, catalog: map<nat, CatalogRow>, k: nat)
    requires k < |ls| && Listed(ls[..k + 1], catalog)
    ensures Sum(Worth(ls[..k + 1], catalog)) == Sum(Worth(ls[..k], catalog)) + catalog[ls[k].variant].price as int * ls[k].quantity
  {
    var x := catalog[ls[k].variant].price as int * ls[k].quantity;
    assert ls[..k + 1][k].variant in catalog;
    assert Listed(ls[..k], catalog) by {
      assert forall i :: 0 <= i < k ==> ls[..k][i] == ls[..k + 1][i];
    }
    assert Worth(ls[..k + 1], catalog) == Worth(ls[..k], catalog) + [x];
    SumSnoc(Worth(ls[..k], catalog), x);
  }

  lemma SubtotalIsWorth(ls: seq<CartLine>, catalog: map<nat, CatalogRow>, discounts: seq<int64>)
    requires Listed(ls, catalog) && |discounts| == |ls|
    ensures Total(Price, Items(SoldRows(ls, catalog, discounts))) == Sum(Worth(ls, catalog))
  {
    var items := Items(SoldRows(ls, catalog, discounts));
    assert seq(|items|, i requires 0 <= i < |items| => Of(Price, items[i])) == Worth(ls, catalog);
  }

  method CheckLines(stock: map<nat, int>, catalog: map<nat, CatalogRow>, directory: map<nat, Shop>, ls: seq<CartLine>)
    returns (r: Result<int64>)
    requires |ls| <= Voucher.MAX_LINES
    ensures r.Err? <==> FirstError(stock, catalog, directory, ls).Some?
    ensures r.Err? ==> r.error == FirstError(stock, catalog, directory, ls).value
    ensures r.Ok? ==> Listed(ls, catalog) && r.value as int == Sum(Worth(ls, catalog))
  {
    var total: int64 := 0;
    var shops: map<nat, Shop> := map[];
    for k := 0 to |ls|
      invariant FirstError(stock, catalog, directory, ls) == FirstError(stock, catalog, directory, ls[k..])
      invariant Listed(ls[..k], catalog)
      invariant forall s :: s in shops ==> s in directory && shops[s] == directory[s]
      invariant total as int == Sum(Worth(ls[..k], catalog)) && 0 <= total as int <= k * Voucher.MAX_LINE_AMOUNT
    {
      var item := ls[k];
      assert ls[k..][0] == item && ls[k..][1..] == ls[k + 1..];
      if item.variant !in stock {
        return Err(NotFound);
      }
      if item.variant !in catalog || !catalog[item.variant].published {
        return Err(NotFound);
      }
      var v := catalog[item.variant];
      if v.seller !in shops {
        if v.seller !in directory {
          return Err(NotFound);
        }
        shops := shops[v.seller := directory[v.seller]];
      }
      if !shops[v.seller].approved {
        return Err(NotFound);
      }
      if item.quantity < 1 || item.quantity > 10_000 || stock[item.variant] < item.quantity || v.price < 0 || v.price > 1_000_000_000_000 {
        return Err(Conflict);
      }
      Voucher.MulAtMost(v.price as int, item.quantity, MAX_QUANTITY);
      Voucher.MulAtMost(item.quantity, 0, v.price as int);
      assert Listed(ls[..k + 1], catalog) by {
        assert forall i :: 0 <= i < k ==> ls[..k + 1][i] == ls[..k][i];
      }
      WorthStep(ls, catalog, k);
      total := total + v.price * item.quantity as int64;
    }
    assert ls[..|ls|] == ls;
    return Ok(total);
  }

  method CouponLines(stock: map<nat, int>, w: World, ls: seq<CartLine>) returns (vs: seq<Voucher.Line>)
    requires Priced(ls, w, stock)
    ensures vs == VoucherLines(ls, w, stock)
  {
    vs := [];
    for k := 0 to |ls|
      invariant |vs| == k && forall i :: 0 <= i < k ==> vs[i] == VoucherLines(ls, w, stock)[i]
    {
      assert LineError(stock, w.catalog, w.shops, ls[k]) == None;
      var row := w.catalog[ls[k].variant];
      Voucher.MulAtMost(row.price as int, ls[k].quantity, MAX_QUANTITY);
      Voucher.MulAtMost(ls[k].quantity, 0, row.price as int);
      vs := vs + [Voucher.Line(row.seller, row.price * ls[k].quantity as int64)];
    }
  }

  // ---- Grouping -----------------------------------------------------------------------------

  // A group before its next row, empty if it was opened for that row.
  predicate Tallied(c: Child, sold: seq<Sold>, n: nat)
    requires n <= |sold|
  {
    && c.items == ItemsOf(sold, c.seller, n)
    && c.subtotal as int == Total(Price, c.items)
    && c.discount as int == Total(Reduction, c.items)
    && c.status == Pending
    && c.shipment == None
  }

  lemma {:induction false} NoRowsYet(cs: seq<Child>, sold: seq<Sold>, seller: nat, n: nat)
    requires n <= |sold| && !HasSeller(cs, seller)
    requires forall j :: 0 <= j < n ==> HasSeller(cs, sold[j].seller)
    ensures ItemsOf(sold, seller, n) == []
  {
    if n > 0 {
      NoRowsYet(cs, sold, seller, n - 1);
      assert HasSeller(cs, sold[n - 1].seller);
    }
  }

  lemma RoomForRow(sold: seq<Sold>, k: nat)
    requires RowsInRange(sold) && k < |sold|
    ensures var s, part := sold[k], ItemsOf(sold, sold[k].seller, k);
      && 0 <= s.item.unitPrice as int * s.item.quantity <= Voucher.MAX_LINE_AMOUNT
      && Total(Price, part + [s.item]) == Total(Price, part) + s.item.unitPrice as int * s.item.quantity <= 1_000_000_000_000_000_000
      && Total(Reduction, part + [s.item]) == Total(Reduction, part) + s.item.discount as int
      && 0 <= Total(Reduction, part + [s.item]) <= Total(Price, part + [s.item])
  {
    var s, part := sold[k], ItemsOf(sold, sold[k].seller, k);
    PartInRange(sold, s.seller, k + 1);
    RowAmount(s.item);
    TotalSnoc(Price, part, s.item);
    TotalSnoc(Reduction, part, s.item);
  }

  // Adding row k to its own group keeps every group exact.
  lemma RowGrouped(cs: seq<Child>, cs': seq<Child>, sold: seq<Sold>, k: nat, g: nat)
    requires k < |sold| && ReadyFor(cs, sold, k, g)
    requires |cs'| == |cs| && cs' == cs[g := cs'[g]] && cs'[g].seller == cs[g].seller && cs'[g].status == Pending && cs'[g].shipment == None
    requires cs'[g].items == cs[g].items + [sold[k].item]
    requires cs'[g].subtotal as int == Total(Price, cs'[g].items) && cs'[g].discount as int == Total(Reduction, cs'[g].items)
    requires cs'[g].total as int == cs'[g].subtotal as int - cs'[g].discount as int
    ensures Grouped(cs', sold, k + 1)
  {
    hide Total;
    forall i | 0 <= i < |cs'|
      ensures GroupOf(cs'[i], sold, k + 1)
    {
      if i != g {
        assert GroupOf(cs[i], sold, k) && cs[i].seller != cs[g].seller;
      }
    }
    forall j | 0 <= j < k + 1
      ensures HasSeller(cs', sold[j].seller)
    {
      if j < k {
        var i := SellerIndex(cs, sold[j].seller);
        assert cs'[i].seller == sold[j].seller;
      } else {
        assert cs'[g].seller == sold[j].seller;
      }
    }
  }

  // A place for every seller met so far.
  predicate Indexed(index: map<nat, nat>, cs: seq<Child>)
  {
    && (forall s :: s in index ==> index[s] < |cs| && cs[index[s]].seller == s)
    && (forall i :: 0 <= i < |cs| ==> cs[i].seller in index && index[cs[i].seller] == i)
  }

  lemma DepletedStep(stock: map<nat, int>, items: seq<Item>, x: Item)
    requires x.variant in stock
    ensures Depleted(stock, items + [x]) == Depleted(stock, items)[x.variant := Depleted(stock, items)[x.variant] - x.quantity]
  {
    forall v | v in stock
      ensures Total(Units(v), items + [x]) == Total(Units(v), items) + if v == x.variant then x.quantity else 0
    {
      TotalSnoc(Units(v), items, x);
    }
  }

  lemma NothingDepleted(stock: map<nat, int>)
    ensures Depleted(stock, []) == stock
  {
    assert forall v :: v in stock ==> Total(Units(v), []) == 0;
  }

  const OPENED := Child(0, Pending, 0, 0, 0, 0, [], None)

  // Groups with a place ready for row k at position g, empty if its seller is new.
  predicate ReadyFor(cs: seq<Child>, sold: seq<Sold>, k: nat, g: nat)
    requires k < |sold|
  {
    && g < |cs| && cs[g].seller == sold[k].seller && Tallied(cs[g], sold, k)
    && DistinctSellers(cs) && (forall j :: 0 <= j < k ==> HasSeller(cs, sold[j].seller))
    && (forall i :: 0 <= i < |cs| && i != g ==> GroupOf(cs[i], sold, k))
  }

  lemma OpensGroup(cs: seq<Child>, sold: seq<Sold>, k: nat)
    requires k < |sold| && Grouped(cs, sold, k) && !HasSeller(cs, sold[k].seller)
    ensures ReadyFor(cs + [OPENED.(seller := sold[k].seller)], sold, k, |cs|)
  {
    NoRowsYet(cs, sold, sold[k].seller, k);
    var cs' := cs + [OPENED.(seller := sold[k].seller)];
    assert forall i :: 0 <= i < |cs| ==> cs'[i] == cs[i] && cs[i].seller != sold[k].seller;
    forall j | 0 <= j < k
      ensures HasSeller(cs', sold[j].seller)
    {
      var i := SellerIndex(cs, sold[j].seller);
      assert cs'[i] == cs[i];
    }
  }

  method GroupFor(groups: seq<Child>, index: map<nat, nat>, ghost sold: seq<Sold>, ghost k: nat, seller: nat)
    returns (groups': seq<Child>, index': map<nat, nat>, g: nat)
    requires k < |sold| && sold[k].seller == seller && Grouped(groups, sold, k) && Indexed(index, groups)
    ensures ReadyFor(groups', sold, k, g) && Indexed(index', groups')
  {
    hide Total, ItemsOf, Sum;
    groups', index' := groups, index;
    if seller !in index {
      assert !HasSeller(groups, seller);
      OpensGroup(groups, sold, k);
      groups' := groups' + [OPENED.(seller := seller)];
      index' := index'[seller := |groups|];
    }
    g := index'[seller];
  }

  lemma StaysIndexed(index: map<nat, nat>, cs: seq<Child>, g: nat, c: Child)
    requires Indexed(index, cs) && g < |cs| && c.seller == cs[g].seller
    ensures Indexed(index, cs[g := c])
  {
  }

  // Adds one row to the groups, opening a group for a seller met for the first time.
  method AddRow(groups: seq<Child>, index: map<nat, nat>, ghost sold: seq<Sold>, ghost k: nat,
                seller: nat, variant: nat, price: int64, quantity: int, discount: int64, title: Title)
    returns (groups': seq<Child>, index': map<nat, nat>)
    requires k < |sold| && RowsInRange(sold) && sold[k] == Sold(seller, Item(variant, price, quantity, discount, title))
    requires Grouped(groups, sold, k) && Indexed(index, groups)
    ensures Grouped(groups', sold, k + 1) && Indexed(index', groups')
  {
    hide Total, ItemsOf, Sum, Grouped, Indexed, HasSeller, DistinctSellers, GroupOf;
    var ready, places, g := GroupFor(groups, index, sold, k, seller);
    RoomForRow(sold, k);
    var group := ready[g];
    group := group.(subtotal := group.subtotal + price * quantity as int64);
    group := group.(discount := group.discount + discount);
    group := group.(total := group.subtotal - group.discount);
    group := group.(items := group.items + [Item(variant, price, quantity, discount, title)]);
    StaysIndexed(places, ready, g, group);
    RowGrouped(ready, ready[g := group], sold, k, g);
    groups', index' := ready[g := group], places;
  }

  lemma NoGroups(sold: seq<Sold>)
    ensures Grouped([], sold, 0) && Indexed(map[], [])
  {
  }

  method FormGroups(ls: seq<CartLine>, catalog: map<nat, CatalogRow>, discounts: seq<int64>,
                    stock: map<nat, int>, ledger: seq<Movement>, id: nat)
    returns (groups: seq<Child>, shelves: map<nat, int>, log: seq<Movement>)
    requires Listed(ls, catalog) && |discounts| == |ls| && RowsInRange(SoldRows(ls, catalog, discounts))
    requires forall i :: 0 <= i < |ls| ==> ls[i].variant in stock
    ensures Grouped(groups, SoldRows(ls, catalog, discounts), |ls|)
    ensures shelves == Depleted(stock, Items(SoldRows(ls, catalog, discounts)))
    ensures log == ledger + Movements(Items(SoldRows(ls, catalog, discounts)), -1, Sale, id)
  {
    hide Total, Grouped, Indexed;
    ghost var sold := SoldRows(ls, catalog, discounts);
    ghost var items := Items(sold);
    NoGroups(sold);
    groups, shelves, log := [], stock, ledger;
    var index: map<nat, nat> := map[];
    assert items[..0] == [];
    NothingDepleted(stock);
    for k := 0 to |ls|
      invariant Grouped(groups, sold, k) && Indexed(index, groups)
      invariant shelves == Depleted(stock, items[..k])
      invariant log == ledger + Movements(items[..k], -1, Sale, id)
    {
      var row, line := catalog[ls[k].variant], ls[k];
      groups, index := AddRow(groups, index, sold, k, row.seller, line.variant, row.price, line.quantity, discounts[k], row.title);
      assert items[..k + 1] == items[..k] + [items[k]];
      DepletedStep(stock, items[..k], items[k]);
      shelves := shelves[line.variant := shelves[line.variant] - line.quantity];
      log := log + [Movement(line.variant, -line.quantity, Sale, Some(id))];
      assert Movements(items[..k + 1], -1, Sale, id) == Movements(items[..k], -1, Sale, id) + [Movement(line.variant, -line.quantity, Sale, Some(id))];
    }
    assert items[..|ls|] == items;
  }

  // ---- Commission ---------------------------------------------------------------------------

  predicate OnlyCommission(cs: seq<Child>, cs': seq<Child>)
  {
    |cs'| == |cs| && forall i :: 0 <= i < |cs| ==> cs'[i] == cs[i].(commission := cs'[i].commission)
  }

  method Commissions(groups: seq<Child>, shops: map<nat, Shop>) returns (cs: seq<Child>)
    requires forall i :: 0 <= i < |groups| ==> 0 <= groups[i].total && groups[i].seller in shops
    ensures OnlyCommission(groups, cs) && Commissioned(cs, shops)
  {
    cs := groups;
    for k := 0 to |groups|
      invariant |cs| == |groups| && cs[k..] == groups[k..]
      invariant OnlyCommission(groups[..k], cs[..k]) && Commissioned(cs[..k], shops)
    {
      var group := cs[k];
      assert group == groups[k..][0];
      var rate := shops[group.seller].rate as int64;
      CommissionExact(group.total as int, shops[group.seller].rate);
      ghost var before := cs;
      cs := cs[k := group.(commission := group.total / 10_000 * rate + group.total % 10_000 * rate / 10_000)];
      assert cs[..k + 1] == before[..k] + [cs[k]] && groups[..k + 1] == groups[..k] + [group];
    }
    assert cs[..|groups|] == cs && groups[..|groups|] == groups;
  }

  lemma CommissionKeepsGroups(cs: seq<Child>, cs': seq<Child>, sold: seq<Sold>)
    requires Grouped(cs, sold, |sold|) && OnlyCommission(cs, cs')
    ensures Grouped(cs', sold, |sold|)
  {
    hide Total;
    forall i | 0 <= i < |cs'|
      ensures GroupOf(cs'[i], sold, |sold|)
    {
      assert GroupOf(cs[i], sold, |sold|);
    }
    forall j | 0 <= j < |sold|
      ensures HasSeller(cs', sold[j].seller)
    {
      var i := SellerIndex(cs, sold[j].seller);
      assert cs'[i].seller == sold[j].seller;
    }
  }
}
