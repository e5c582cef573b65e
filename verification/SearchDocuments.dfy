/**
 * The catalogue tables behind product search, the document each product should have in the
 * index, and the transactions that change the tables together with the event each one queues.
 */
module SearchDocuments {
  import opened Common

  datatype ProductStatus = Draft | Published | Archived
  datatype SellerStatus = Awaiting | Approved | Rejected | Suspended

  datatype Product = Product(seller: nat, name: string, description: string, status: ProductStatus,
                             created: int, categories: set<nat>)
  datatype Seller = Seller(name: string, status: SellerStatus)
  datatype Variant = Variant(product: nat, sku: string, name: string, price: int64)
  datatype Review = Review(product: nat, rating: nat, hidden: bool)

  datatype Tables = Tables(products: map<nat, Product>, sellers: map<nat, Seller>, variants: map<nat, Variant>,
                           reviews: map<nat, Review>, categories: map<nat, string>)

  datatype Line = Line(sku: string, name: string, price: int64)
  // Sales is not part of this model: deliveries by internal drivers queue no event for it.
  datatype Document = Document(seller: nat, sellerName: string, name: string, description: string, created: int,
                               suggest: seq<string>, variants: seq<Line>, skus: seq<string>, minPrice: Option<int64>,
                               categoryIds: seq<nat>, categories: seq<string>, rating: real, reviewCount: nat)

  datatype Change =
    | ProductChanged(product: nat)
    | VariantChanged(variant: nat)
    | ReviewChanged(product: nat)
    | SellerChanged(seller: nat)
    | ItemsDelivered(order: nat, variants: seq<nat>)

  // ---- The document -------------------------------------------------------------------------

  predicate IsLeast(m: nat, ids: set<nat>)
  {
    m in ids && forall x :: x in ids ==> m <= x
  }

  lemma {:induction false} LeastExists(ids: set<nat>)
    requires ids != {}
    ensures exists m :: IsLeast(m, ids)
  {
    var some :| some in ids;
    var rest := ids - {some};
    assert forall x :: x in ids ==> x == some || x in rest;
    if rest == {} {
      assert IsLeast(some, ids);
    } else {
      LeastExists(rest);
      var other :| IsLeast(other, rest);
      assert IsLeast(if some < other then some else other, ids);
    }
  }

  function Least(ids: set<nat>): (m: nat)
    requires ids != {}
    ensures IsLeast(m, ids)
  {
    LeastExists(ids);
    var m :| IsLeast(m, ids);
    m
  }

  function Ordered(ids: set<nat>): (s: seq<nat>)
    ensures forall id :: id in s <==> id in ids
    ensures forall i, j :: 0 <= i < j < |s| ==> s[i] < s[j]
  {
    if ids == {} then []
    else
      var least := Least(ids);
      [least] + Ordered(ids - {least})
  }

  function VariantIds(db: Tables, p: nat): set<nat>
  {
    set v | v in db.variants && db.variants[v].product == p
  }

  function VariantsOf(db: Tables, p: nat): (vs: seq<Variant>)
  {
    var ids := Ordered(VariantIds(db, p));
    seq(|ids|, i requires 0 <= i < |ids| => assert ids[i] in ids; db.variants[ids[i]])
  }

  function ReviewIds(db: Tables, p: nat): set<nat>
  {
    set r | r in db.reviews && db.reviews[r].product == p && !db.reviews[r].hidden
  }

  function RatingsOf(db: Tables, p: nat): seq<int>
  {
    var ids := Ordered(ReviewIds(db, p));
    seq(|ids|, i requires 0 <= i < |ids| => assert ids[i] in ids; db.reviews[ids[i]].rating)
  }

  function Average(xs: seq<int>): real
  {
    if xs == [] then 0.0 else Sum(xs) as real / |xs| as real
  }

  // The least price on offer, if there is any.
  predicate IsLeastPrice(m: Option<int64>, vs: seq<Variant>)
  {
    && (m == None <==> vs == [])
    && (m.Some? ==>
          && (exists i :: 0 <= i < |vs| && vs[i].price == m.value)
          && (forall i :: 0 <= i < |vs| ==> m.value <= vs[i].price))
  }

  function LeastPrice(vs: seq<Variant>): (m: Option<int64>)
    ensures IsLeastPrice(m, vs)
  {
    if vs == [] then None
    else
      var init, last := vs[..|vs| - 1], vs[|vs| - 1].price;
      var m := LeastPrice(init);
      if m == None || last < m.value then
        assert vs[|vs| - 1].price == last;
        Some(last)
      else
        assert exists i :: 0 <= i < |init| && init[i].price == m.value && vs[i] == init[i];
        m
  }

  // Only published products of approved sellers are searchable.
  predicate Visible(db: Tables, p: nat)
  {
    && p in db.products && db.products[p].status == Published
    && Trading(db, db.products[p].seller)
  }

  function NameOf(db: Tables, c: nat): string
  {
    if c in db.categories then db.categories[c] else ""
  }

  function Names(db: Tables, ids: seq<nat>): seq<string>
  {
    seq(|ids|, i requires 0 <= i < |ids| => NameOf(db, ids[i]))
  }

  function Lines(vs: seq<Variant>): seq<Line>
  {
    seq(|vs|, i requires 0 <= i < |vs| => Line(vs[i].sku, vs[i].name, vs[i].price))
  }

  function Skus(vs: seq<Variant>): seq<string>
  {
    seq(|vs|, i requires 0 <= i < |vs| => vs[i].sku)
  }

  function Assembled(row: Product, shop: string, vs: seq<Variant>, ids: seq<nat>, names: seq<string>, ratings: seq<int>): Document
  {
    Document(row.seller, shop, row.name, row.description, row.created, [row.name],
             Lines(vs), Skus(vs), LeastPrice(vs), ids, names, Average(ratings), |ratings|)
  }

  // The document a product should have.
  function Doc(db: Tables, p: nat): Option<Document>
  {
    if !Visible(db, p) then None
    else
      var row, ids := db.products[p], Ordered(db.products[p].categories);
      Some(Assembled(row, db.sellers[row.seller].name, VariantsOf(db, p), ids, Names(db, ids), RatingsOf(db, p)))
  }

  // Builds the document from what the queries returned, variant by variant.
  method Assemble(row: Product, shop: string, variants: seq<Variant>, categoryIds: seq<nat>, names: seq<string>, ratings: seq<int>)
    returns (doc: Document)
    ensures doc == Assembled(row, shop, variants, categoryIds, names, ratings)
  {
    hide IsLeastPrice;
    var lines: seq<Line>, skus: seq<string>, minPrice: Option<int64> := [], [], None;
    for i := 0 to |variants|
      invariant lines == Lines(variants[..i]) && skus == Skus(variants[..i])
      invariant minPrice == LeastPrice(variants[..i])
    {
      var v := variants[i];
      lines, skus := lines + [Line(v.sku, v.name, v.price)], skus + [v.sku];
      assert variants[..i + 1][..i] == variants[..i];
      if minPrice == None || v.price < minPrice.value {
        minPrice := Some(v.price);
      }
    }
    assert variants[..|variants|] == variants;
    doc := Document(row.seller, shop, row.name, row.description, row.created, [row.name],
                    lines, skus, minPrice, categoryIds, names, Average(ratings), |ratings|);
  }

  // ---- Catalogue transactions ---------------------------------------------------------------

  // Nothing is ever deleted; a product keeps its seller and a variant its product.
  datatype Tx =
    | CreateProduct(id: nat, product: Product)
    | UpdateProduct(id: nat, name: string, description: string, status: ProductStatus, categories: Option<set<nat>>)
    | AddVariant(id: nat, variant: Variant)
    | UpdateVariant(id: nat, sku: string, name: string, price: int64)
    | MoveStock(id: nat)
    | CreateReview(id: nat, review: Review)
    | HideReview(id: nat)
    | RegisterSeller(id: nat, name: string)
    | DecideSeller(id: nat, sellerStatus: SellerStatus)
    | RenameSeller(id: nat, name: string)
    | CreateCategory(id: nat, name: string)
    | Deliver(order: nat, variants: seq<nat>)

  predicate Permitted(db: Tables, tx: Tx)
  {
    match tx
    case CreateProduct(p, row) => p != 0 && p !in db.products && row.categories <= db.categories.Keys
    case UpdateProduct(p, _, _, _, cs) => p in db.products && (cs.Some? ==> cs.value <= db.categories.Keys)
    case AddVariant(v, row) => v !in db.variants && row.product in db.products
    case UpdateVariant(v, _, _, _) => v in db.variants
    case MoveStock(v) => v in db.variants
    case CreateReview(r, row) => r !in db.reviews && row.product in db.products && !row.hidden && 1 <= row.rating <= 5
    case HideReview(r) => r in db.reviews
    case RegisterSeller(s, _) => s !in db.sellers
    case DecideSeller(_, status) => status != Awaiting
    case RenameSeller(s, _) => s in db.sellers
    case CreateCategory(c, _) => c !in db.categories
    case Deliver(_, _) => true
  }

  function Committed(db: Tables, tx: Tx): Tables
    requires Permitted(db, tx)
  {
    match tx
    case CreateProduct(p, row) => db.(products := db.products[p := row])
    case UpdateProduct(p, name, description, status, cs) =>
      var row := db.products[p].(name := name, description := description, status := status);
      db.(products := db.products[p := if cs.Some? then row.(categories := cs.value) else row])
    case AddVariant(v, row) => db.(variants := db.variants[v := row])
    case UpdateVariant(v, sku, name, price) =>
      db.(variants := db.variants[v := Variant(db.variants[v].product, sku, name, price)])
    case CreateReview(r, row) => db.(reviews := db.reviews[r := row])
    case HideReview(r) => db.(reviews := db.reviews[r := db.reviews[r].(hidden := true)])
    case RegisterSeller(s, name) => db.(sellers := db.sellers[s := Seller(name, Awaiting)])
    case DecideSeller(s, status) =>
      if s in db.sellers then db.(sellers := db.sellers[s := db.sellers[s].(status := status)]) else db
    case RenameSeller(s, name) => db.(sellers := db.sellers[s := db.sellers[s].(name := name)])
    case CreateCategory(c, name) => db.(categories := db.categories[c := name])
    case _ => db
  }

  function Queued(db: Tables, tx: Tx): Option<Change>
    requires Permitted(db, tx)
  {
    match tx
    case CreateProduct(p, _) => Some(ProductChanged(p))
    case UpdateProduct(p, _, _, _, _) => Some(ProductChanged(p))
    case AddVariant(_, row) => Some(ProductChanged(row.product))
    case UpdateVariant(v, _, _, _) => Some(ProductChanged(db.variants[v].product))
    case MoveStock(v) => Some(VariantChanged(v))
    case CreateReview(_, row) => Some(ReviewChanged(row.product))
    case HideReview(r) => Some(ReviewChanged(db.reviews[r].product))
    case DecideSeller(s, _) => Some(SellerChanged(s))
    case RenameSeller(s, _) => Some(SellerChanged(s))
    case Deliver(o, vs) => Some(ItemsDelivered(o, vs))
    case _ => None
  }

  predicate Affects(db: Tables, e: Change, p: nat)
  {
    match e
    case ProductChanged(x) => p == x
    case ReviewChanged(x) => p == x
    case VariantChanged(v) => v in db.variants && db.variants[v].product == p
    case SellerChanged(s) => p in db.products && db.products[p].seller == s
    case ItemsDelivered(_, vs) => exists i :: 0 <= i < |vs| && vs[i] in db.variants && db.variants[vs[i]].product == p
  }

  // The answer of the query for the products an event concerns.
  function AffectedSet(db: Tables, e: Change): (ps: set<nat>)
    ensures forall p: nat :: p in ps <==> Affects(db, e, p)
  {
    match e
    case ProductChanged(x) => {x}
    case ReviewChanged(x) => {x}
    case VariantChanged(v) => if v in db.variants then {db.variants[v].product} else {}
    case SellerChanged(s) => set p | p in db.products && db.products[p].seller == s
    case ItemsDelivered(_, vs) => set i | 0 <= i < |vs| && vs[i] in db.variants :: db.variants[vs[i]].product
  }

  // Categories named by products exist, and so do the products of variants and reviews.
  predicate TablesOk(db: Tables)
  {
    && (forall p :: p in db.products ==> db.products[p].categories <= db.categories.Keys)
    && (forall v :: v in db.variants ==> db.variants[v].product in db.products)
    && (forall r :: r in db.reviews ==> db.reviews[r].product in db.products)
  }

  predicate Trading(db: Tables, s: nat)
  {
    s in db.sellers && db.sellers[s].status == Approved
  }

  predicate SameShop(db: Tables, db': Tables, s: nat)
  {
    (Trading(db, s) <==> Trading(db', s)) && (Trading(db, s) ==> db'.sellers[s] == db.sellers[s])
  }

  // All the document of p is made from.
  predicate SameSource(db: Tables, db': Tables, p: nat)
  {
    && (p in db.products <==> p in db'.products)
    && (p in db.products ==>
          && db'.products[p] == db.products[p]
          && SameShop(db, db', db.products[p].seller)
          && (forall c :: c in db.products[p].categories ==> NameOf(db', c) == NameOf(db, c)))
    && VariantIds(db', p) == VariantIds(db, p)
    && (forall v :: v in VariantIds(db, p) ==> db'.variants[v] == db.variants[v])
    && ReviewIds(db', p) == ReviewIds(db, p)
    && (forall r :: r in ReviewIds(db, p) ==> db'.reviews[r] == db.reviews[r])
  }

  // Every query for the rows of p answers alike in both.
  lemma SameSourceSameRows(db: Tables, db': Tables, p: nat)
    requires SameSource(db, db', p)
    ensures VariantsOf(db', p) == VariantsOf(db, p) && RatingsOf(db', p) == RatingsOf(db, p)
    ensures p in db.products ==>
              Names(db', Ordered(db.products[p].categories)) == Names(db, Ordered(db.products[p].categories))
  {
    if p in db.products {
      var ids := Ordered(db.products[p].categories);
      assert forall i :: 0 <= i < |ids| ==> ids[i] in db.products[p].categories;
    }
  }

  lemma SameSourceSameDoc(db: Tables, db': Tables, p: nat)
    requires SameSource(db, db', p)
    ensures Doc(db', p) == Doc(db, p)
  {
    hide VariantsOf, RatingsOf, Names, Ordered, Assembled;
    SameSourceSameRows(db, db', p);
  }

  lemma SameSourceOn(a: Tables, b: Tables, c: Tables, p: nat)
    requires SameSource(a, b, p) && SameSource(b, c, p)
    ensures SameSource(a, c, p)
  {
  }

  // A transaction leaves every document alone but those its event names.
  lemma EventNamesWhatChanged(db: Tables, tx: Tx, p: nat)
    requires TablesOk(db) && Permitted(db, tx)
    requires Queued(db, tx).Some? ==> !Affects(Committed(db, tx), Queued(db, tx).value, p)
    ensures Doc(Committed(db, tx), p) == Doc(db, p)
  {
    hide Doc;
    UnnamedSource(db, tx, p);
    SameSourceSameDoc(db, Committed(db, tx), p);
  }

  lemma UnnamedSource(db: Tables, tx: Tx, p: nat)
    requires TablesOk(db) && Permitted(db, tx)
    requires Queued(db, tx).Some? ==> !Affects(Committed(db, tx), Queued(db, tx).value, p)
    ensures SameSource(db, Committed(db, tx), p)
  {
    hide Permitted, TablesOk, Queued, Affects, Committed, VariantIds, ReviewIds;
    UnnamedProduct(db, tx, p);
    UnnamedVariants(db, tx, p);
    UnnamedReviews(db, tx, p);
  }

  lemma UnnamedProduct(db: Tables, tx: Tx, p: nat)
    requires TablesOk(db) && Permitted(db, tx)
    requires Queued(db, tx).Some? ==> !Affects(Committed(db, tx), Queued(db, tx).value, p)
    ensures var db' := Committed(db, tx);
      && (p in db.products <==> p in db'.products)
      && (p in db.products ==>
            && db'.products[p] == db.products[p]
            && SameShop(db, db', db.products[p].seller)
            && (forall c :: c in db.products[p].categories ==> NameOf(db', c) == NameOf(db, c)))
  {
  }

  lemma UnnamedVariants(db: Tables, tx: Tx, p: nat)
    requires TablesOk(db) && Permitted(db, tx)
    requires Queued(db, tx).Some? ==> !Affects(Committed(db, tx), Queued(db, tx).value, p)
    ensures var db' := Committed(db, tx);
      VariantIds(db', p) == VariantIds(db, p) && forall v :: v in VariantIds(db, p) ==> db'.variants[v] == db.variants[v]
  {
    hide TablesOk;
  }

  lemma UnnamedReviews(db: Tables, tx: Tx, p: nat)
    requires TablesOk(db) && Permitted(db, tx)
    requires Queued(db, tx).Some? ==> !Affects(Committed(db, tx), Queued(db, tx).value, p)
    ensures var db' := Committed(db, tx);
      ReviewIds(db', p) == ReviewIds(db, p) && forall r :: r in ReviewIds(db, p) ==> db'.reviews[r] == db.reviews[r]
  {
    hide TablesOk;
  }

  // What an event is about only grows.
  lemma AffectsGrows(db: Tables, tx: Tx, e: Change, p: nat)
    requires Permitted(db, tx) && Affects(db, e, p)
    ensures Affects(Committed(db, tx), e, p)
  {
    var db' := Committed(db, tx);
    assert forall v :: v in db.variants ==> v in db'.variants && db'.variants[v].product == db.variants[v].product;
  }

  lemma TablesStayOk(db: Tables, tx: Tx)
    requires TablesOk(db) && Permitted(db, tx)
    ensures TablesOk(Committed(db, tx))
  {
  }
}
