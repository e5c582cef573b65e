/**
 * Catalogue browsing without the search engine: candidates are scanned in batches of 100, sellers
 * are looked up once each, and the answer is one exact page of the approved products.
 */
module Browse {
  import opened Common

  const SCAN := 100

  datatype Product = Product(id: nat, seller: nat)

  // The seller service answers a status for the sellers it knows; others read as empty.
  type Directory = map<nat, string>

  function StatusOf(directory: Directory, seller: nat): string
  {
    if seller in directory then directory[seller] else ""
  }

  predicate Approved(directory: Directory, p: Product)
  {
    StatusOf(directory, p.seller) == "approved"
  }

  function Kept(directory: Directory, ps: seq<Product>): (ks: seq<Product>)
    ensures |ks| <= |ps|
    ensures forall k :: k in ks ==> k in ps && Approved(directory, k)
  {
    if ps == [] then []
    else
      var ks := Kept(directory, ps[..|ps| - 1]);
      if Approved(directory, ps[|ps| - 1]) then ks + [ps[|ps| - 1]] else ks
  }

  function Slice(ps: seq<Product>, from: nat, limit: nat): seq<Product>
  {
    if from >= |ps| then [] else if from + limit <= |ps| then ps[from..from + limit] else ps[from..]
  }

  // The specification: filter, then slice.
  function PageOf(directory: Directory, ps: seq<Product>, page: nat, limit: nat): seq<Product>
    requires 1 <= page
  {
    Slice(Kept(directory, ps), (page - 1) * limit, limit)
  }

  lemma {:induction false} KeptConcat(directory: Directory, ps: seq<Product>, qs: seq<Product>)
    ensures Kept(directory, ps + qs) == Kept(directory, ps) + Kept(directory, qs)
  {
    if qs == [] {
      assert ps + qs == ps;
    } else {
      KeptConcat(directory, ps, qs[..|qs| - 1]);
      assert (ps + qs)[..|ps + qs| - 1] == ps + qs[..|qs| - 1];
    }
  }

  lemma KeptStep(directory: Directory, ps: seq<Product>, i: nat)
    requires i < |ps|
    ensures Kept(directory, ps[..i + 1]) == if Approved(directory, ps[i]) then Kept(directory, ps[..i]) + [ps[i]] else Kept(directory, ps[..i])
  {
    assert ps[..i + 1][..i] == ps[..i];
  }

  lemma KeptPrefix(directory: Directory, ps: seq<Product>, i: nat)
    requires i <= |ps|
    ensures Kept(directory, ps[..i]) <= Kept(directory, ps)
  {
    KeptConcat(directory, ps[..i], ps[i..]);
    assert ps == ps[..i] + ps[i..];
  }

  // Once a page is full, what follows cannot change it.
  lemma FullPageStays(ks: seq<Product>, all: seq<Product>, from: nat, limit: nat)
    requires ks <= all && |ks| == from + limit
    ensures Slice(all, from, limit) == Slice(ks, from, limit)
  {
  }

  // ---- The scan -----------------------------------------------------------------------------

  predicate Distinct(ids: seq<nat>)
  {
    forall i, j :: 0 <= i < j < |ids| ==> ids[i] != ids[j]
  }

  // What the seller service accepts in one call.
  predicate BatchOk(ids: seq<nat>)
  {
    1 <= |ids| <= 100 && Distinct(ids)
  }

  // All lookups of one scan: each within the limit, and no seller asked for twice.
  predicate LookupsOk(batches: seq<seq<nat>>)
  {
    && (forall b :: 0 <= b < |batches| ==> BatchOk(batches[b]))
    && (forall a, b :: 0 <= a < b < |batches| ==> forall id :: id in batches[a] ==> id !in batches[b])
  }

  // What the scan remembers agrees with the directory.
  predicate Known(statuses: map<nat, string>, directory: Directory)
  {
    forall s :: s in statuses ==> statuses[s] == StatusOf(directory, s)
  }

  predicate AskedFor(statuses: map<nat, string>, batches: seq<seq<nat>>)
  {
    && (forall b, id :: 0 <= b < |batches| && id in batches[b] ==> id in statuses)
  }

  // The sellers of a batch of candidates that are not known yet, each once.
  method Unknown(candidates: seq<Product>, statuses: map<nat, string>) returns (ids: seq<nat>)
    requires |candidates| <= SCAN
    ensures Distinct(ids) && |ids| <= |candidates|
    ensures forall id :: id in ids ==> id !in statuses
    ensures forall i :: 0 <= i < |candidates| ==> candidates[i].seller in statuses || candidates[i].seller in ids
  {
    ids := [];
    var queued: set<nat> := {};
    for i := 0 to |candidates|
      invariant Distinct(ids) && |ids| <= i
      invariant forall id :: id in ids <==> id in queued
      invariant forall id :: id in ids ==> id !in statuses
      invariant forall j :: 0 <= j < i ==> candidates[j].seller in statuses || candidates[j].seller in ids
    {
      var seller := candidates[i].seller;
      if seller !in statuses && seller !in queued {
        ids := ids + [seller];
        queued := queued + {seller};
      }
    }
  }

  method Learn(ids: seq<nat>, statuses: map<nat, string>, directory: Directory, ghost batches: seq<seq<nat>>) returns (more: map<nat, string>)
    requires BatchOk(ids) && Known(statuses, directory)
    requires batches != [] && batches[|batches| - 1] == ids && AskedFor(statuses, batches[..|batches| - 1])
    ensures Known(more, directory) && AskedFor(more, batches)
    ensures forall s :: s in statuses || s in ids ==> s in more
  {
    more := statuses;
    for k := 0 to |ids|
      invariant Known(more, directory) && (forall s :: s in statuses ==> s in more) && forall i :: 0 <= i < k ==> ids[i] in more
    {
      more := more[ids[k] := StatusOf(directory, ids[k])];
    }
    forall b, id | 0 <= b < |batches| && id in batches[b]
      ensures id in more
    {
      if b < |batches| - 1 {
        assert batches[..|batches| - 1][b] == batches[b];
      }
    }
  }

  // outages says which of the directory calls fail, by their number.
  method Scan(products: seq<Product>, directory: Directory, outages: set<nat>, page: nat, limit: nat)
    returns (r: Result<seq<Product>>, ghost batches: seq<seq<nat>>)
    requires 1 <= page <= 100_000 && 1 <= limit <= 100
    ensures r.Ok? ==> r.value == PageOf(directory, products, page, limit)
    ensures r.Err? ==> r.error == Unavailable && |batches| - 1 in outages
    ensures LookupsOk(batches)
  {
    hide Kept, LookupsOk, AskedFor, Known, Progress, BatchOk;
    var skip := (page - 1) * limit;
    var result: seq<Product> := [];
    var approvedSeen := 0;
    var statuses: map<nat, string> := map[];
    var offset := 0;
    var calls := 0;
    batches := [];
    Beginning(products, directory, skip, limit);
    while true
      invariant 0 <= offset <= |products| && Known(statuses, directory)
      invariant LookupsOk(batches) && AskedFor(statuses, batches) && calls == |batches|
      invariant Progress(products, directory, skip, limit, offset, approvedSeen, result)
      decreases |products| - offset
    {
      var candidates := if offset + 100 <= |products| then products[offset..offset + 100] else products[offset..];
      if |candidates| == 0 {
        break;
      }
      var ids := Unknown(candidates, statuses);
      if |ids| > 0 {
        NewLookup(batches, ids, statuses);
        batches := batches + [ids];
        if calls in outages {
          return Err(Unavailable), batches;
        }
        calls := calls + 1;
        statuses := Learn(ids, statuses, directory, batches);
      }
      assert forall i :: offset <= i < offset + |candidates| ==> products[i] == candidates[i - offset];
      var full;
      full, approvedSeen, result := Collect(products, directory, statuses, offset, |candidates|, skip, limit, approvedSeen, result);
      if full {
        return Ok(result), batches;
      }
      offset := offset + |candidates|;
      if |candidates| < 100 {
        break;
      }
    }
    ProgressEnds(products, directory, skip, limit, approvedSeen, result);
    return Ok(result), batches;
  }

  // Where the scan stands after the first n candidates.
  predicate Progress(products: seq<Product>, directory: Directory, skip: nat, limit: nat, n: nat, approvedSeen: nat, result: seq<Product>)
    requires n <= |products|
  {
    var ks := Kept(directory, products[..n]);
    approvedSeen == |ks| && result == Slice(ks, skip, limit) && |result| < limit
  }

  lemma Beginning(products: seq<Product>, directory: Directory, skip: nat, limit: nat)
    requires 1 <= limit
    ensures Progress(products, directory, skip, limit, 0, 0, [])
    ensures LookupsOk([]) && AskedFor(map[], []) && Known(map[], directory)
  {
    assert products[..0] == [];
  }

  lemma ProgressEnds(products: seq<Product>, directory: Directory, skip: nat, limit: nat, approvedSeen: nat, result: seq<Product>)
    requires Progress(products, directory, skip, limit, |products|, approvedSeen, result)
    ensures result == Slice(Kept(directory, products), skip, limit)
  {
    assert products[..|products|] == products;
  }

  lemma NewLookup(batches: seq<seq<nat>>, ids: seq<nat>, statuses: map<nat, string>)
    requires LookupsOk(batches) && AskedFor(statuses, batches)
    requires 1 <= |ids| <= 100 && Distinct(ids) && forall id :: id in ids ==> id !in statuses
    ensures BatchOk(ids) && LookupsOk(batches + [ids])
  {
    var all := batches + [ids];
    forall a, b | 0 <= a < b < |all|
      ensures forall id :: id in all[a] ==> id !in all[b]
    {
      assert a < |batches| ==> all[a] == batches[a];
    }
  }

  // Counts approved candidates and keeps those of the page; stops when the page is full.
  method Collect(products: seq<Product>, ghost directory: Directory, statuses: map<nat, string>, offset: nat, n: nat,
                 skip: nat, limit: nat, seen: nat, before: seq<Product>)
    returns (full: bool, approvedSeen: nat, result: seq<Product>)
    requires 1 <= limit && offset + n <= |products| && Known(statuses, directory)
    requires forall i :: offset <= i < offset + n ==> products[i].seller in statuses
    requires Progress(products, directory, skip, limit, offset, seen, before)
    ensures full ==> result == Slice(Kept(directory, products), skip, limit)
    ensures !full ==> Progress(products, directory, skip, limit, offset + n, approvedSeen, result)
  {
    hide Kept, Progress, Slice;
    approvedSeen, result := seen, before;
    for i := offset to offset + n
      invariant Progress(products, directory, skip, limit, i, approvedSeen, result)
    {
      OneCandidate(products, directory, skip, limit, i, approvedSeen, result);
      if statuses[products[i].seller] != "approved" {
        continue;
      }
      approvedSeen := approvedSeen + 1;
      if approvedSeen > skip {
        result := result + [products[i]];
        if |result| == limit {
          return true, approvedSeen, result;
        }
      }
    }
    full := false;
  }

  lemma OneCandidate(products: seq<Product>, directory: Directory, skip: nat, limit: nat, i: nat, seen: nat, result: seq<Product>)
    requires i < |products| && Progress(products, directory, skip, limit, i, seen, result)
    ensures !Approved(directory, products[i]) ==> Progress(products, directory, skip, limit, i + 1, seen, result)
    ensures Approved(directory, products[i]) && seen + 1 <= skip ==> Progress(products, directory, skip, limit, i + 1, seen + 1, result)
    ensures Approved(directory, products[i]) && seen + 1 > skip && |result| + 1 < limit ==>
              Progress(products, directory, skip, limit, i + 1, seen + 1, result + [products[i]])
    ensures Approved(directory, products[i]) && seen + 1 > skip && |result| + 1 == limit ==>
              result + [products[i]] == Slice(Kept(directory, products), skip, limit)
    ensures |result| < limit
  {
    hide Kept;
    var ks, all := Kept(directory, products[..i]), Kept(directory, products);
    KeptStep(directory, products, i);
    if Approved(directory, products[i]) && seen + 1 > skip && |result| + 1 == limit {
      KeptPrefix(directory, products, i + 1);
      FullPageStays(ks + [products[i]], all, skip, limit);
    }
  }

  // ---- The query ----------------------------------------------------------------------------

  // A catalogue row with the prices of its variants, the units delivered and its average rating.
  datatype Row = Row(name: string, published: bool, seller: nat, categories: set<nat>, prices: seq<int64>,
                     created: int, sold: int, rating: real)
  type Table = map<nat, Row>

  datatype Filter = Filter(query: string, seller: Option<nat>, category: Option<nat>,
                           minPrice: Option<int64>, maxPrice: Option<int64>, sort: string)

  predicate PriceOk(price: Option<int64>)
  {
    price.Some? ==> 0 <= price.value <= 1_000_000_000_000
  }

  predicate Valid(f: Filter)
  {
    && Bytes(f.query) <= 200 && f.seller != Some(0) && f.category != Some(0)
    && PriceOk(f.minPrice) && PriceOk(f.maxPrice)
    && (f.minPrice.Some? && f.maxPrice.Some? ==> f.minPrice.value <= f.maxPrice.value)
    && f.sort in {"", "newest", "price_asc", "price_desc", "best_selling", "rating", "relevance"}
    && (f.sort == "relevance" ==> !Blank(f.query))
  }

  // The database's pattern match without regard to case.
  predicate Like(p: string, s: string)
    decreases |p| + |s|
  {
    if p == "" then s == ""
    else if p[0] == '%' then Like(p[1..], s) || (s != "" && Like(p, s[1..]))
    else if s == "" then false
    else if p[0] == '_' then Like(p[1..], s[1..])
    else if p[0] == '\\' && |p| > 1 then Lower(p[1]) == Lower(s[0]) && Like(p[2..], s[1..])
    else Lower(p[0]) == Lower(s[0]) && Like(p[1..], s[1..])
  }

  function Escape(q: string): string
  {
    if q == "" then ""
    else (if q[0] in {'\\', '%', '_'} then ['\\', q[0]] else [q[0]]) + Escape(q[1..])
  }

  predicate ContainsAt(s: string, q: string, k: nat)
  {
    k + |q| <= |s| && EqualFold(s[k..k + |q|], q)
  }

  lemma {:induction false} AnythingLike(s: string)
    ensures Like("%", s)
  {
    if s != "" {
      AnythingLike(s[1..]);
    }
  }

  lemma {:induction false} EscapedLike(q: string, s: string)
    ensures Like(Escape(q) + "%", s) <==> ContainsAt(s, q, 0)
  {
    if q == "" {
      assert Escape(q) + "%" == "%";
      AnythingLike(s);
    } else {
      var rest := Escape(q[1..]) + "%";
      var p := Escape(q) + "%";
      if q[0] in {'\\', '%', '_'} {
        assert p[0] == '\\' && p[1] == q[0] && p[2..] == rest;
      } else {
        assert p[0] == q[0] && p[1..] == rest;
      }
      if s != "" {
        EscapedLike(q[1..], s[1..]);
        if |q| <= |s| {
          assert s[1..][..|q| - 1] == s[..|q|][1..];
        }
      }
    }
  }

  lemma {:induction false} AfterSomething(p: string, s: string)
    ensures Like("%" + p, s) <==> exists k: nat :: k <= |s| && Like(p, s[k..])
  {
    assert ("%" + p)[1..] == p;
    assert s[0..] == s;
    if s != "" {
      AfterSomething(p, s[1..]);
      forall k: nat | k <= |s| && Like(p, s[k..])
        ensures Like("%" + p, s)
      {
        if k > 0 {
          assert s[1..][k - 1..] == s[k..];
        }
      }
      if Like("%" + p, s) && !Like(p, s) {
        var k: nat :| k <= |s[1..]| && Like(p, s[1..][k..]);
        assert s[1..][k..] == s[k + 1..];
      }
    }
  }

  // What is searched for is taken literally: escaping leaves no character with a meaning of its own.
  lemma SearchIsLiteral(q: string, s: string)
    ensures Like("%" + Escape(q) + "%", s) <==> exists k: nat :: ContainsAt(s, q, k)
  {
    hide Like;
    var p := Escape(q) + "%";
    assert "%" + Escape(q) + "%" == "%" + p;
    AfterSomething(p, s);
    forall k: nat | k <= |s|
      ensures Like(p, s[k..]) <==> ContainsAt(s, q, k)
    {
      EscapedLike(q, s[k..]);
      if k + |q| <= |s| {
        assert s[k..][0..|q|] == s[k..k + |q|];
      }
    }
  }

  predicate Affordable(price: int64, f: Filter)
  {
    (f.minPrice.Some? ==> price >= f.minPrice.value) && (f.maxPrice.Some? ==> price <= f.maxPrice.value)
  }

  predicate Matches(r: Row, f: Filter)
  {
    && r.published
    && (f.query != "" ==> Like("%" + Escape(f.query) + "%", r.name))
    && (f.seller.Some? ==> r.seller == f.seller.value)
    && (f.category.Some? ==> f.category.value in r.categories)
    && (f.minPrice.Some? || f.maxPrice.Some? ==> exists i :: 0 <= i < |r.prices| && Affordable(r.prices[i], f))
  }

  function Cheapest(prices: seq<int64>): (m: int64)
    requires prices != []
    ensures m in prices && forall p :: p in prices ==> m <= p
  {
    if |prices| == 1 then prices[0]
    else
      var m := Cheapest(prices[1..]);
      assert prices == [prices[0]] + prices[1..];
      if prices[0] < m then prices[0] else m
  }

  // The column asked for puts x first. A product without variants comes last in both price orders.
  predicate Leads(sort: string, x: Row, y: Row)
  {
    if sort == "price_asc" then x.prices != [] && (y.prices == [] || Cheapest(x.prices) < Cheapest(y.prices))
    else if sort == "price_desc" then x.prices != [] && (y.prices == [] || Cheapest(x.prices) > Cheapest(y.prices))
    else if sort == "best_selling" then x.sold > y.sold
    else if sort == "rating" then x.rating > y.rating
    else false
  }

  // Ties go to the newer product and then to the lower identifier.
  predicate Precedes(t: Table, sort: string, a: nat, b: nat)
    requires a in t && b in t
  {
    || Leads(sort, t[a], t[b])
    || (!Leads(sort, t[b], t[a]) && (t[a].created > t[b].created || (t[a].created == t[b].created && a < b)))
  }

  // The answer of the query: every matching row once, in order.
  predicate Answers(t: Table, f: Filter, ps: seq<Product>)
  {
    && (forall i :: 0 <= i < |ps| ==> ps[i].id in t && ps[i].seller == t[ps[i].id].seller && Matches(t[ps[i].id], f))
    && (forall id :: id in t && Matches(t[id], f) ==> Product(id, t[id].seller) in ps)
    && (forall i, j :: 0 <= i < j < |ps| ==> Precedes(t, f.sort, ps[i].id, ps[j].id))
  }

  lemma NeverBoth(t: Table, sort: string, a: nat, b: nat)
    requires a in t && b in t && Precedes(t, sort, a, b)
    ensures !Precedes(t, sort, b, a)
  {
  }

  lemma OneOrOther(t: Table, sort: string, a: nat, b: nat)
    requires a in t && b in t && a != b
    ensures Precedes(t, sort, a, b) || Precedes(t, sort, b, a)
  {
  }

  lemma PrecedesOn(t: Table, sort: string, a: nat, b: nat, c: nat)
    requires a in t && b in t && c in t && Precedes(t, sort, a, b) && Precedes(t, sort, b, c)
    ensures Precedes(t, sort, a, c)
  {
  }

  lemma {:induction false} FirstOf(t: Table, sort: string, ids: set<nat>) returns (first: nat)
    requires ids != {} && ids <= t.Keys
    ensures first in ids && forall id :: id in ids && id != first ==> Precedes(t, sort, first, id)
  {
    hide Precedes;
    var some :| some in ids;
    var rest := ids - {some};
    assert forall id :: id in ids ==> id == some || id in rest;
    first := some;
    if rest != {} {
      var other := FirstOf(t, sort, rest);
      OneOrOther(t, sort, some, other);
      if Precedes(t, sort, other, some) {
        first := other;
      } else {
        forall id | id in rest && id != other
          ensures Precedes(t, sort, some, id)
        {
          PrecedesOn(t, sort, some, other, id);
        }
      }
    }
  }

  lemma {:induction false} Sorted(t: Table, sort: string, ids: set<nat>) returns (ps: seq<Product>)
    requires ids <= t.Keys
    ensures forall p :: p in ps <==> p.id in ids && p.seller == t[p.id].seller
    ensures forall p :: p in ps ==> p.id in t
    ensures forall i, j :: 0 <= i < j < |ps| ==> Precedes(t, sort, ps[i].id, ps[j].id)
  {
    hide Precedes;
    ps := [];
    if ids != {} {
      var first := FirstOf(t, sort, ids);
      var rest := Sorted(t, sort, ids - {first});
      ps := [Product(first, t[first].seller)] + rest;
      forall i, j | 0 <= i < j < |ps|
        ensures Precedes(t, sort, ps[i].id, ps[j].id)
      {
        assert rest[j - 1] in rest && ps[j] == rest[j - 1];
        if i > 0 {
          assert ps[i] == rest[i - 1];
        }
      }
    }
  }

  lemma SomeAnswer(t: Table, f: Filter) returns (ps: seq<Product>)
    ensures Answers(t, f, ps)
  {
    hide Precedes, Matches;
    ps := Sorted(t, f.sort, set id | id in t && Matches(t[id], f));
    assert forall i :: 0 <= i < |ps| ==> ps[i] in ps;
  }

  lemma {:induction false} SameOrder(t: Table, sort: string, ps: seq<Product>, qs: seq<Product>)
    requires forall p :: p in ps <==> p in qs
    requires forall p :: p in ps ==> p.id in t
    requires forall i, j :: 0 <= i < j < |ps| ==> Precedes(t, sort, ps[i].id, ps[j].id)
    requires forall i, j :: 0 <= i < j < |qs| ==> Precedes(t, sort, qs[i].id, qs[j].id)
    ensures ps == qs
  {
    hide Precedes;
    if ps == [] {
      if qs != [] {
        FirstIsIn(qs);
      }
    } else {
      SameFirst(t, sort, ps, qs);
      forall p
        ensures p in ps[1..] <==> p in qs[1..]
      {
        NotAgain(t, sort, ps, p);
        NotAgain(t, sort, qs, p);
      }
      SameOrder(t, sort, ps[1..], qs[1..]);
      assert ps == [ps[0]] + ps[1..] && qs == [qs[0]] + qs[1..];
    }
  }

  lemma FirstIsIn(qs: seq<Product>)
    requires qs != []
    ensures qs[0] in qs
  {
  }

  lemma SameFirst(t: Table, sort: string, ps: seq<Product>, qs: seq<Product>)
    requires ps != [] && (forall p :: p in ps <==> p in qs) && forall p :: p in ps ==> p.id in t
    requires forall i, j :: 0 <= i < j < |ps| ==> Precedes(t, sort, ps[i].id, ps[j].id)
    requires forall i, j :: 0 <= i < j < |qs| ==> Precedes(t, sort, qs[i].id, qs[j].id)
    ensures qs != [] && ps[0] == qs[0]
  {
    hide Precedes;
    assert ps[0] in qs;
    var i :| 0 <= i < |qs| && qs[i] == ps[0];
    assert qs[0] in ps;
    var j :| 0 <= j < |ps| && ps[j] == qs[0];
    if i > 0 && j > 0 {
      NeverBoth(t, sort, ps[0].id, qs[0].id);
    }
  }

  lemma NotAgain(t: Table, sort: string, ps: seq<Product>, p: Product)
    requires ps != [] && forall q :: q in ps ==> q.id in t
    requires forall i, j :: 0 <= i < j < |ps| ==> Precedes(t, sort, ps[i].id, ps[j].id)
    ensures p in ps[1..] <==> p in ps && p != ps[0]
  {
    hide Precedes;
    if p in ps[1..] {
      var i :| 0 <= i < |ps| - 1 && ps[1..][i] == p;
      assert Precedes(t, sort, ps[0].id, ps[i + 1].id);
      NeverBoth(t, sort, ps[0].id, p.id);
    }
  }

  // The order leaves nothing open: a query has exactly one answer, so its offsets mean the same
  // every time.
  lemma OneAnswer(t: Table, f: Filter)
    ensures exists ps :: Answers(t, f, ps) && forall qs :: Answers(t, f, qs) ==> qs == ps
  {
    hide Answers;
    var ps := SomeAnswer(t, f);
    forall qs | Answers(t, f, qs)
      ensures qs == ps
    {
      SameAnswer(t, f, ps, qs);
    }
  }

  lemma SameAnswer(t: Table, f: Filter, ps: seq<Product>, qs: seq<Product>)
    requires Answers(t, f, ps) && Answers(t, f, qs)
    ensures ps == qs
  {
    hide Precedes, Matches;
    SameRows(t, f, ps, qs);
    SameRows(t, f, qs, ps);
    SameOrder(t, f.sort, ps, qs);
  }

  lemma SameRows(t: Table, f: Filter, ps: seq<Product>, qs: seq<Product>)
    requires Answers(t, f, ps) && Answers(t, f, qs)
    ensures forall p :: p in ps ==> p.id in t && p in qs
  {
    hide Precedes, Matches;
    forall p | p in ps
      ensures p.id in t && p in qs
    {
      var i :| 0 <= i < |ps| && ps[i] == p;
      assert p == Product(p.id, t[p.id].seller);
    }
  }

  // ---- The whole search ---------------------------------------------------------------------

  lemma {:induction false} OneSeller(directory: Directory, ps: seq<Product>, seller: nat)
    requires forall i :: 0 <= i < |ps| ==> ps[i].seller == seller
    ensures Kept(directory, ps) == if StatusOf(directory, seller) == "approved" then ps else []
  {
    hide StatusOf;
    if ps != [] {
      var init, last := ps[..|ps| - 1], ps[|ps| - 1];
      OneSeller(directory, init, seller);
      assert ps == init + [last] && last.seller == seller;
    }
  }

  lemma NothingToSlice(from: nat, limit: nat)
    ensures Slice([], from, limit) == []
  {
  }

  // Validated, with or without a seller, a search answers one page of the approved matches.
  // products is what the query answers, row by row.
  method Search(ghost t: Table, f: Filter, products: seq<Product>, directory: Directory, outages: set<nat>, page: int, limit: int)
    returns (r: Result<seq<Product>>)
    requires Valid(f) ==> Answers(t, f, products)
    ensures !Valid(f) || page < 1 || page > 100_000 || limit < 1 || limit > 100 <==> r == Err(Invalid)
    ensures r.Ok? ==> r.value == PageOf(directory, products, page, limit)
    ensures r.Err? && r.error != Invalid ==> r.error == Unavailable && outages != {}
  {
    hide Kept, Slice, LookupsOk, Precedes;
    if !Valid(f) {
      return Err(Invalid);
    }
    if page < 1 || page > 100_000 || limit < 1 || limit > 100 {
      return Err(Invalid);
    }
    if f.seller.Some? {
      if 0 in outages {
        return Err(Unavailable);
      }
      var seller := f.seller.value;
      OneSeller(directory, products, seller);
      NothingToSlice((page - 1) * limit, limit);
      if seller !in directory {
        return Ok([]);
      }
      if directory[seller] != "approved" {
        return Ok([]);
      }
      return Ok(Slice(products, (page - 1) * limit, limit));
    }
    ghost var batches;
    r, batches := Scan(products, directory, outages, page, limit);
  }

  // ---- Pages --------------------------------------------------------------------------------

  function Pages(directory: Directory, ps: seq<Product>, n: nat, limit: nat): seq<Product>
  {
    if n == 0 then [] else Pages(directory, ps, n - 1, limit) + PageOf(directory, ps, n, limit)
  }

  lemma NextSlice(ks: seq<Product>, from: nat, to: nat, limit: nat)
    requires to == from + limit
    ensures (if from <= |ks| then ks[..from] else ks) + Slice(ks, from, limit) == if to <= |ks| then ks[..to] else ks
  {
  }

  // Consecutive pages put together are the filtered list, nothing twice and nothing left out.
  lemma {:induction false} PagesConcatenate(directory: Directory, ps: seq<Product>, n: nat, limit: nat)
    requires 1 <= limit
    ensures Pages(directory, ps, n, limit) == if n * limit <= |Kept(directory, ps)| then Kept(directory, ps)[..n * limit] else Kept(directory, ps)
  {
    hide Kept;
    if n > 0 {
      PagesConcatenate(directory, ps, n - 1, limit);
      LaterPage(n, n + 1, limit);
      NextSlice(Kept(directory, ps), (n - 1) * limit, n * limit, limit);
    }
  }

  lemma LaterPage(a: nat, b: nat, limit: nat)
    requires 1 <= a < b
    ensures (a - 1) * limit + limit <= (b - 1) * limit
    ensures b == a + 1 ==> (a - 1) * limit + limit == (b - 1) * limit
  {
    assert (b - 1) * limit == (a - 1) * limit + limit + (b - a - 1) * limit;
  }

  lemma SlicesAreDisjoint(ks: seq<Product>, f: nat, g: nat, limit: nat, p: Product)
    requires f + limit <= g && (forall i, j :: 0 <= i < j < |ks| ==> ks[i] != ks[j])
    requires p in Slice(ks, f, limit)
    ensures p !in Slice(ks, g, limit)
  {
    var i :| 0 <= i < |Slice(ks, f, limit)| && Slice(ks, f, limit)[i] == p;
    forall j | 0 <= j < |Slice(ks, g, limit)|
      ensures Slice(ks, g, limit)[j] != p
    {
      assert ks[f + i] != ks[g + j];
    }
  }

  // Two pages share no entry when the candidates have none twice.
  lemma PagesAreDisjoint(directory: Directory, ps: seq<Product>, a: nat, b: nat, limit: nat, p: Product)
    requires 1 <= a < b && (forall i, j :: 0 <= i < j < |ps| ==> ps[i] != ps[j])
    requires p in PageOf(directory, ps, a, limit)
    ensures p !in PageOf(directory, ps, b, limit)
  {
    hide Kept, Slice;
    KeptDistinct(directory, ps);
    LaterPage(a, b, limit);
    SlicesAreDisjoint(Kept(directory, ps), (a - 1) * limit, (b - 1) * limit, limit, p);
  }

  lemma {:induction false} KeptDistinct(directory: Directory, ps: seq<Product>)
    requires forall i, j :: 0 <= i < j < |ps| ==> ps[i] != ps[j]
    ensures forall i, j :: 0 <= i < j < |Kept(directory, ps)| ==> Kept(directory, ps)[i] != Kept(directory, ps)[j]
  {
    if ps != [] {
      KeptDistinct(directory, ps[..|ps| - 1]);
      assert ps[|ps| - 1] !in ps[..|ps| - 1];
    }
  }

  predicate InOrder(t: Table, sort: string, ps: seq<Product>)
  {
    && (forall i :: 0 <= i < |ps| ==> ps[i].id in t)
    && (forall i, j :: 0 <= i < j < |ps| ==> Precedes(t, sort, ps[i].id, ps[j].id))
  }

  lemma {:induction false} KeptInOrder(directory: Directory, t: Table, sort: string, ps: seq<Product>)
    requires InOrder(t, sort, ps)
    ensures forall p :: p in Kept(directory, ps) <==> p in ps && Approved(directory, p)
    ensures InOrder(t, sort, Kept(directory, ps))
  {
    hide Precedes;
    if ps != [] {
      var init, last := ps[..|ps| - 1], ps[|ps| - 1];
      KeptInOrder(directory, t, sort, init);
      assert ps == init + [last];
      var ls := Kept(directory, init);
      forall i | 0 <= i < |ls|
        ensures Precedes(t, sort, ls[i].id, last.id)
      {
        assert ls[i] in init;
        var k :| 0 <= k < |init| && init[k] == ls[i];
        assert ps[k] == ls[i];
      }
    }
  }

  // Main theorem: enough pages, put together, list every published product of an approved seller
  // that the filter asks for, each once and in the order asked for, and nothing else.
  lemma PagesAreTheSearch(directory: Directory, t: Table, f: Filter, ps: seq<Product>, n: nat, limit: nat)
    requires Answers(t, f, ps) && 1 <= limit && |Kept(directory, ps)| <= n * limit
    ensures var all := Pages(directory, ps, n, limit);
      && (forall id, s :: Product(id, s) in all <==>
            id in t && t[id].seller == s && Matches(t[id], f) && StatusOf(directory, s) == "approved")
      && (forall i, j :: 0 <= i < j < |all| ==> all[i].id in t && all[j].id in t && Precedes(t, f.sort, all[i].id, all[j].id) && all[i].id != all[j].id)
  {
    hide Precedes, Matches, Kept, Pages;
    assert InOrder(t, f.sort, ps);
    PagesConcatenate(directory, ps, n, limit);
    KeptInOrder(directory, t, f.sort, ps);
    var all := Kept(directory, ps);
    assert Pages(directory, ps, n, limit) == all by {
      if n * limit <= |all| {
        assert all[..|all|] == all;
      }
    }
    forall i, j | 0 <= i < j < |all|
      ensures all[i].id != all[j].id
    {
      assert all[i] in ps && all[j] in ps;
      NeverBoth(t, f.sort, all[i].id, all[j].id);
    }
    forall id, s
      ensures Product(id, s) in all <==> id in t && t[id].seller == s && Matches(t[id], f) && StatusOf(directory, s) == "approved"
    {
      var p := Product(id, s);
      if p in ps {
        var i :| 0 <= i < |ps| && ps[i] == p;
      }
    }
  }
}
