/**
 * The canonical form of a cart selection, on which repeated checkouts are recognised, and the
 * checks the order service makes before a checkout begins.
 */
module Selection {
  import opened Common
  import opened Orders
  import opened Checkout
  import opened Market
  import opened MarketInvariant
  import MarketRuns
  import MarketStore

  // ---- Identifiers as text ------------------------------------------------------------------

  // A 128-bit identifier; zero is the nil identifier.
  type Id = n: nat | n < ID_LIMIT

  const ID_LIMIT: nat := 0x1_0000_0000_0000_0000_0000_0000_0000_0000
  const HEX := "0123456789abcdef"

  function Sixteens(k: nat): (p: nat)
    ensures p > 0
  {
    if k == 0 then 1 else 16 * Sixteens(k - 1)
  }

  // The last k hexadecimal digits of n.
  function Digits(n: nat, k: nat): (s: string)
    ensures |s| == k
  {
    if k == 0 then "" else Digits(n / 16, k - 1) + [HEX[n % 16]]
  }

  // Eight, four, four, four and twelve digits with dashes between.
  function Text(id: Id): (s: string)
    ensures |s| == 36
  {
    var d := Digits(id, 32);
    d[..8] + "-" + d[8..12] + "-" + d[12..16] + "-" + d[16..20] + "-" + d[20..]
  }

  lemma {:induction false} DigitsInjective(a: nat, b: nat, k: nat)
    requires a < Sixteens(k) && b < Sixteens(k) && Digits(a, k) == Digits(b, k)
    ensures a == b
  {
    if k > 0 {
      var s, t := Digits(a, k), Digits(b, k);
      assert s[..k - 1] == Digits(a / 16, k - 1) && t[..k - 1] == Digits(b / 16, k - 1);
      assert s[k - 1] == HEX[a % 16] && t[k - 1] == HEX[b % 16];
      DigitsInjective(a / 16, b / 16, k - 1);
    }
  }

  lemma ThirtyTwoDigits()
    ensures Sixteens(32) == ID_LIMIT
  {
    assert Sixteens(8) == 0x1_0000_0000;
    SixteensAdd(8, 8);
    SixteensAdd(16, 16);
  }

  lemma {:induction false} SixteensAdd(a: nat, b: nat)
    ensures Sixteens(a + b) == Sixteens(a) * Sixteens(b)
  {
    if b > 0 {
      SixteensAdd(a, b - 1);
      assert a + b - 1 == a + (b - 1);
    }
  }

  // Where digit i stands in the text.
  function Place(i: nat): (p: nat)
    requires i < 32
    ensures p < 36
  {
    if i < 8 then i else if i < 12 then i + 1 else if i < 16 then i + 2 else if i < 20 then i + 3 else i + 4
  }

  lemma TextAt(id: Id, i: nat)
    requires i < 32
    ensures Text(id)[Place(i)] == Digits(id, 32)[i]
  {
    hide Digits;
  }

  lemma TextInjective(a: Id, b: Id)
    requires Text(a) == Text(b)
    ensures a == b
  {
    hide Digits, Text;
    forall i | 0 <= i < 32
      ensures Digits(a, 32)[i] == Digits(b, 32)[i]
    {
      TextAt(a, i);
      TextAt(b, i);
    }
    assert Digits(a, 32) == Digits(b, 32);
    ThirtyTwoDigits();
    DigitsInjective(a, b, 32);
  }

  // ---- Text order ---------------------------------------------------------------------------

  predicate Less(s: string, t: string)
  {
    if t == "" then false
    else if s == "" then true
    else if s[0] != t[0] then s[0] < t[0]
    else Less(s[1..], t[1..])
  }

  lemma {:induction false} LessIrreflexive(s: string)
    ensures !Less(s, s)
  {
    if s != "" {
      LessIrreflexive(s[1..]);
    }
  }

  lemma {:induction false} LessTransitive(s: string, t: string, u: string)
    requires Less(s, t) && Less(t, u)
    ensures Less(s, u)
  {
    if s != "" && s[0] == t[0] && t[0] == u[0] {
      LessTransitive(s[1..], t[1..], u[1..]);
    }
  }

  lemma {:induction false} LessTotal(s: string, t: string)
    ensures Less(s, t) || s == t || Less(t, s)
  {
    if s != "" && t != "" && s[0] == t[0] {
      LessTotal(s[1..], t[1..]);
      assert s == [s[0]] + s[1..] && t == [t[0]] + t[1..];
    }
  }

  predicate Ascending(ps: seq<string>)
  {
    forall i, j :: 0 <= i < j < |ps| ==> Less(ps[i], ps[j])
  }

  function Placed(x: string, ps: seq<string>): (qs: seq<string>)
    ensures |qs| == |ps| + 1
    ensures forall p :: p in qs <==> p == x || p in ps
  {
    if ps == [] then [x]
    else if Less(ps[0], x) then [ps[0]] + Placed(x, ps[1..])
    else [x] + ps
  }

  function Sorted(ps: seq<string>): (qs: seq<string>)
    ensures |qs| == |ps|
    ensures forall p :: p in qs <==> p in ps
  {
    if ps == [] then [] else Placed(ps[0], Sorted(ps[1..]))
  }

  lemma {:induction false} PlacedAscends(x: string, ps: seq<string>)
    requires Ascending(ps) && x !in ps
    ensures Ascending(Placed(x, ps))
  {
    if ps != [] {
      if Less(ps[0], x) {
        PlacedAscends(x, ps[1..]);
        var qs := Placed(x, ps[1..]);
        forall j | 0 <= j < |qs|
          ensures Less(ps[0], qs[j])
        {
          assert qs[j] in qs;
        }
      } else {
        LessTotal(ps[0], x);
        forall j | 0 <= j < |ps|
          ensures Less(x, ps[j])
        {
          if j > 0 {
            LessTransitive(x, ps[0], ps[j]);
          }
        }
      }
    }
  }

  lemma {:induction false} SortedAscends(ps: seq<string>)
    requires forall i, j :: 0 <= i < j < |ps| ==> ps[i] != ps[j]
    ensures Ascending(Sorted(ps))
  {
    if ps != [] {
      SortedAscends(ps[1..]);
      PlacedAscends(ps[0], Sorted(ps[1..]));
    }
  }

  // An ascending list is determined by its members.
  lemma {:induction false} AscendingUnique(ps: seq<string>, qs: seq<string>)
    requires Ascending(ps) && Ascending(qs) && forall p :: p in ps <==> p in qs
    ensures ps == qs
  {
    if ps == [] {
      HasMember(qs);
    } else {
      assert ps[0] in qs;
      SameLeast(ps, qs);
      forall p
        ensures p in ps[1..] <==> p in qs[1..]
      {
        TailMembers(ps, p);
        TailMembers(qs, p);
      }
      AscendingUnique(ps[1..], qs[1..]);
    }
  }

  lemma HasMember(qs: seq<string>)
    ensures qs == [] || exists q :: q in qs
  {
    if qs != [] {
      assert qs[0] in qs;
    }
  }

  lemma SameLeast(ps: seq<string>, qs: seq<string>)
    requires Ascending(ps) && Ascending(qs) && ps != [] && qs != [] && forall p :: p in ps <==> p in qs
    ensures ps[0] == qs[0]
  {
    assert ps[0] in ps && qs[0] in qs;
    var j :| 0 <= j < |qs| && qs[j] == ps[0];
    var i :| 0 <= i < |ps| && ps[i] == qs[0];
    if i > 0 && j > 0 {
      LessTransitive(ps[0], qs[0], ps[0]);
      LessIrreflexive(ps[0]);
    }
  }

  lemma TailMembers(ps: seq<string>, p: string)
    requires Ascending(ps) && ps != []
    ensures p in ps[1..] <==> p in ps && p != ps[0]
  {
    LessIrreflexive(p);
    if p in ps && p != ps[0] {
      var i :| 0 <= i < |ps| && ps[i] == p;
      assert ps[1..][i - 1] == p;
    }
  }

  // ---- The key ------------------------------------------------------------------------------

  function Join(ps: seq<string>): string
  {
    if ps == [] then "" else if |ps| == 1 then ps[0] else ps[0] + "," + Join(ps[1..])
  }

  predicate Wide(ps: seq<string>)
  {
    forall i :: 0 <= i < |ps| ==> |ps[i]| == 36
  }

  lemma {:induction false} JoinLength(ps: seq<string>)
    requires Wide(ps)
    ensures |Join(ps)| == if ps == [] then 0 else 37 * |ps| - 1
  {
    if |ps| > 1 {
      JoinLength(ps[1..]);
    }
  }

  lemma {:induction false} JoinInjective(ps: seq<string>, qs: seq<string>)
    requires Wide(ps) && Wide(qs) && Join(ps) == Join(qs)
    ensures ps == qs
  {
    JoinLength(ps);
    JoinLength(qs);
    if ps != [] {
      assert Join(ps)[..36] == ps[0] && Join(qs)[..36] == qs[0];
      if |ps| > 1 {
        assert Join(ps)[37..] == Join(ps[1..]) && Join(qs)[37..] == Join(qs[1..]);
        JoinInjective(ps[1..], qs[1..]);
      }
    }
  }

  predicate Selectable(ids: seq<Id>)
  {
    && |ids| <= 100
    && (forall i :: 0 <= i < |ids| ==> ids[i] != 0)
    && (forall i, j :: 0 <= i < j < |ids| ==> ids[i] != ids[j])
  }

  function Texts(ids: seq<Id>): (ps: seq<string>)
    ensures |ps| == |ids| && Wide(ps)
  {
    seq(|ids|, i requires 0 <= i < |ids| => Text(ids[i]))
  }

  function Key(ids: seq<Id>): string
  {
    Join(Sorted(Texts(ids)))
  }

  predicate SameSet(a: seq<Id>, b: seq<Id>)
  {
    (forall id :: id in a ==> id in b) && (forall id :: id in b ==> id in a)
  }

  lemma TextsDistinct(ids: seq<Id>)
    requires forall i, j :: 0 <= i < j < |ids| ==> ids[i] != ids[j]
    ensures forall i, j :: 0 <= i < j < |ids| ==> Texts(ids)[i] != Texts(ids)[j]
  {
    hide Text;
    forall i, j | 0 <= i < j < |ids|
      ensures Texts(ids)[i] != Texts(ids)[j]
    {
      if Text(ids[i]) == Text(ids[j]) {
        TextInjective(ids[i], ids[j]);
      }
    }
  }

  lemma MembersAsText(a: seq<Id>, b: seq<Id>)
    requires forall id :: id in a ==> id in b
    ensures forall p :: p in Texts(a) ==> p in Texts(b)
  {
    hide Text;
    forall p | p in Texts(a)
      ensures p in Texts(b)
    {
      var i :| 0 <= i < |a| && Texts(a)[i] == p;
      assert a[i] in b;
      var j :| 0 <= j < |b| && b[j] == a[i];
      assert Texts(b)[j] == p;
    }
  }

  lemma TextsBack(a: seq<Id>, b: seq<Id>)
    requires forall p :: p in Texts(a) ==> p in Texts(b)
    ensures forall id :: id in a ==> id in b
  {
    hide Text;
    forall id | id in a
      ensures id in b
    {
      var i :| 0 <= i < |a| && a[i] == id;
      assert Texts(a)[i] in Texts(b);
      var j :| 0 <= j < |b| && Texts(b)[j] == Text(id);
      TextInjective(b[j], id);
    }
  }

  // Main theorem: two valid selections have the same key exactly when they hold the same variants.
  lemma KeyIsCanonical(a: seq<Id>, b: seq<Id>)
    requires Selectable(a) && Selectable(b)
    ensures Key(a) == Key(b) <==> SameSet(a, b)
  {
    hide Texts, Sorted, Join;
    var ps, qs := Sorted(Texts(a)), Sorted(Texts(b));
    SortedIsWide(Texts(a));
    SortedIsWide(Texts(b));
    if Key(a) == Key(b) {
      JoinInjective(ps, qs);
      assert forall p :: p in Texts(a) <==> p in Texts(b) by {
        assert forall p :: p in ps <==> p in Texts(a);
        assert forall p :: p in qs <==> p in Texts(b);
      }
      TextsBack(a, b);
      TextsBack(b, a);
    }
    if SameSet(a, b) {
      MembersAsText(a, b);
      MembersAsText(b, a);
      TextsDistinct(a);
      TextsDistinct(b);
      SortedAscends(Texts(a));
      SortedAscends(Texts(b));
      AscendingUnique(ps, qs);
    }
  }

  lemma SortedIsWide(ps: seq<string>)
    requires Wide(ps)
    ensures Wide(Sorted(ps))
  {
    forall i | 0 <= i < |Sorted(ps)|
      ensures |Sorted(ps)[i]| == 36
    {
      assert Sorted(ps)[i] in ps;
    }
  }

  method SelectionKey(ids: seq<Id>) returns (r: Result<string>)
    ensures r == if Selectable(ids) then Ok(Key(ids)) else Err(Invalid)
  {
    if |ids| > 100 {
      return Err(Invalid);
    }
    var parts: seq<string> := [];
    var seen: set<Id> := {};
    for i := 0 to |ids|
      invariant parts == Texts(ids[..i]) && Selectable(ids[..i])
      invariant forall id :: id in seen <==> id in ids[..i]
    {
      assert ids[..i + 1] == ids[..i] + [ids[i]];
      if ids[i] == 0 || ids[i] in seen {
        RepeatedIsInvalid(ids, i);
        return Err(Invalid);
      }
      seen := seen + {ids[i]};
      parts := parts + [Text(ids[i])];
    }
    assert ids[..|ids|] == ids;
    return Ok(Join(Sorted(parts)));
  }

  lemma RepeatedIsInvalid(ids: seq<Id>, i: nat)
    requires i < |ids| && (ids[i] == 0 || ids[i] in ids[..i])
    ensures !Selectable(ids)
  {
    if ids[i] != 0 {
      var j :| 0 <= j < i && ids[..i][j] == ids[i];
      assert ids[j] == ids[i];
    }
  }

  // ---- The service --------------------------------------------------------------------------

  function Upper(s: string): (t: string)
    ensures |t| == |s|
  {
    seq(|s|, i requires 0 <= i < |s| => if 'a' <= s[i] <= 'z' then s[i] - 'a' + 'A' else s[i])
  }

  predicate CodeChar(c: char)
  {
    'A' <= c <= 'Z' || '0' <= c <= '9' || c == '_' || c == '-'
  }

  function Normalized(code: string): Result<string>
  {
    var c := Upper(Trim(code));
    if c != "" && !(3 <= |c| <= 40 && forall i :: 0 <= i < |c| ==> CodeChar(c[i])) then Err(Invalid) else Ok(c)
  }

  datatype Request = Request(user: nat, address: nat, key: string, way: Method, selected: seq<Id>, coupon: string)

  // What a request asks of the checkout transaction, once it has passed the checks of the service.
  function Demanded(q: Request): Result<Demand>
  {
    if q.address == 0 || q.user == 0 || Blank(q.key) || |q.key| > 128 then Err(Invalid)
    else if !Selectable(q.selected) then Err(Invalid)
    else
      var code := Normalized(q.coupon);
      if code.Err? then Err(code.error)
      else Ok(Demand(q.user, q.address, q.key, q.way, q.selected, Key(q.selected), code.value))
  }

  // A checkout through the service: refused before any transaction, or run as one.
  method CheckoutVoucher(store: MarketStore.Store, q: Request, w: World, id: nat)
    returns (r: Result<nat>, ghost o: Order, ghost discounts: seq<int64>)
    requires id !in store.orders
    modifies store
    ensures q.address == 0 || q.user == 0 || Blank(q.key) || |q.key| > 128 ==>
              store.View() == old(store.View()) && r == Err(Invalid)
    ensures q.address != 0 && q.user != 0 && !Blank(q.key) && |q.key| <= 128 && q.way == Sepay && !w.sepayEnabled ==>
              store.View() == old(store.View()) && r == Err(Unavailable)
    ensures q.address != 0 && q.user != 0 && !Blank(q.key) && |q.key| <= 128 && !(q.way == Sepay && !w.sepayEnabled) ==>
              (var d := Demanded(q);
               if d.Err? then store.View() == old(store.View()) && r == Err(d.error)
               else ChecksOut(old(store.View()), d.value, w, id, o, discounts, store.View(), r))
  {
    hide ChecksOut, Normalized, Key;
    o, discounts := MarketStore.BLANK, [];
    if q.address == 0 || q.user == 0 || Blank(q.key) || |q.key| > 128 {
      r := Err(Invalid);
      return;
    }
    if q.way == Sepay && !w.sepayEnabled {
      r := Err(Unavailable);
      return;
    }
    var selection := SelectionKey(q.selected);
    if selection.Err? {
      r := Err(selection.error);
      return;
    }
    var code := Normalized(q.coupon);
    if code.Err? {
      r := Err(code.error);
      return;
    }
    r, o, discounts := store.Checkout(Demand(q.user, q.address, q.key, q.way, q.selected, selection.value, code.value), w, id);
  }

  // Main theorem: over any run, a second request of a user under the same key changes nothing. It
  // is answered with the first order exactly when method, address, coupon and the set of selected
  // variants are the same, in whatever order they are listed; otherwise it is a conflict.
  lemma RepeatedRequest(states: seq<Db>, ops: seq<Op>, m: nat, n: nat, p: Request, q: Request)
    requires Run(states, ops) && m < n < |ops| && ops[m].PlaceOrder? && ops[n].PlaceOrder?
    requires ops[m].answer.Ok? && ops[n].world.userActive
    requires Demanded(p) == Ok(ops[m].demand) && Demanded(q) == Ok(ops[n].demand)
    requires q.user == p.user && q.key == p.key
    ensures states[n + 1] == states[n]
    ensures ops[n].answer ==
              if q.way == p.way && q.address == p.address && Normalized(q.coupon) == Normalized(p.coupon) && SameSet(q.selected, p.selected)
              then ops[m].answer else Err(Conflict)
  {
    hide Step, Key, Normalized;
    MarketRuns.CheckoutIsIdempotent(states, ops, m, n);
    KeyIsCanonical(q.selected, p.selected);
  }
}
