/** Coupon arithmetic: the discount a coupon grants and its exact split over cart lines. */
module Voucher {
  import opened Common

  const MAX_LINES := 100
  const MAX_LINE_AMOUNT := 10_000_000_000_000_000

  datatype Line = Line(seller: nat, amount: int64)
  datatype CouponType = Percent | Fixed | Unknown
  datatype Coupon = Coupon(active: bool, deleted: bool, startsAt: int, endsAt: int,
                           usageLimit: int, usedCount: int,
                           kind: CouponType, value: int64, maxDiscount: int64)
  datatype Rule = Rule(minOrder: int64, seller: Option<nat>)
  datatype Quote = Quote(discount: int64, lineDiscounts: seq<int64>)

  predicate Eligible(rule: Rule, line: Line)
  {
    rule.seller == None || rule.seller == Some(line.seller)
  }

  // What a line adds to the discount base.
  function Weight(rule: Rule, line: Line): int
  {
    if Eligible(rule, line) then line.amount as int else 0
  }

  function Weights(rule: Rule, lines: seq<Line>): (ws: seq<int>)
    ensures |ws| == |lines|
  {
    seq(|lines|, i requires 0 <= i < |lines| => Weight(rule, lines[i]))
  }

  predicate AmountsInRange(lines: seq<Line>)
  {
    forall i :: 0 <= i < |lines| ==> 0 <= lines[i].amount as int <= MAX_LINE_AMOUNT
  }

  predicate Usable(c: Coupon, now: int)
  {
    && c.active && !c.deleted
    && c.startsAt <= now < c.endsAt
    && !(c.usageLimit > 0 && c.usedCount >= c.usageLimit)
  }

  predicate ValueValid(c: Coupon)
  {
    match c.kind
    case Percent => 1 <= c.value <= 100 && c.maxDiscount > 0
    case Fixed => c.value > 0
    case Unknown => false
  }

  // The mathematical discount, with no thought for machine integers.
  function Discount(c: Coupon, base: int): (d: int)
    requires ValueValid(c) && base > 0
    ensures 0 <= d <= base
  {
    var raw := match c.kind
               case Percent => Min(base * c.value as int / 100, c.maxDiscount as int)
               case _ => c.value as int;
    Min(raw, base)
  }

  function Min(a: int, b: int): int
  {
    if a < b then a else b
  }

  // Which error, if any, a quotation ends in. The order is that of the checks.
  function Refusal(c: Coupon, rule: Rule, lines: seq<Line>, now: int): Option<Error>
  {
    var base := Sum(Weights(rule, lines));
    if |lines| > MAX_LINES then Some(Invalid)
    else if !Usable(c, now) then Some(Conflict)
    else if !AmountsInRange(lines) then Some(Invalid)
    else if base <= 0 || base < rule.minOrder as int then Some(Conflict)
    else if !ValueValid(c) then Some(Invalid)
    else None
  }

  // Big-integer multiply and divide, so the product cannot overflow.
  function MulQuo(x: int, y: int, z: int): int
    requires z != 0
  {
    x * y / z
  }

  // State of the allocation before line i: what is still to give and over what base.
  function Remaining(ws: seq<int>, d: int, i: nat): (r: int)
    requires i <= |ws|
    decreases i, 1
  {
    if i == 0 then d else Remaining(ws, d, i - 1) - Share(ws, d, i - 1)
  }

  function Share(ws: seq<int>, d: int, i: nat): (s: int)
    requires i < |ws|
    decreases i, 2
  {
    var base := Sum(ws) - Sum(ws[..i]);
    if ws[i] == 0 || base == 0 then 0 else MulQuo(Remaining(ws, d, i), ws[i], base)
  }

  predicate NonNegative(ws: seq<int>)
  {
    forall i :: 0 <= i < |ws| ==> 0 <= ws[i]
  }

  // How many of the first i weights are non-zero.
  function Active(ws: seq<int>, i: nat): (n: nat)
    requires i <= |ws|
    ensures n <= i
  {
    if i == 0 then 0 else Active(ws, i - 1) + (if ws[i - 1] != 0 then 1 else 0)
  }

  lemma {:induction false} ActiveMonotone(ws: seq<int>, i: nat, j: nat)
    requires i <= j <= |ws|
    ensures Active(ws, i) <= Active(ws, j)
  {
    if i < j {
      ActiveMonotone(ws, i, j - 1);
    }
  }

  lemma {:induction false} PrefixSums(ws: seq<int>, i: nat)
    requires NonNegative(ws) && i < |ws|
    ensures Sum(ws[..i + 1]) == Sum(ws[..i]) + ws[i]
    ensures Sum(ws[..i]) + ws[i] <= Sum(ws)
    ensures 0 <= Sum(ws[..i])
  {
    assert ws[..i + 1] == ws[..i] + [ws[i]];
    SumSnoc(ws[..i], ws[i]);
    TailNonNegative(ws[..i]);
    SumConcat(ws[..i + 1], ws[i + 1..]);
    assert ws == ws[..i + 1] + ws[i + 1..];
    TailNonNegative(ws[i + 1..]);
  }

  lemma {:induction false} TailNonNegative(ws: seq<int>)
    requires NonNegative(ws)
    ensures 0 <= Sum(ws)
  {
    if ws != [] {
      TailNonNegative(ws[..|ws| - 1]);
    }
  }

  lemma MulAtMost(k: int, a: int, b: int)
    requires 0 <= k && a <= b
    ensures k * a <= k * b
  {
  }

  lemma MulLess(k: int, a: int, b: int)
    requires 0 < k && a < b
    ensures k * a < k * b
  {
  }

  lemma CancelAtMost(a: int, b: int, k: int)
    requires 0 < k && a * k <= b * k
    ensures a <= b
  {
    if b < a {
      MulLess(k, b, a);
    }
  }

  lemma CancelLess(a: int, b: int, k: int)
    requires 0 < k && a * k < b * k
    ensures a < b
  {
    if b <= a {
      MulAtMost(k, b, a);
    }
  }

  lemma DivBounds(n: int, k: int)
    requires 0 < k
    ensures n / k * k <= n < n / k * k + k
  {
  }

  // A floored share fits its line and leaves no more than the remaining base can take.
  lemma ShareFits(rem: int, base: int, a: int, q: int)
    requires 0 < a <= base && 0 <= rem <= base
    requires q * base <= rem * a < q * base + base
    ensures 0 <= q <= a && q <= rem && rem - q <= base - a
  {
    MulAtMost(rem, 0, a);
    CancelLess(-1, q, base);
    MulAtMost(a, rem, base);
    CancelAtMost(q, a, base);
    MulAtMost(rem, a, base);
    CancelAtMost(q, rem, base);
    MulAtMost(base - rem, 0, base - a);
    LeftOver(rem, base, a);
    CancelLess(rem + a - base, q + 1, base);
  }

  lemma LeftOver(rem: int, base: int, a: int)
    requires 0 <= (base - rem) * (base - a)
    ensures (rem + a - base) * base <= rem * a
  {
  }

  // The scaled share stays below the exact proportion plus the drift x = E*rem - d*base ...
  lemma ScaledUpper(E: int, d: int, rem: int, base: int, a: int, q: int, x: int)
    requires 0 < a <= base && 0 < E && x == E * rem - d * base && 0 <= x
    requires q * base <= rem * a
    ensures E * q <= d * a + x
  {
    MulAtMost(E, q * base, rem * a);
    MulAtMost(x, a, base);
    Regroup(E, d, rem, base, a, x);
    assert (E * q) * base <= (d * a + x) * base by {
      calc {
        (E * q) * base;
        E * (q * base);
      <= E * (rem * a);
        (d * a) * base + x * a;
      <= (d * a) * base + x * base;
      }
    }
    CancelAtMost(E * q, d * a + x, base);
  }

  // ... and above the exact proportion less one unit.
  lemma ScaledLower(E: int, d: int, rem: int, base: int, a: int, q: int, x: int)
    requires 0 < a <= base && 0 < E && x == E * rem - d * base && 0 <= x
    requires rem * a < q * base + base
    ensures d * a - E < E * q
  {
    MulLess(E, rem * a, q * base + base);
    MulAtMost(a, 0, x);
    Regroup(E, d, rem, base, a, x);
    assert (d * a - E) * base < (E * q) * base by {
      calc {
        (d * a - E) * base;
        (d * a) * base - E * base;
      <= (d * a) * base + x * a - E * base;
        E * (rem * a) - E * base;
      <  E * (q * base + base) - E * base;
        (E * q) * base;
      }
    }
    CancelLess(d * a - E, E * q, base);
  }

  lemma Regroup(E: int, d: int, rem: int, base: int, a: int, x: int)
    requires x == E * rem - d * base
    ensures E * (rem * a) == (d * a) * base + x * a
  {
    assert (E * rem) * a == (d * base + x) * a;
  }

  // One floor step keeps the drift non-negative and adds less than E to it.
  lemma FloorStep(E: int, d: int, rem: int, base: int, a: int, x: int)
    requires 0 < a <= base && 0 < E && 0 <= rem <= base
    requires x == E * rem - d * base && 0 <= x
    ensures var q := rem * a / base;
      && 0 <= q <= a && q <= rem && rem - q <= base - a
      && d * a - E < E * q <= d * a + x
      && 0 <= E * (rem - q) - d * (base - a) < x + E
  {
    var q := rem * a / base;
    DivBounds(rem * a, base);
    ShareFits(rem, base, a, q);
    ScaledUpper(E, d, rem, base, a, q, x);
    ScaledLower(E, d, rem, base, a, q, x);
    assert E * (rem - q) - d * (base - a) == x - E * q + d * a;
  }

  // How far what is left runs ahead of the exact proportion, scaled by the whole base.
  function DriftAt(ws: seq<int>, d: int, i: nat): int
    requires i <= |ws|
  {
    Sum(ws) * Remaining(ws, d, i) - d * (Sum(ws) - Sum(ws[..i]))
  }

  // The drift never goes negative and each active line adds less than one whole unit to it.
  lemma {:induction false} Drift(ws: seq<int>, d: int, i: nat)
    requires NonNegative(ws) && i <= |ws| && 0 <= d <= Sum(ws)
    ensures Sum(ws[..i]) <= Sum(ws)
    ensures 0 <= Remaining(ws, d, i) <= Sum(ws) - Sum(ws[..i])
    ensures 0 <= DriftAt(ws, d, i) <= Sum(ws) * Active(ws, i)
    ensures Active(ws, i) > 0 ==> DriftAt(ws, d, i) < Sum(ws) * Active(ws, i)
  {
    if i == 0 {
      assert ws[..0] == [];
    } else {
      Drift(ws, d, i - 1);
      DriftStep(ws, d, i - 1);
    }
  }

  lemma DriftStep(ws: seq<int>, d: int, i: nat)
    requires NonNegative(ws) && i < |ws| && 0 <= d <= Sum(ws)
    requires 0 <= Remaining(ws, d, i) <= Sum(ws) - Sum(ws[..i])
    requires 0 <= DriftAt(ws, d, i) <= Sum(ws) * Active(ws, i)
    requires Active(ws, i) > 0 ==> DriftAt(ws, d, i) < Sum(ws) * Active(ws, i)
    ensures Sum(ws[..i + 1]) <= Sum(ws)
    ensures 0 <= Remaining(ws, d, i + 1) <= Sum(ws) - Sum(ws[..i + 1])
    ensures 0 <= DriftAt(ws, d, i + 1) <= Sum(ws) * Active(ws, i + 1)
    ensures Active(ws, i + 1) > 0 ==> DriftAt(ws, d, i + 1) < Sum(ws) * Active(ws, i + 1)
  {
    PrefixSums(ws, i);
    if ws[i] != 0 {
      DriftArithmetic(Sum(ws), d, Remaining(ws, d, i), Sum(ws) - Sum(ws[..i]), ws[i], DriftAt(ws, d, i), Active(ws, i));
      assert Sum(ws) - Sum(ws[..i + 1]) == Sum(ws) - Sum(ws[..i]) - ws[i];
    }
  }

  lemma DriftArithmetic(E: int, d: int, rem: int, base: int, a: int, x: int, n: int)
    requires 0 < a <= base && 0 < E && 0 <= rem <= base
    requires x == E * rem - d * base && 0 <= x <= E * n
    ensures var q := rem * a / base;
      && 0 <= rem - q <= base - a
      && 0 <= E * (rem - q) - d * (base - a) < E * (n + 1)
  {
    FloorStep(E, d, rem, base, a, x);
    Distribute(E, n);
  }

  lemma Distribute(E: int, n: int)
    ensures E * (n + 1) == E * n + E
  {
  }

  lemma FloorCompare(E: int, t: int, s: int, n: int, x: int)
    requires 0 < E && 0 <= x <= E * n && (n > 0 ==> x < E * n)
    requires t - E < E * s <= t + x
    ensures t / E <= s < t / E + n + 1
  {
    var f := t / E;
    DivBounds(t, E);
    assert f * E < (s + 1) * E by { Distribute(E, s); }
    CancelLess(f, s + 1, E);
    assert s * E < (f + n + 1) * E by {
      assert (f + n + 1) * E == f * E + E * n + E;
    }
    CancelLess(s, f + n + 1, E);
  }

  // Main bound. Every line gets between 0 and its own weight, at least its floored proportion,
  // and less than that plus the number of lines that share the discount.
  lemma ShareBounds(ws: seq<int>, d: int, i: nat)
    requires NonNegative(ws) && i < |ws| && 0 <= d <= Sum(ws)
    ensures 0 <= Share(ws, d, i) <= ws[i]
    ensures ws[i] != 0 ==> 0 < Sum(ws)
    ensures ws[i] != 0 ==> d * ws[i] / Sum(ws) <= Share(ws, d, i) < d * ws[i] / Sum(ws) + Active(ws, |ws|)
  {
    PrefixSums(ws, i);
    Drift(ws, d, i);
    if ws[i] != 0 {
      FloorStep(Sum(ws), d, Remaining(ws, d, i), Sum(ws) - Sum(ws[..i]), ws[i], DriftAt(ws, d, i));
      ActiveMonotone(ws, i + 1, |ws|);
      FloorCompare(Sum(ws), d * ws[i], Share(ws, d, i), Active(ws, i), DriftAt(ws, d, i));
    }
  }

  function Shares(ws: seq<int>, d: int): (ss: seq<int>)
    ensures |ss| == |ws|
  {
    seq(|ws|, i requires 0 <= i < |ws| => Share(ws, d, i))
  }

  lemma {:induction false} SharesPrefix(ws: seq<int>, d: int, i: nat)
    requires i <= |ws|
    ensures Sum(Shares(ws, d)[..i]) == d - Remaining(ws, d, i)
  {
    var ss := Shares(ws, d);
    if i == 0 {
      assert ss[..0] == [];
    } else {
      SharesPrefix(ws, d, i - 1);
      assert ss[..i] == ss[..i - 1] + [ss[i - 1]];
      SumSnoc(ss[..i - 1], ss[i - 1]);
    }
  }

  // Conservation: the line shares add up to the discount, to the unit.
  lemma SharesSumToDiscount(ws: seq<int>, d: int)
    requires NonNegative(ws) && 0 <= d <= Sum(ws)
    ensures Sum(Shares(ws, d)) == d
  {
    SharesPrefix(ws, d, |ws|);
    Drift(ws, d, |ws|);
    assert ws[..|ws|] == ws && Shares(ws, d)[..|ws|] == Shares(ws, d);
  }

  // The split multiplication used for percentages equals the plain formula.
  lemma PercentExact(base: int, value: int)
    requires 0 <= base && 0 <= value
    ensures base / 100 * value + base % 100 * value / 100 == base * value / 100
  {
    var q, r := base / 100, base % 100;
    assert base * value == 100 * (q * value) + r * value by {
      assert base == 100 * q + r;
    }
  }

  // A failed range check further on would have been reached: amounts seen so far are in range.
  lemma WeightsPrefix(rule: Rule, lines: seq<Line>, i: nat)
    requires i < |lines|
    ensures Sum(Weights(rule, lines)[..i + 1]) == Sum(Weights(rule, lines)[..i]) + Weight(rule, lines[i])
  {
    var ws := Weights(rule, lines);
    assert ws[..i + 1] == ws[..i] + [ws[i]];
    SumSnoc(ws[..i], ws[i]);
  }

  lemma WeightsBounded(rule: Rule, lines: seq<Line>, i: nat)
    requires i <= |lines| <= MAX_LINES
    requires forall j :: 0 <= j < i ==> 0 <= lines[j].amount as int <= MAX_LINE_AMOUNT
    ensures 0 <= Sum(Weights(rule, lines)[..i]) <= 1_000_000_000_000_000_000
  {
    SumBounds(Weights(rule, lines)[..i], MAX_LINE_AMOUNT);
  }

  predicate Matches(q: Quote, c: Coupon, rule: Rule, lines: seq<Line>)
    requires |lines| <= MAX_LINES && AmountsInRange(lines)
    requires Sum(Weights(rule, lines)) > 0 && ValueValid(c)
  {
    var ws := Weights(rule, lines);
    var d := Discount(c, Sum(ws));
    && q.discount as int == d
    && |q.lineDiscounts| == |lines|
    && forall i :: 0 <= i < |lines| ==> q.lineDiscounts[i] as int == Share(ws, d, i)
  }

  // The discount base, or the first amount out of range.
  method EligibleBase(rule: Rule, lines: seq<Line>) returns (r: Result<int64>)
    requires |lines| <= MAX_LINES
    ensures r.Err? <==> !AmountsInRange(lines)
    ensures r.Err? ==> r.error == Invalid
    ensures r.Ok? ==> r.value as int == Sum(Weights(rule, lines))
    ensures r.Ok? ==> 0 <= r.value <= 1_000_000_000_000_000_000
  {
    ghost var ws := Weights(rule, lines);
    var eligible: int64 := 0;
    var i := 0;
    while i < |lines|
      invariant 0 <= i <= |lines|
      invariant forall j :: 0 <= j < i ==> 0 <= lines[j].amount as int <= MAX_LINE_AMOUNT
      invariant eligible as int == Sum(ws[..i])
      invariant 0 <= eligible as int <= 1_000_000_000_000_000_000
    {
      if lines[i].amount < 0 || lines[i].amount > 10_000_000_000_000_000 {
        return Err(Invalid);
      }
      WeightsPrefix(rule, lines, i);
      WeightsBounded(rule, lines, i + 1);
      if rule.seller == None || rule.seller == Some(lines[i].seller) {
        eligible := eligible + lines[i].amount;
      }
      i := i + 1;
    }
    assert ws[..|lines|] == ws;
    return Ok(eligible);
  }

  // The capped discount, computed without forming base * value.
  method CappedDiscount(c: Coupon, eligible: int64) returns (r: Result<int64>)
    requires 0 < eligible <= 1_000_000_000_000_000_000
    ensures r.Err? <==> !ValueValid(c)
    ensures r.Err? ==> r.error == Invalid
    ensures r.Ok? ==> r.value as int == Discount(c, eligible as int)
  {
    var d := c.value;
    if c.kind == Percent {
      if c.value < 1 || c.value > 100 || c.maxDiscount <= 0 {
        return Err(Invalid);
      }
      PercentExact(eligible as int, c.value as int);
      MulAtMost((eligible / 100) as int, c.value as int, 100);
      d := eligible / 100 * c.value + eligible % 100 * c.value / 100;
      if d > c.maxDiscount {
        d := c.maxDiscount;
      }
    } else if c.kind != Fixed || c.value <= 0 {
      return Err(Invalid);
    }
    if d > eligible {
      d := eligible;
    }
    return Ok(d);
  }

  lemma AllocationStep(ws: seq<int>, d: int, i: nat)
    requires NonNegative(ws) && i < |ws| && 0 <= d <= Sum(ws)
    ensures 0 <= Remaining(ws, d, i + 1) == Remaining(ws, d, i) - Share(ws, d, i)
    ensures 0 <= Sum(ws) - Sum(ws[..i + 1]) == Sum(ws) - Sum(ws[..i]) - ws[i]
    ensures 0 <= Share(ws, d, i) <= ws[i]
    ensures ws[i] == 0 ==> Share(ws, d, i) == 0
    ensures ws[i] != 0 ==> Sum(ws) - Sum(ws[..i]) != 0 &&
                           Share(ws, d, i) == MulQuo(Remaining(ws, d, i), ws[i], Sum(ws) - Sum(ws[..i]))
  {
    PrefixSums(ws, i);
    ShareBounds(ws, d, i);
    Drift(ws, d, i + 1);
  }

  // Each line takes its floored proportion of what is left over the base that is left.
  method Allocate(rule: Rule, lines: seq<Line>, d: int64, eligible: int64) returns (discounts: seq<int64>)
    requires AmountsInRange(lines)
    requires eligible as int == Sum(Weights(rule, lines)) && 0 <= d <= eligible
    ensures |discounts| == |lines|
    ensures forall i :: 0 <= i < |lines| ==> discounts[i] as int == Share(Weights(rule, lines), d as int, i)
  {
    ghost var ws := Weights(rule, lines);
    discounts := seq(|lines|, _ => 0);
    var remaining, base := d, eligible;
    var i := 0;
    assert ws[..0] == [];
    while i < |lines|
      invariant 0 <= i <= |lines| == |discounts|
      invariant remaining as int == Remaining(ws, d as int, i)
      invariant base as int == Sum(ws) - Sum(ws[..i])
      invariant forall j :: 0 <= j < i ==> discounts[j] as int == Share(ws, d as int, j)
      invariant forall j :: i <= j < |lines| ==> discounts[j] == 0
    {
      AllocationStep(ws, d as int, i);
      if !(lines[i].amount == 0 || (rule.seller != None && rule.seller != Some(lines[i].seller))) {
        var n := MulQuo(remaining as int, lines[i].amount as int, base as int);
        discounts := discounts[i := n as int64];
        remaining := remaining - discounts[i];
        base := base - lines[i].amount;
      }
      i := i + 1;
    }
  }

  method Calculate(c: Coupon, rule: Rule, lines: seq<Line>, now: int) returns (r: Result<Quote>)
    ensures r.Err? <==> Refusal(c, rule, lines, now).Some?
    ensures r.Err? ==> r.error == Refusal(c, rule, lines, now).value
    ensures r.Ok? ==> Matches(r.value, c, rule, lines)
  {
    if |lines| > MAX_LINES {
      return Err(Invalid);
    }
    if !c.active || c.deleted || now < c.startsAt || !(now < c.endsAt) || (c.usageLimit > 0 && c.usedCount >= c.usageLimit) {
      return Err(Conflict);
    }
    var eligible := EligibleBase(rule, lines);
    if eligible.Err? {
      return Err(eligible.error);
    }
    if eligible.value <= 0 || eligible.value < rule.minOrder {
      return Err(Conflict);
    }
    var d := CappedDiscount(c, eligible.value);
    if d.Err? {
      return Err(d.error);
    }
    var discounts := Allocate(rule, lines, d.value, eligible.value);
    return Ok(Quote(d.value, discounts));
  }

  // Everything a caller of Calculate relies on, for every accepted cart.
  lemma QuoteIsExact(q: Quote, c: Coupon, rule: Rule, lines: seq<Line>, now: int)
    requires Refusal(c, rule, lines, now) == None && Matches(q, c, rule, lines)
    ensures 0 <= q.discount as int <= Sum(Weights(rule, lines))
    ensures Sum(Widen(q.lineDiscounts)) == q.discount as int
    ensures forall i :: 0 <= i < |lines| ==> 0 <= q.lineDiscounts[i] <= lines[i].amount
    ensures forall i :: 0 <= i < |lines| && !Eligible(rule, lines[i]) ==> q.lineDiscounts[i] == 0
    ensures forall i :: 0 <= i < |lines| ==> NearProportion(q, Weights(rule, lines), i)
  {
    var ws := Weights(rule, lines);
    var d := q.discount as int;
    SharesSumToDiscount(ws, d);
    assert Widen(q.lineDiscounts) == Shares(ws, d);
    forall i | 0 <= i < |lines|
      ensures 0 <= q.lineDiscounts[i] <= lines[i].amount
      ensures !Eligible(rule, lines[i]) ==> q.lineDiscounts[i] == 0
      ensures NearProportion(q, ws, i)
    {
      ShareBounds(ws, d, i);
    }
  }

  // Within one unit per sharing line of the exact proportion, and never below its floor.
  predicate NearProportion(q: Quote, ws: seq<int>, i: nat)
    requires i < |ws| == |q.lineDiscounts|
  {
    ws[i] != 0 ==>
      && 0 < Sum(ws)
      && q.discount as int * ws[i] / Sum(ws) <= q.lineDiscounts[i] as int
      && q.lineDiscounts[i] as int < q.discount as int * ws[i] / Sum(ws) + Active(ws, |ws|)
  }

  function Widen(xs: seq<int64>): (ys: seq<int>)
    ensures |ys| == |xs|
    ensures forall i :: 0 <= i < |xs| ==> ys[i] == xs[i] as int
  {
    seq(|xs|, i requires 0 <= i < |xs| => xs[i] as int)
  }
}
