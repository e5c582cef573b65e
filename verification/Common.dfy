/** Vocabulary shared by every component: machine integers, results and error classes. */
module Common {

  // Go's int64. Arithmetic on this type carries the proof that it never overflows.
  newtype int64 = x: int | -0x8000_0000_0000_0000 <= x < 0x8000_0000_0000_0000

  datatype Option<+T> = None | Some(value: T)

  // The error classes a service can answer with; the rest of an error is text.
  datatype Error = Invalid | Forbidden | NotFound | Conflict | Unavailable

  datatype Result<+T> = Ok(value: T) | Err(error: Error)

  predicate Space(c: char)
  {
    c == ' ' || '\t' <= c <= '\r' || c == '\U{85}' || c == '\U{A0}'
  }

  // True of the texts that trimming reduces to nothing.
  predicate Blank(s: string)
  {
    forall i :: 0 <= i < |s| ==> Space(s[i])
  }

  function Trim(s: string): (t: string)
    ensures t == "" || !(Space(t[0]) || Space(t[|t| - 1]))
  {
    if s == "" then s
    else if Space(s[0]) then Trim(s[1..])
    else if Space(s[|s| - 1]) then Trim(s[..|s| - 1])
    else s
  }

  function Lower(c: char): char
  {
    if 'A' <= c <= 'Z' then c - 'A' + 'a' else c
  }

  predicate EqualFold(s: string, t: string)
  {
    |s| == |t| && forall i :: 0 <= i < |s| ==> Lower(s[i]) == Lower(t[i])
  }

  function Width(c: char): nat
  {
    var code := c as int;
    if code < 0x80 then 1 else if code < 0x800 then 2 else if code < 0x1_0000 then 3 else 4
  }

  // The length of a text in UTF-8.
  function Bytes(s: string): nat
  {
    if s == "" then 0 else Bytes(s[..|s| - 1]) + Width(s[|s| - 1])
  }

  function Sum(xs: seq<int>): (total: int)
  {
    if xs == [] then 0 else Sum(xs[..|xs| - 1]) + xs[|xs| - 1]
  }

  lemma SumSnoc(xs: seq<int>, x: int)
    ensures Sum(xs + [x]) == Sum(xs) + x
  {
    assert (xs + [x])[..|xs|] == xs;
  }

  lemma {:induction false} SumConcat(xs: seq<int>, ys: seq<int>)
    ensures Sum(xs + ys) == Sum(xs) + Sum(ys)
  {
    if ys == [] {
      assert xs + ys == xs;
    } else {
      var init, last := ys[..|ys| - 1], ys[|ys| - 1];
      assert xs + ys == (xs + init) + [last];
      SumSnoc(xs + init, last);
      SumConcat(xs, init);
    }
  }

  // Changing one entry changes the sum by the difference.
  lemma {:induction false} SumUpdate(xs: seq<int>, i: nat, x: int)
    requires i < |xs|
    ensures Sum(xs[i := x]) == Sum(xs) - xs[i] + x
  {
    var n := |xs| - 1;
    if i == n {
      assert xs[i := x][..n] == xs[..n];
    } else {
      assert xs[i := x][..n] == xs[..n][i := x];
      SumUpdate(xs[..n], i, x);
    }
  }

  lemma {:induction false} SumMonotone(xs: seq<int>, ys: seq<int>)
    requires |xs| == |ys|
    requires forall i :: 0 <= i < |xs| ==> xs[i] <= ys[i]
    ensures Sum(xs) <= Sum(ys)
  {
    if xs != [] {
      SumMonotone(xs[..|xs| - 1], ys[..|ys| - 1]);
    }
  }

  lemma {:induction false} SumBounds(xs: seq<int>, bound: int)
    requires forall i :: 0 <= i < |xs| ==> 0 <= xs[i] <= bound
    ensures 0 <= Sum(xs) <= |xs| * bound
  {
    if xs != [] {
      SumBounds(xs[..|xs| - 1], bound);
    }
  }

  lemma SubsetSize(a: set<nat>, b: set<nat>)
    requires a <= b
    ensures |a| <= |b|
  {
    assert b == a + (b - a);
  }
}
