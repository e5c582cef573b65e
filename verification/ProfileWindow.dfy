/**
 * Replay protection of the interest profiles: the update script drops offsets it has passed and
 * event ids among its 256 most recent. For any log whatsoever: no event counts twice exactly when
 * no copy of it arrives after 256 newer events.
 */
module ProfileWindow {
  import opened Common

  const RECENT := 256
  const TOP := 20

  // An enriched behaviour event; source is its position in the raw partition.
  datatype Enriched = Enriched(source: nat, id: nat, user: nat, weight: nat, categories: seq<nat>)

  // Of a profile, what decides about replays; applied is its whole history.
  datatype Core = Core(offset: int, recent: seq<nat>, applied: seq<nat>)

  const BLANK := Core(-1, [], [])

  predicate Counts(r: Enriched, u: nat)
  {
    r.user == u && r.weight != 0 && r.categories != []
  }

  function Slid(recent: seq<nat>, id: nat): (s: seq<nat>)
    requires |recent| <= RECENT
    ensures |s| <= RECENT
  {
    var longer := recent + [id];
    if |longer| > RECENT then longer[1..] else longer
  }

  // One record at one offset, as the script treats it.
  function Delivered(c: Core, o: nat, r: Enriched, u: nat): (c': Core)
    requires |c.recent| <= RECENT
    ensures |c'.recent| <= RECENT
  {
    if !Counts(r, u) || c.offset >= o then c
    else if r.id in c.recent then c.(offset := o)
    else Core(o, Slid(c.recent, r.id), c.applied + [r.id])
  }

  // A log read once from front to back.
  function Straight(log: seq<Enriched>, u: nat): (c: Core)
    ensures |c.recent| <= RECENT
    ensures c.offset < |log|
  {
    if log == [] then BLANK else Delivered(Straight(log[..|log| - 1], u), |log| - 1, log[|log| - 1], u)
  }

  // The distinct counting ids in the order they first appear: what should be applied.
  function Firsts(log: seq<Enriched>, u: nat): (f: seq<nat>)
    ensures forall i, j :: 0 <= i < j < |f| ==> f[i] != f[j]
    ensures |f| <= |log|
  {
    if log == [] then []
    else
      var f, r := Firsts(log[..|log| - 1], u), log[|log| - 1];
      if Counts(r, u) && r.id !in f then f + [r.id] else f
  }

  // The newest 256 at most.
  function Tail(f: seq<nat>): (t: seq<nat>)
    ensures |t| <= RECENT
  {
    if |f| <= RECENT then f else f[|f| - RECENT..]
  }

  // Record n repeats an event that 256 or more newer ones have pushed out.
  predicate StaleAt(log: seq<Enriched>, u: nat, n: nat)
    requires n < |log|
  {
    && Counts(log[n], u)
    && log[n].id in Firsts(log[..n], u) && log[n].id !in Tail(Firsts(log[..n], u))
  }

  predicate NeverStale(log: seq<Enriched>, u: nat)
  {
    forall n :: 0 <= n < |log| ==> !StaleAt(log, u, n)
  }

  predicate NoRepeats(s: seq<nat>)
  {
    forall i, j :: 0 <= i < j < |s| ==> s[i] != s[j]
  }

  lemma NeverStalePrefix(log: seq<Enriched>, u: nat, n: nat)
    requires n <= |log| && NeverStale(log, u)
    ensures NeverStale(log[..n], u)
  {
    forall k | 0 <= k < n
      ensures !StaleAt(log[..n], u, k)
    {
      assert log[..n][..k] == log[..k] && !StaleAt(log, u, k);
    }
  }

  // The script applies exactly the distinct events, and remembers the newest of them.
  lemma {:induction false} StraightIsFirsts(log: seq<Enriched>, u: nat)
    requires NeverStale(log, u)
    ensures Straight(log, u).applied == Firsts(log, u)
    ensures Straight(log, u).recent == Tail(Firsts(log, u))
  {
    if log != [] {
      var n := |log| - 1;
      NeverStalePrefix(log, u, n);
      StraightIsFirsts(log[..n], u);
      assert !StaleAt(log, u, n);
      SlideTail(Firsts(log[..n], u), log[n].id);
      TailInside(Firsts(log[..n], u), log[n].id);
    }
  }

  lemma SlideTail(f: seq<nat>, id: nat)
    ensures Slid(Tail(f), id) == Tail(f + [id])
  {
  }

  lemma TailInside(f: seq<nat>, id: nat)
    ensures id in Tail(f) ==> id in f
  {
  }

  lemma {:induction false} AppliedGrows(log: seq<Enriched>, u: nat, n: nat)
    requires n <= |log|
    ensures Straight(log[..n], u).applied <= Straight(log, u).applied
  {
    if n == |log| {
      assert log[..n] == log;
    } else {
      var m := |log| - 1;
      AppliedGrows(log[..m], u, n);
      assert log[..m][..n] == log[..n];
    }
  }

  lemma StraightStep(log: seq<Enriched>, u: nat, n: nat)
    requires n < |log|
    ensures Straight(log[..n + 1], u) == Delivered(Straight(log[..n], u), n, log[n], u)
  {
    assert log[..n + 1][..n] == log[..n];
  }

  lemma StaleDoubles(log: seq<Enriched>, u: nat, n: nat)
    requires n < |log| && NeverStale(log[..n], u) && StaleAt(log, u, n)
    ensures !NoRepeats(Straight(log, u).applied)
  {
    hide Straight, Firsts, Tail, NeverStale;
    StraightIsFirsts(log[..n], u);
    var f, id := Firsts(log[..n], u), log[n].id;
    StraightStep(log, u, n);
    StraightCovers(log, u, n);
    assert Straight(log[..n + 1], u).applied == f + [id];
    AppliedGrows(log, u, n + 1);
    var i :| 0 <= i < |f| && f[i] == id;
    var a := Straight(log, u).applied;
    assert a[i] == id && a[|f|] == id;
  }

  lemma StraightCovers(log: seq<Enriched>, u: nat, n: nat)
    requires n <= |log|
    ensures Straight(log[..n], u).offset < n
  {
  }

  lemma {:induction false} FirstStale(log: seq<Enriched>, u: nat, m: nat) returns (n: nat)
    requires m < |log| && StaleAt(log, u, m)
    ensures n < |log| && StaleAt(log, u, n) && NeverStale(log[..n], u)
  {
    if k :| 0 <= k < m && StaleAt(log, u, k) {
      n := FirstStale(log, u, k);
    } else {
      n := m;
      forall k | 0 <= k < m
        ensures !StaleAt(log[..m], u, k)
      {
        assert !StaleAt(log, u, k);
        assert log[..m][..k] == log[..k] && log[..m][k] == log[k];
      }
    }
  }

  // Main theorem, for every log: each event counts at most once if and only if no copy of an
  // event arrives after 256 newer ones.
  lemma CountsOnceIffNeverStale(log: seq<Enriched>, u: nat)
    ensures NoRepeats(Straight(log, u).applied) <==> NeverStale(log, u)
  {
    if NeverStale(log, u) {
      StraightIsFirsts(log, u);
    } else {
      var m :| 0 <= m < |log| && StaleAt(log, u, m);
      var n := FirstStale(log, u, m);
      StaleDoubles(log, u, n);
    }
  }

  // ---- Redelivery ---------------------------------------------------------------------------

  // The recorded offset covers every counting record read so far.
  lemma {:induction false} OffsetCovers(log: seq<Enriched>, u: nat, o: nat)
    requires o < |log| && Counts(log[o], u)
    ensures o <= Straight(log, u).offset
  {
    if o < |log| - 1 {
      OffsetCovers(log[..|log| - 1], u, o);
    }
  }

  // A record delivered again changes nothing, however far the reader has got.
  lemma RedeliveryIsInert(log: seq<Enriched>, u: nat, o: nat)
    requires o < |log|
    ensures Delivered(Straight(log, u), o, log[o], u) == Straight(log, u)
  {
    if Counts(log[o], u) {
      OffsetCovers(log, u, o);
    }
  }
}
