/**
 * Where the 256-id window ends: two runs in which an event counts twice. One repeats a lookup
 * with another answer; in the other, batches reach the log with their first half missing.
 */
module ProfileLimits {
  import opened Common
  import opened ProfileWindow
  import opened ProfileRuns

  const USER := 1

  function Raws(n: nat): (rs: seq<Raw>)
    ensures |rs| == n
  {
    seq(n, i requires 0 <= i < n => Raw(i, USER, 1, true))
  }

  // Copies of events from..to, all with or all without categories.
  function Slice(from: nat, to: nat, categories: seq<nat>): (cs: seq<Enriched>)
    requires from <= to
    ensures |cs| == to - from
  {
    seq(to - from, i requires 0 <= i < to - from => Enriched(from + i, from + i, USER, 1, categories))
  }

  function Numbers(from: nat, to: nat): (ns: seq<nat>)
    requires from <= to
    ensures |ns| == to - from
  {
    seq(to - from, i requires 0 <= i < to - from => from + i)
  }

  lemma FirstsSnoc(log: seq<Enriched>, r: Enriched)
    ensures Firsts(log + [r], USER) ==
      if Counts(r, USER) && r.id !in Firsts(log, USER) then Firsts(log, USER) + [r.id] else Firsts(log, USER)
  {
    assert (log + [r])[..|log|] == log;
  }

  lemma SliceSnoc(log: seq<Enriched>, from: nat, to: nat, categories: seq<nat>)
    requires from < to
    ensures log + Slice(from, to, categories) == log + Slice(from, to - 1, categories) + [Enriched(to - 1, to - 1, USER, 1, categories)]
  {
    assert Slice(from, to, categories) == Slice(from, to - 1, categories) + [Enriched(to - 1, to - 1, USER, 1, categories)];
  }

  lemma {:induction false} FirstsOfSlice(log: seq<Enriched>, from: nat, to: nat)
    requires from <= to && forall id :: id in Firsts(log, USER) ==> !(from <= id < to)
    ensures Firsts(log + Slice(from, to, [7]), USER) == Firsts(log, USER) + Numbers(from, to)
  {
    hide Firsts;
    if from == to {
      assert log + Slice(from, to, [7]) == log;
    } else {
      FirstsOfSlice(log, from, to - 1);
      SliceSnoc(log, from, to, [7]);
      FirstsSnoc(log + Slice(from, to - 1, [7]), Enriched(to - 1, to - 1, USER, 1, [7]));
      assert Numbers(from, to) == Numbers(from, to - 1) + [to - 1];
    }
  }

  lemma {:induction false} FirstsOfBlanks(log: seq<Enriched>, from: nat, to: nat)
    requires from <= to
    ensures Firsts(log + Slice(from, to, []), USER) == Firsts(log, USER)
  {
    hide Firsts;
    if from == to {
      assert log + Slice(from, to, []) == log;
    } else {
      FirstsOfBlanks(log, from, to - 1);
      SliceSnoc(log, from, to, []);
      FirstsSnoc(log + Slice(from, to - 1, []), Enriched(to - 1, to - 1, USER, 1, []));
    }
  }

  lemma {:induction false} FirstsOfRepeats(log: seq<Enriched>, from: nat, to: nat)
    requires from <= to && forall id :: from <= id < to ==> id in Firsts(log, USER)
    ensures Firsts(log + Slice(from, to, [7]), USER) == Firsts(log, USER)
  {
    hide Firsts;
    if from == to {
      assert log + Slice(from, to, [7]) == log;
    } else {
      FirstsOfRepeats(log, from, to - 1);
      SliceSnoc(log, from, to, [7]);
      FirstsSnoc(log + Slice(from, to - 1, [7]), Enriched(to - 1, to - 1, USER, 1, [7]));
    }
  }

  lemma NoFirsts()
    ensures Firsts([], USER) == []
  {
  }

  lemma Extend(states: seq<Sys>, actions: seq<Action>, a: Action) returns (states': seq<Sys>, actions': seq<Action>)
    requires Run(states, actions) && Enabled(states[|actions|], a)
    ensures Run(states', actions') && |states'| == |actions'| + 1 && states'[|actions'|] == Apply(states[|actions|], a)
    ensures OrderlyRun(states, actions) && (a.Attempt? ==> Orderly(states[|actions|], a.copies)) ==> OrderlyRun(states', actions')
  {
    hide Enabled, Apply, Orderly, Initial;
    states', actions' := states + [Apply(states[|actions|], a)], actions + [a];
  }

  lemma {:induction false} Filled(n: nat) returns (states: seq<Sys>, actions: seq<Action>)
    ensures Run(states, actions) && |states| == |actions| + 1 && OrderlyRun(states, actions)
    ensures states[|actions|] == Sys(Raws(n), 0, [], 0, 0, 0, map[])
  {
    if n == 0 {
      states, actions := [Sys([], 0, [], 0, 0, 0, map[])], [];
    } else {
      states, actions := Filled(n - 1);
      states, actions := Extend(states, actions, Receive(Raw(n - 1, USER, 1, true)));
      assert Raws(n) == Raws(n - 1) + [Raw(n - 1, USER, 1, true)];
    }
  }

  lemma Published(s: Sys, size: nat, copies: seq<Enriched>, from: nat, to: nat, categories: seq<nat>, done: bool)
    requires s.raw == Raws(399) && 1 <= size <= BATCH && s.committed + size <= 399
    requires s.committed <= from <= to <= s.committed + size && copies == Slice(from, to, categories)
    requires done ==> from == s.committed && to == from + size
    ensures Enabled(s, Attempt(size, copies, done))
    ensures from == s.committed ==> Orderly(s, copies)
  {
    if done {
      forall x | s.committed <= x < s.committed + size && s.raw[x].valid
        ensures Copied(copies, x)
      {
        assert copies[x - from].source == x;
      }
    }
    if from == s.committed {
      forall i, y | 0 <= i < |copies| && s.committed <= y < copies[i].source && y < |s.raw| && s.raw[y].valid
        ensures Copied(s.log + copies[..i], y)
      {
        assert (s.log + copies[..i])[|s.log| + y - from].source == y;
      }
    }
  }

  lemma Evicted(log: seq<Enriched>, last: Enriched, f: seq<nat>, i: nat)
    requires Firsts(log, USER) == f && |f| > RECENT && i < |f| - RECENT && f[i] == last.id && Counts(last, USER)
    ensures !NoRepeats(Straight(log + [last], USER).applied)
  {
    var whole := log + [last];
    assert whole[..|log|] == log;
    forall j | 0 <= j < |Tail(f)|
      ensures Tail(f)[j] != last.id
    {
      assert Tail(f)[j] == f[|f| - RECENT + j];
    }
    assert StaleAt(whole, USER, |log|);
    CountsOnceIffNeverStale(whole, USER);
  }

  // ---- Reading the log ----------------------------------------------------------------------

  lemma {:induction false} SomeOf(all: set<nat>, n: nat) returns (some: set<nat>)
    requires n <= |all|
    ensures some <= all && |some| == n
    decreases |all|
  {
    if n == |all| {
      some := all;
    } else {
      var x :| x in all;
      some := SomeOf(all - {x}, n);
    }
  }

  lemma CanRead(s: Sys) returns (keep: set<nat>)
    requires ProfilesInv(s) && s.read < |s.log|
    ensures Enabled(s, Deliver(keep))
  {
    var r := s.log[s.read];
    ProfileCore(s, r.user);
    var all := Scored(ProfileOf(s, r.user), r);
    keep := SomeOf(all, if |all| < TOP then |all| else TOP);
  }

  // A projector that is never sent back reads everything there is.
  lemma {:induction false} ReadAll(states: seq<Sys>, actions: seq<Action>) returns (states': seq<Sys>, actions': seq<Action>)
    requires Run(states, actions) && |states| == |actions| + 1
    ensures Run(states', actions') && |states'| == |actions'| + 1
    ensures OrderlyRun(states, actions) ==> OrderlyRun(states', actions')
    ensures var s, s' := states[|actions|], states'[|actions'|];
      s'.raw == s.raw && s'.log == s.log && s'.read == |s'.log| && ProfilesInv(s')
    decreases |states[|actions|].log| - states[|actions|].read
  {
    hide Run, OrderlyRun, Orderly, Enabled, Projected, Straight;
    RunKeeps(states, actions, |actions|);
    var s := states[|actions|];
    states', actions' := states, actions;
    if s.read < |s.log| {
      var keep := CanRead(s);
      states', actions' := Extend(states, actions, Deliver(keep));
      DeliverMoves(s, keep);
      states', actions' := ReadAll(states', actions');
    }
  }

  lemma DeliverMoves(s: Sys, keep: set<nat>)
    requires Enabled(s, Deliver(keep))
    ensures var s' := Apply(s, Deliver(keep)); s'.raw == s.raw && s'.log == s.log && s'.read == s.read + 1
  {
    hide Projected;
  }

  // A profile that has read the whole log has counted what a straight read counts.
  lemma ReadMeans(s: Sys)
    requires ProfilesInv(s) && s.read == |s.log|
    ensures ProfileOf(s, USER).core == Straight(s.log, USER)
  {
    hide Straight;
    ProfileCore(s, USER);
    assert s.log[..s.high] == s.log;
  }

  // ---- The two runs -------------------------------------------------------------------------

  // A lookup that finds no category for 199 events, and some when the batch is repeated, lets the
  // event after them be pushed out of the window before its own batch commits.
  lemma LookupsMustRepeat() returns (states: seq<Sys>, actions: seq<Action>)
    ensures Run(states, actions) && |states| == |actions| + 1 && OrderlyRun(states, actions)
    ensures states[|actions|].read == |states[|actions|].log| && !NoRepeats(ProfileOf(states[|actions|], USER).core.applied)
  {
    hide Enabled, Orderly, OrderlyRun, Run, Firsts, Straight, NoRepeats, ProfilesInv, ProfileOf, FirstBatch;
    states, actions := Filled(399);
    var s := states[|actions|];
    FirstPublished(s);
    states, actions := Extend(states, actions, Attempt(200, FirstBatch(), false));
    var s1 := states[|actions|];
    Published(s1, 199, Slice(0, 199, [7]), 0, 199, [7], true);
    states, actions := Extend(states, actions, Attempt(199, Slice(0, 199, [7]), true));
    var s2 := states[|actions|];
    Published(s2, 200, Slice(199, 399, [7]), 199, 399, [7], false);
    states, actions := Extend(states, actions, Attempt(200, Slice(199, 399, [7]), false));
    var s3 := states[|actions|];
    Published(s3, 1, Slice(199, 200, [7]), 199, 200, [7], false);
    states, actions := Extend(states, actions, Attempt(1, Slice(199, 200, [7]), false));
    UnstableLog();
    assert s3.log == UnstableHistory();
    assert Slice(199, 200, [7]) == [Enriched(199, 199, USER, 1, [7])];
    Evicted(s3.log, Enriched(199, 199, USER, 1, [7]), [199] + Numbers(0, 199) + Numbers(200, 399), 0);
    states, actions := ReadAll(states, actions);
    ReadMeans(states[|actions|]);
  }

  // The first batch in full: only its last event has a category.
  function FirstBatch(): (cs: seq<Enriched>)
    ensures |cs| == 200
  {
    Slice(0, 199, []) + Slice(199, 200, [7])
  }

  lemma FirstPublished(s: Sys)
    requires s.raw == Raws(399) && s.committed == 0 && s.log == []
    ensures Enabled(s, Attempt(200, FirstBatch(), false)) && Orderly(s, FirstBatch())
  {
    var copies := FirstBatch();
    assert forall i :: 0 <= i < |copies| ==> copies[i].source == i && IsCopy(s.raw, copies[i]);
    forall i, y | 0 <= i < |copies| && s.committed <= y < copies[i].source && y < |s.raw| && s.raw[y].valid
      ensures Copied(s.log + copies[..i], y)
    {
      assert (s.log + copies[..i])[y].source == y;
    }
  }

  function UnstableHistory(): seq<Enriched>
  {
    [] + FirstBatch() + Slice(0, 199, [7]) + Slice(199, 399, [7])
  }

  lemma UnstableLog()
    ensures Firsts(UnstableHistory(), USER) == [199] + Numbers(0, 199) + Numbers(200, 399)
  {
    hide Firsts;
    NoFirsts();
    var a: seq<Enriched> := [];
    FirstsOfBlanks(a, 0, 199);
    var b := a + Slice(0, 199, []);
    FirstsOfSlice(b, 199, 200);
    assert Numbers(199, 200) == [199] && Firsts(b, USER) == [];
    var c := b + Slice(199, 200, [7]);
    FirstsOfSlice(c, 0, 199);
    var d := c + Slice(0, 199, [7]);
    FirstsOfRepeats(d, 199, 200);
    var e := d + Slice(199, 200, [7]);
    FirstsOfSlice(e, 200, 399);
    assert Slice(199, 399, [7]) == Slice(199, 200, [7]) + Slice(200, 399, [7]);
    assert [] + FirstBatch() == c;
    assert UnstableHistory() == e + Slice(200, 399, [7]);
  }

  // Batches whose first hundred messages are lost while the second hundred lands do the same,
  // with every lookup repeating its answer.
  lemma BatchesMustLandInOrder() returns (states: seq<Sys>, actions: seq<Action>)
    ensures Run(states, actions) && |states| == |actions| + 1 && Stable(states[|actions|].log)
    ensures states[|actions|].read == |states[|actions|].log| && !NoRepeats(ProfileOf(states[|actions|], USER).core.applied)
  {
    hide Enabled, Run, Firsts, Straight, NoRepeats, Orderly, OrderlyRun, ProfilesInv, ProfileOf;
    states, actions := Filled(399);
    states, actions := Lands(states, actions, 200, 100, 200, false);
    states, actions := Lands(states, actions, 100, 0, 100, true);
    states, actions := Lands(states, actions, 200, 200, 300, false);
    states, actions := Lands(states, actions, 99, 100, 199, true);
    states, actions := Lands(states, actions, 200, 299, 399, false);
    ghost var log := states[|actions|].log;
    states, actions := Lands(states, actions, 1, 199, 200, false);
    GappedLog();
    assert log == GappedHistory();
    assert Slice(199, 200, [7]) == [Enriched(199, 199, USER, 1, [7])];
    Evicted(log, Enriched(199, 199, USER, 1, [7]), Numbers(100, 200) + Numbers(0, 100) + Numbers(200, 300) + Numbers(300, 399), 99);
    states, actions := ReadAll(states, actions);
    ReadMeans(states[|actions|]);
  }

  lemma Lands(states: seq<Sys>, actions: seq<Action>, size: nat, from: nat, to: nat, done: bool)
    returns (states': seq<Sys>, actions': seq<Action>)
    requires Run(states, actions) && |states| == |actions| + 1
    requires states[|actions|].raw == Raws(399) && 1 <= size <= BATCH && states[|actions|].committed + size <= 399
    requires states[|actions|].committed <= from <= to <= states[|actions|].committed + size
    requires done ==> from == states[|actions|].committed && to == from + size
    requires forall n :: 0 <= n < |states[|actions|].log| ==> states[|actions|].log[n].categories == [7]
    ensures Run(states', actions') && |states'| == |actions'| + 1
    ensures var s, s' := states[|actions|], states'[|actions'|];
      && s'.raw == s.raw && s'.log == s.log + Slice(from, to, [7]) && s'.committed == (if done then s.committed + size else s.committed)
      && (forall n :: 0 <= n < |s'.log| ==> s'.log[n].categories == [7])
  {
    hide Enabled, Run;
    Published(states[|actions|], size, Slice(from, to, [7]), from, to, [7], done);
    states', actions' := Extend(states, actions, Attempt(size, Slice(from, to, [7]), done));
  }

  function GappedHistory(): seq<Enriched>
  {
    [] + Slice(100, 200, [7]) + Slice(0, 100, [7]) + Slice(200, 300, [7]) + Slice(100, 199, [7]) + Slice(299, 399, [7])
  }

  lemma GappedLog()
    ensures Firsts(GappedHistory(), USER) == Numbers(100, 200) + Numbers(0, 100) + Numbers(200, 300) + Numbers(300, 399)
  {
    hide Firsts;
    NoFirsts();
    var a: seq<Enriched> := [];
    FirstsOfSlice(a, 100, 200);
    var b := a + Slice(100, 200, [7]);
    FirstsOfSlice(b, 0, 100);
    var c := b + Slice(0, 100, [7]);
    FirstsOfSlice(c, 200, 300);
    var d := c + Slice(200, 300, [7]);
    var f := Firsts(d, USER);
    forall id: nat | 100 <= id < 199
      ensures id in f
    {
      assert f[id - 100] == id;
    }
    FirstsOfRepeats(d, 100, 199);
    var e := d + Slice(100, 199, [7]);
    assert f[299] == 299;
    FirstsOfRepeats(e, 299, 300);
    var g := e + Slice(299, 300, [7]);
    FirstsOfSlice(g, 300, 399);
    assert Slice(299, 399, [7]) == Slice(299, 300, [7]) + Slice(300, 399, [7]);
    assert GappedHistory() == g + Slice(300, 399, [7]);
  }
}
