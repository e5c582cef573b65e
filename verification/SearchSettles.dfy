/**
 * Liveness of the search index: once the catalogue rests and nothing fails, whatever happened
 * before, every continuation is finite and ends with a finished reindex and all events consumed.
 */
module SearchSettles {
  import opened Common
  import opened SearchDocuments
  import opened SearchIndex

  // Steps in which nothing fails and nothing is written: an indexer takes what is not consumed, a
  // reindex is started only if none has finished.
  predicate Smooth(s: Sys, a: Action)
  {
    && Enabled(s, a)
    && match a
       case Write(_) => false
       case Take(i, _) => i !in s.consumed
       case Lose(_) => false
       case StartScan => !s.complete
       case Abort => false
       case _ => true
  }

  // Nothing is left to do.
  predicate AtRest(s: Sys)
  {
    Settled(s) && s.jobs == map[] && s.phase.Idle?
  }

  // ---- The measure --------------------------------------------------------------------------

  function WorkCost(w: Work): (n: int)
    ensures 0 <= n <= 2 * |w.ids|
  {
    2 * |w.ids| - (if w.inHand && w.ids != [] then 1 else 0)
  }

  // What the indexers have still to do for event i.
  function EventCost(s: Sys, i: nat): (n: int)
    requires i < |s.events|
    ensures 0 <= n
  {
    if i in s.jobs then WorkCost(s.jobs[i]) + 1
    else if i in s.consumed then 0
    else 2 * |AffectedSet(s.db, s.events[i])| + 2
  }

  function EventCosts(s: Sys): (xs: seq<int>)
    ensures |xs| == |s.events|
  {
    seq(|s.events|, i requires 0 <= i < |s.events| => EventCost(s, i))
  }

  function ReplayCost(db: Tables, events: seq<Change>, next: nat, end: nat): (n: int)
    requires next <= end <= |events|
    ensures 0 <= n
    decreases end - next
  {
    if next == end then 0 else 2 * |AffectedSet(db, events[next])| + 1 + ReplayCost(db, events, next + 1, end)
  }

  function Beyond(db: Tables, cursor: nat): set<nat>
  {
    set p | p in db.products && cursor < p
  }

  predicate PhaseOk(s: Sys)
  {
    match s.phase
    case Idle => true
    case Scanning(since, _, _, w, done) => since <= |s.events| && (done ==> w.ids == [])
    case Swapped(since) => since <= |s.events|
    case Replaying(next, end, _) => next <= end <= |s.events|
  }

  // What the reindex has still to do.
  function PhaseCost(s: Sys): (n: int)
    requires PhaseOk(s)
    ensures 0 <= n
  {
    match s.phase
    case Idle => if s.complete then 0 else 3 * |s.db.products| + 5
    case Scanning(since, _, cursor, w, done) =>
      (if done then 0 else 3 * |Beyond(s.db, cursor)| + 1) + WorkCost(w) + 3 + ReplayCost(s.db, s.events, since, |s.events|)
    case Swapped(since) => 2 + ReplayCost(s.db, s.events, since, |s.events|)
    case Replaying(next, end, w) => 1 + WorkCost(w) + ReplayCost(s.db, s.events, next, end)
  }

  function Left(s: Sys): int
    requires PhaseOk(s)
  {
    Sum(EventCosts(s)) + PhaseCost(s)
  }

  lemma InvPhase(s: Sys)
    requires Inv(s)
    ensures PhaseOk(s) && JobsInv(s)
  {
    hide Doc, Affects, Look, ChangedIn;
  }

  lemma LeftIsNatural(s: Sys)
    requires PhaseOk(s)
    ensures 0 <= Left(s)
  {
    NonNegativeSum(EventCosts(s));
  }

  lemma {:induction false} NonNegativeSum(xs: seq<int>)
    requires forall i :: 0 <= i < |xs| ==> 0 <= xs[i]
    ensures 0 <= Sum(xs)
  {
    if xs != [] {
      NonNegativeSum(xs[..|xs| - 1]);
    }
  }

  lemma {:induction false} DistinctCount(ids: seq<nat>, ps: set<nat>)
    requires Distinct(ids) && forall p :: p in ids <==> p in ps
    ensures |ids| == |ps|
  {
    if ids == [] {
      assert ps == {};
    } else {
      var init, last := ids[..|ids| - 1], ids[|ids| - 1];
      assert ids == init + [last];
      DistinctCount(init, ps - {last});
      assert ps == (ps - {last}) + {last};
    }
  }

  lemma AffectedCount(db: Tables, e: Change, ids: seq<nat>)
    requires AffectedIds(db, e, ids)
    ensures |ids| == |AffectedSet(db, e)|
  {
    hide Affects;
    DistinctCount(ids, AffectedSet(db, e));
  }

  // ---- Every smooth step makes progress -----------------------------------------------------

  // A step of an indexer changes the cost of its own event.
  lemma EventChanges(s: Sys, s': Sys, i: nat)
    requires s'.db == s.db && s'.events == s.events && i < |s.events|
    requires forall j :: 0 <= j < |s.events| && j != i ==>
      (j in s'.jobs <==> j in s.jobs) && (j in s.jobs ==> s'.jobs[j] == s.jobs[j]) && (j in s'.consumed <==> j in s.consumed)
    ensures Sum(EventCosts(s')) == Sum(EventCosts(s)) - EventCost(s, i) + EventCost(s', i)
  {
    assert EventCosts(s') == EventCosts(s)[i := EventCost(s', i)];
    SumUpdate(EventCosts(s), i, EventCost(s', i));
  }

  // It changes nothing else, and that cost gets less.
  lemma IndexerCost(s: Sys, a: Action)
    requires JobsInv(s) && Smooth(s, a) && OfIndexer(a)
    ensures a.event < |s.events|
    ensures var s' := Apply(s, a);
      && s'.db == s.db && s'.events == s.events && s'.phase == s.phase && s'.complete == s.complete
      && EventCost(s', a.event) < EventCost(s, a.event)
  {
    hide Affects, Doc, Put, AffectedIds, Concerns, AffectedSet;
    if a.Take? {
      AffectedCount(s.db, s.events[a.event], a.ids);
    }
  }

  lemma IndexerFrame(s: Sys, a: Action)
    requires Smooth(s, a) && OfIndexer(a)
    ensures var s' := Apply(s, a);
      forall j :: j != a.event ==>
        (j in s'.jobs <==> j in s.jobs) && (j in s.jobs ==> s'.jobs[j] == s.jobs[j]) && (j in s'.consumed <==> j in s.consumed)
  {
    hide Affects, Doc, Put, AffectedIds;
  }

  lemma SamePhase(s: Sys, s': Sys)
    requires PhaseOk(s) && s'.db == s.db && s'.events == s.events && s'.phase == s.phase && s'.complete == s.complete
    ensures PhaseOk(s') && PhaseCost(s') == PhaseCost(s)
  {
    hide ReplayCost, Beyond;
  }

  lemma IndexerProgress(s: Sys, a: Action)
    requires JobsInv(s) && PhaseOk(s) && Smooth(s, a) && OfIndexer(a)
    ensures PhaseOk(Apply(s, a)) && Left(Apply(s, a)) < Left(s)
  {
    hide Apply, Enabled, JobsInv, PhaseOk, PhaseCost, EventCosts, EventCost;
    var s' := Apply(s, a);
    IndexerCost(s, a);
    IndexerFrame(s, a);
    SamePhase(s, s');
    EventChanges(s, s', a.event);
  }

  lemma SameEvents(s: Sys, s': Sys)
    requires s'.db == s.db && s'.events == s.events && s'.jobs == s.jobs && s'.consumed == s.consumed
    ensures EventCosts(s') == EventCosts(s)
  {
    hide AffectedSet;
  }

  lemma PageCount(db: Tables, cursor: nat, ids: seq<nat>)
    requires PageAfter(db, cursor, ids)
    ensures |Beyond(db, ids[|ids| - 1])| == |Beyond(db, cursor)| - |ids| && |ids| > 0
  {
    var last := ids[|ids| - 1];
    var page := Beyond(db, cursor) - Beyond(db, last);
    forall p
      ensures p in ids <==> p in page
    {
      if p in page {
        assert p == last || p < last;
      }
    }
    DistinctCount(ids, page);
    assert Beyond(db, cursor) == page + Beyond(db, last);
  }

  lemma BeyondFits(db: Tables, cursor: nat)
    ensures |Beyond(db, cursor)| <= |db.products|
  {
    assert Beyond(db, cursor) <= db.products.Keys && |db.products.Keys| == |db.products|;
    SubsetSize(Beyond(db, cursor), db.products.Keys);
  }

  lemma ScanProgress(s: Sys, a: Action)
    requires PhaseOk(s) && Smooth(s, a) && (OfScan(a) || a.SwitchAlias?)
    ensures PhaseOk(Apply(s, a)) && Left(Apply(s, a)) < Left(s)
  {
    hide Affects, Doc, PageAfter, AffectedSet, EventCosts, Beyond, PhaseCost;
    var s' := Apply(s, a);
    SameEvents(s, s');
    ScanCosts(s, a);
  }

  lemma ScanCosts(s: Sys, a: Action)
    requires PhaseOk(s) && Smooth(s, a) && (OfScan(a) || a.SwitchAlias?)
    ensures PhaseOk(Apply(s, a)) && PhaseCost(Apply(s, a)) < PhaseCost(s)
  {
    hide Affects, Doc, PageAfter, AffectedSet, ReplayCost, Beyond, Look;
    NoReplay(s.db, s.events, |s.events|);
    BeyondFits(s.db, 0);
    if a.NextPage? {
      PageCount(s.db, s.phase.cursor, a.ids);
    }
  }

  lemma NoReplay(db: Tables, events: seq<Change>, n: nat)
    requires n <= |events|
    ensures ReplayCost(db, events, n, n) == 0
  {
  }

  lemma ReplayProgress(s: Sys, a: Action)
    requires PhaseOk(s) && Smooth(s, a) && OfReplay(a)
    ensures PhaseOk(Apply(s, a)) && Left(Apply(s, a)) < Left(s)
  {
    hide Affects, Doc, Put, AffectedIds, AffectedSet, EventCosts;
    var s' := Apply(s, a);
    SameEvents(s, s');
    if a.ReplayEvent? {
      AffectedCount(s.db, s.events[s.phase.next], a.ids);
    }
  }

  lemma SmoothProgress(s: Sys, a: Action)
    requires Inv(s) && Smooth(s, a)
    ensures Inv(Apply(s, a)) && PhaseOk(s) && PhaseOk(Apply(s, a)) && 0 <= Left(Apply(s, a)) < Left(s)
  {
    hide Inv, Sound, OneHand, Enabled, Apply, Left, PhaseOk;
    NextKeeps(s, a);
    InvPhase(s);
    if OfIndexer(a) {
      IndexerProgress(s, a);
    } else if OfReplay(a) {
      ReplayProgress(s, a);
    } else {
      ScanProgress(s, a);
    }
    LeftIsNatural(Apply(s, a));
  }

  // ---- Something can always be done until all is at rest ------------------------------------

  lemma ReadyPage(db: Tables, cursor: nat) returns (ids: seq<nat>)
    requires Beyond(db, cursor) != {}
    ensures PageAfter(db, cursor, ids)
  {
    var all := Ordered(Beyond(db, cursor));
    assert all != [] by {
      var p :| p in Beyond(db, cursor);
      assert p in all;
    }
    ids := if |all| <= PAGE then all else all[..PAGE];
    forall i | 0 <= i < |ids|
      ensures cursor < ids[i] && ids[i] in db.products
    {
      assert all[i] in all;
    }
    forall p | p in db.products && cursor < p && (p < ids[|ids| - 1] || |ids| < PAGE)
      ensures p in ids
    {
      assert p in all;
      var i :| 0 <= i < |all| && all[i] == p;
      assert i < |ids|;
    }
  }

  lemma ReadyIds(db: Tables, e: Change) returns (ids: seq<nat>)
    ensures AffectedIds(db, e, ids)
  {
    hide Affects;
    ids := Ordered(AffectedSet(db, e));
  }

  // The next step of a reindex whose hands are free or about to write.
  lemma ReindexCanMove(s: Sys) returns (a: Action)
    requires PhaseOk(s) && !(s.phase.Idle? && s.complete)
    requires s.phase.Replaying? ==> !(s.phase.todo.inHand && s.phase.todo.ids != [])
    ensures Smooth(s, a) && (OfScan(a) || a.SwitchAlias? || (OfReplay(a) && !a.ReplayOne?))
  {
    hide Affects, Doc, AffectedIds, PageAfter;
    match s.phase {
      case Idle => a := StartScan;
      case Swapped(_) => a := ReadOutbox;
      case Scanning(_, _, cursor, w, done) =>
        if w.ids != [] {
          a := if w.inHand then ScanOne(Doc(s.db, w.ids[0])) else ScanOpen;
        } else if done {
          a := SwitchAlias;
        } else if Beyond(s.db, cursor) != {} {
          var ids := ReadyPage(s.db, cursor);
          a := NextPage(ids);
        } else {
          assert forall p :: p in s.db.products ==> p !in Beyond(s.db, cursor);
          a := EndScan;
        }
      case Replaying(next, end, w) =>
        if w.ids != [] {
          a := ReplayOpen;
        } else if next == end {
          a := EndReplay;
        } else {
          var ids := ReadyIds(s.db, s.events[next]);
          a := ReplayEvent(ids);
        }
    }
  }

  // Nobody who writes to the live index has a product in hand.
  ghost predicate Free(s: Sys)
  {
    && (forall i, p: nat :: i in s.jobs ==> !Holds(s.jobs[i], p))
    && (forall p: nat :: s.phase.Replaying? ==> !Holds(s.phase.todo, p))
  }

  lemma Enablement(s: Sys) returns (a: Action)
    requires Inv(s) && !AtRest(s)
    ensures Smooth(s, a) && (OneHand(s) ==> OneHand(Apply(s, a)))
  {
    hide Inv, Affects, Doc, AffectedIds, PageAfter, Put, OneHand;
    InvPhase(s);
    if i :| i in s.jobs && s.jobs[i].inHand && s.jobs[i].ids != [] {
      a := Rebuild(i, Doc(s.db, s.jobs[i].ids[0]));
      WritingFrees(s, a);
    } else if s.phase.Replaying? && s.phase.todo.inHand && s.phase.todo.ids != [] {
      a := ReplayOne(Doc(s.db, s.phase.todo.ids[0]));
      WritingFrees(s, a);
    } else if i :| i in s.jobs {
      a := if s.jobs[i].ids == [] then Finish(i) else Open(i);
      FreeStep(s, a);
    } else if i :| 0 <= i < |s.events| && i !in s.consumed {
      var ids := ReadyIds(s.db, s.events[i]);
      a := Take(i, ids);
      FreeStep(s, a);
    } else {
      assert s.jobs == map[];
      a := ReindexCanMove(s);
      FreeStep(s, a);
    }
  }

  lemma WritingFrees(s: Sys, a: Action)
    requires Enabled(s, a) && (a.Rebuild? || a.ReplayOne?)
    ensures OneHand(s) ==> OneHand(Apply(s, a))
  {
    hide Doc, Put;
  }

  lemma FreeStep(s: Sys, a: Action)
    requires Enabled(s, a) && !a.Write? && Free(s)
    ensures OneHand(Apply(s, a))
  {
    hide Doc, Put, Affects, AffectedIds, PageAfter;
  }

  // ---- Continuations ------------------------------------------------------------------------

  predicate SmoothRun(states: seq<Sys>, actions: seq<Action>)
  {
    && |states| == |actions| + 1
    && forall i :: 0 <= i < |actions| ==> Smooth(states[i], actions[i]) && states[i + 1] == Apply(states[i], actions[i])
  }

  lemma SmoothEnabled(s: Sys, a: Action)
    requires Smooth(s, a)
    ensures Enabled(s, a)
  {
  }

  lemma {:induction false} SmoothRunsAreShort(states: seq<Sys>, actions: seq<Action>, n: nat)
    requires SmoothRun(states, actions) && n < |states| && Inv(states[0])
    ensures Inv(states[n]) && PhaseOk(states[0]) && PhaseOk(states[n]) && 0 <= Left(states[n]) <= Left(states[0]) - n
  {
    hide Inv, Apply, Smooth, Left, PhaseOk;
    InvPhase(states[0]);
    if n == 0 {
      LeftIsNatural(states[0]);
    } else {
      SmoothRunsAreShort(states, actions, n - 1);
      SmoothProgress(states[n - 1], actions[n - 1]);
    }
  }

  lemma {:induction false} SmoothRunKeepsSound(states: seq<Sys>, actions: seq<Action>, n: nat)
    requires SmoothRun(states, actions) && n < |states| && Sound(states[0]) && OneHanded(states, n)
    ensures Sound(states[n])
  {
    hide Sound, Inv, OneHand, Apply, Enabled, Smooth;
    if n > 0 {
      SmoothRunKeepsSound(states, actions, n - 1);
      SoundInv(states[n - 1]);
      SmoothEnabled(states[n - 1], actions[n - 1]);
      NextKeeps(states[n - 1], actions[n - 1]);
    }
  }

  lemma SoundInv(s: Sys)
    requires Sound(s)
    ensures Inv(s) && OneHand(s)
  {
  }

  // Main theorem. From any reachable state, whatever failed before, let the catalogue rest and
  // failures stop. Then no continuation takes more than Left steps, and one that cannot be extended
  // ends at rest: a reindex has finished and every event is consumed. If no product has been in two
  // hands all along, the index is then faithful.
  lemma QuietContinuationSettles(past: seq<Sys>, done: seq<Action>, states: seq<Sys>, actions: seq<Action>)
    requires Run(past, done) && SmoothRun(states, actions) && states[0] == past[|done|]
    ensures PhaseOk(states[0]) && |actions| <= Left(states[0])
    ensures (forall a :: !Smooth(states[|actions|], a)) ==> AtRest(states[|actions|])
    ensures (forall a :: !Smooth(states[|actions|], a)) && OneHanded(past, |done|) && OneHanded(states, |actions|) ==>
              Faithful(states[|actions|])
  {
    hide Smooth, Apply, Enabled, Left, Next, Initial, Inv, Sound, OneHanded, Faithful, PhaseOk;
    RunKeepsInv(past, done, |done|);
    SmoothRunsAreShort(states, actions, |actions|);
    var s := states[|actions|];
    if !AtRest(s) {
      var a := Enablement(s);
    } else if OneHanded(past, |done|) && OneHanded(states, |actions|) {
      RunKeepsSound(past, done, |done|);
      SmoothRunKeepsSound(states, actions, |actions|);
      SettledIsFaithful(s);
    }
  }

  // There is always such a continuation that keeps every product in one hand, step by step.
  lemma {:induction false} SomeContinuationSettles(s: Sys) returns (states: seq<Sys>, actions: seq<Action>)
    requires Inv(s) && OneHand(s)
    ensures SmoothRun(states, actions) && states[0] == s && AtRest(states[|actions|]) && OneHanded(states, |actions|)
    ensures Sound(s) ==> Faithful(states[|actions|])
    decreases if PhaseOk(s) then Left(s) else 0
  {
    hide Inv, Sound, OneHand, Apply, Enabled, Left, Smooth, AtRest, Faithful, PhaseOk;
    InvPhase(s);
    LeftIsNatural(s);
    if AtRest(s) {
      states, actions := [s], [];
      if Sound(s) {
        RestIsFaithful(s);
      }
    } else {
      var a := Enablement(s);
      SmoothProgress(s, a);
      SmoothEnabled(s, a);
      NextKeeps(s, a);
      var rest, more := SomeContinuationSettles(Apply(s, a));
      states, actions := [s] + rest, [a] + more;
      assert forall i :: 0 <= i <= |more| ==> OneHand(rest[i]);
    }
  }

  lemma RestIsFaithful(s: Sys)
    requires Sound(s) && AtRest(s)
    ensures Faithful(s)
  {
    hide Sound, Faithful, Settled;
    SettledIsFaithful(s);
  }
}
