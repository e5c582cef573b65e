/**
 * Liveness of the notification pipeline: once failures stop, whatever happened before, every
 * continuation ends with all rows published, all offsets committed and every event notified.
 */
module PipelineDrain {
  import opened Common
  import opened Notifications
  import opened Pipeline

  predicate Held(relays: seq<Relay>, id: nat)
  {
    exists r :: 0 <= r < |relays| && id in relays[r].queue
  }

  function PendingRows(rows: map<nat, Row>): set<nat>
  {
    set id | id in rows && rows[id].state == Pending
  }

  // Claims whose relay is gone.
  function Orphans(rows: map<nat, Row>, relays: seq<Relay>): set<nat>
  {
    set id | id in rows && rows[id].state == Publishing && !Held(relays, id)
  }

  // One group member per partition, standing at the committed offset.
  predicate Attached(s: Sys)
  {
    && |s.committed| == |s.log|
    && (forall c :: c in s.consumers ==> c < |s.log|)
    && (forall c :: 0 <= c < |s.log| ==> c in s.consumers && s.consumers[c].partition == c && s.consumers[c].offset == s.committed[c])
  }

  // Every consumer restarts: the group hands out the partitions again.
  function Rebalanced(s: Sys): Sys
    requires |s.committed| == |s.log|
  {
    s.(consumers := map c: nat | 0 <= c < |s.log| :: Consumer(c, s.committed[c], false))
  }

  // Steps in which nothing fails. Only claims that no relay still works on are recovered.
  predicate Smooth(s: Sys, a: Action)
  {
    && Enabled(s, a)
    && match a
       case Recover(ids) => ids != {} && ids <= Orphans(s.rows, s.relays)
       case Claim(_, _) => true
       case Publish(_, _) => true
       case Mark(_) => true
       case Handle(_, seen) => seen
       case Commit(_, seen) => seen
       case _ => false
  }

  // ---- The measure --------------------------------------------------------------------------

  function RelayCost(r: Relay): int
  {
    4 * |r.queue| - (if r.written && r.queue != [] then 3 else 0)
  }

  function RelayCosts(relays: seq<Relay>): (xs: seq<int>)
    ensures |xs| == |relays|
  {
    seq(|relays|, i requires 0 <= i < |relays| => RelayCost(relays[i]))
  }

  function PartitionCost(s: Sys, p: nat): int
    requires Attached(s) && p < |s.log|
  {
    2 * (|s.log[p]| - s.committed[p]) - (if s.consumers[p].resolved then 1 else 0)
  }

  function PartitionCosts(s: Sys): (xs: seq<int>)
    requires Attached(s)
    ensures |xs| == |s.log|
  {
    seq(|s.log|, p requires 0 <= p < |s.log| => PartitionCost(s, p))
  }

  ghost predicate Ready(s: Sys)
  {
    Inv(s) && Attached(s)
  }

  function Left(s: Sys): int
    requires Attached(s)
  {
    5 * |PendingRows(s.rows)| + 6 * |Orphans(s.rows, s.relays)| + Sum(RelayCosts(s.relays)) + Sum(PartitionCosts(s))
  }

  lemma LeftIsNatural(s: Sys)
    requires Ready(s)
    ensures Left(s) >= 0
  {
    hide Inv, Attached;
    CostsNonNegative(s);
    assert Sum(RelayCosts(s.relays)) >= 0 by { NonNegativeSum(RelayCosts(s.relays)); }
    assert Sum(PartitionCosts(s)) >= 0 by { NonNegativeSum(PartitionCosts(s)); }
  }

  lemma CostsNonNegative(s: Sys)
    requires Ready(s)
    ensures forall i :: 0 <= i < |s.relays| ==> 0 <= RelayCosts(s.relays)[i]
    ensures forall p :: 0 <= p < |s.log| ==> 0 <= PartitionCosts(s)[p]
  {
    hide Settled, RowsInv, LogInv, RelaysInv, NotificationsInv, DeadInv;
    forall p | 0 <= p < |s.log|
      ensures 0 <= PartitionCosts(s)[p]
    {
      assert SettledBelow(s, p, s.committed[p]);
      assert SettledBelow(s, s.consumers[p].partition, s.consumers[p].offset + if s.consumers[p].resolved then 1 else 0);
    }
  }

  lemma {:induction false} NonNegativeSum(xs: seq<int>)
    requires forall i :: 0 <= i < |xs| ==> 0 <= xs[i]
    ensures 0 <= Sum(xs)
  {
    if xs != [] {
      NonNegativeSum(xs[..|xs| - 1]);
    }
  }

  // ---- Every smooth step makes progress -----------------------------------------------------

  lemma RelayCostChanges(relays: seq<Relay>, r: nat, relay: Relay)
    requires r < |relays|
    ensures Sum(RelayCosts(relays[r := relay])) == Sum(RelayCosts(relays)) - RelayCost(relays[r]) + RelayCost(relay)
  {
    assert RelayCosts(relays[r := relay]) == RelayCosts(relays)[r := RelayCost(relay)];
    SumUpdate(RelayCosts(relays), r, RelayCost(relay));
  }

  lemma PartitionCostChanges(s: Sys, s': Sys, p: nat)
    requires Attached(s) && Attached(s') && |s'.log| == |s.log| && p < |s.log|
    requires forall q :: 0 <= q < |s.log| && q != p ==>
      s'.log[q] == s.log[q] && s'.committed[q] == s.committed[q] && s'.consumers[q] == s.consumers[q]
    ensures Sum(PartitionCosts(s')) == Sum(PartitionCosts(s)) - PartitionCost(s, p) + PartitionCost(s', p)
  {
    assert PartitionCosts(s') == PartitionCosts(s)[p := PartitionCost(s', p)];
    SumUpdate(PartitionCosts(s), p, PartitionCost(s', p));
  }

  lemma SamePartitions(s: Sys, s': Sys)
    requires Attached(s) && s'.log == s.log && s'.committed == s.committed && s'.consumers == s.consumers
    ensures Attached(s') && PartitionCosts(s') == PartitionCosts(s)
  {
  }

  lemma SplitSize(a: set<nat>, b: set<nat>)
    requires a <= b
    ensures |b - a| == |b| - |a|
  {
    assert b == a + (b - a);
  }

  lemma {:induction false} DistinctSize(ids: seq<nat>)
    requires forall i, j :: 0 <= i < j < |ids| ==> ids[i] != ids[j]
    ensures |IdSet(ids)| == |ids|
  {
    if ids != [] {
      var init, last := ids[..|ids| - 1], ids[|ids| - 1];
      DistinctSize(init);
      assert IdSet(ids) == IdSet(init) + {last};
      assert last !in IdSet(init);
    }
  }

  lemma RecoverProgress(s: Sys, ids: set<nat>)
    requires Attached(s) && Smooth(s, Recover(ids))
    ensures var s' := Apply(s, Recover(ids)); Attached(s') && Left(s') < Left(s)
  {
    var s' := Apply(s, Recover(ids));
    SamePartitions(s, s');
    var o, o', p, p' := Orphans(s.rows, s.relays), Orphans(s'.rows, s.relays), PendingRows(s.rows), PendingRows(s'.rows);
    assert p' == p + ids && p !! ids;
    assert o' == o - ids;
    SplitSize(ids, o);
    assert ids - {} == ids && |ids| > 0;
  }

  lemma ClaimProgress(s: Sys, r: nat, ids: seq<nat>)
    requires Attached(s) && Smooth(s, Claim(r, ids))
    ensures var s' := Apply(s, Claim(r, ids)); Attached(s') && Left(s') < Left(s)
  {
    hide Attached;
    var s' := Apply(s, Claim(r, ids));
    SamePartitions(s, s');
    RelayCostChanges(s.relays, r, Relay(ids, false));
    ClaimedSets(s, r, ids);
  }

  lemma ClaimedSets(s: Sys, r: nat, ids: seq<nat>)
    requires Enabled(s, Claim(r, ids))
    ensures var s' := Apply(s, Claim(r, ids));
      |PendingRows(s'.rows)| == |PendingRows(s.rows)| - |ids| && |Orphans(s'.rows, s'.relays)| <= |Orphans(s.rows, s.relays)|
  {
    ClaimedPending(s.rows, ids);
    ClaimedOrphans(s.rows, s.relays, r, ids);
  }

  lemma ClaimedPending(rows: map<nat, Row>, ids: seq<nat>)
    requires forall i :: 0 <= i < |ids| ==> ids[i] in rows && rows[ids[i]].state == Pending
    requires forall i, j :: 0 <= i < j < |ids| ==> ids[i] != ids[j]
    ensures |PendingRows(Restated(rows, IdSet(ids), Publishing))| == |PendingRows(rows)| - |ids|
  {
    assert PendingRows(Restated(rows, IdSet(ids), Publishing)) == PendingRows(rows) - IdSet(ids);
    SplitSize(IdSet(ids), PendingRows(rows));
    DistinctSize(ids);
  }

  lemma ClaimedOrphans(rows: map<nat, Row>, relays: seq<Relay>, r: nat, ids: seq<nat>)
    requires r < |relays| && relays[r].queue == []
    ensures |Orphans(Restated(rows, IdSet(ids), Publishing), relays[r := Relay(ids, false)])| <= |Orphans(rows, relays)|
  {
    var relays' := relays[r := Relay(ids, false)];
    forall id | id in Orphans(Restated(rows, IdSet(ids), Publishing), relays')
      ensures id in Orphans(rows, relays)
    {
      assert id !in relays'[r].queue;
      if Held(relays, id) {
        var k :| 0 <= k < |relays| && id in relays[k].queue;
        assert id in relays'[k].queue;
      }
    }
    SubsetSize(Orphans(Restated(rows, IdSet(ids), Publishing), relays'), Orphans(rows, relays));
  }

  lemma SameHeld(relays: seq<Relay>, r: nat, relay: Relay, id: nat)
    requires r < |relays| && (id in relay.queue <==> id in relays[r].queue)
    ensures Held(relays[r := relay], id) == Held(relays, id)
  {
    if Held(relays, id) {
      var k :| 0 <= k < |relays| && id in relays[k].queue;
      assert id in relays[r := relay][k].queue;
    }
  }

  lemma PublishProgress(s: Sys, r: nat, p: nat)
    requires Attached(s) && Smooth(s, Publish(r, p))
    ensures var s' := Apply(s, Publish(r, p)); Attached(s') && Left(s') < Left(s)
  {
    var s' := Apply(s, Publish(r, p));
    RelayCostChanges(s.relays, r, Relay(s.relays[r].queue, true));
    PartitionCostChanges(s, s', p);
    forall id: nat
      ensures Held(s'.relays, id) == Held(s.relays, id)
    {
      SameHeld(s.relays, r, Relay(s.relays[r].queue, true), id);
    }
    assert Orphans(s'.rows, s'.relays) == Orphans(s.rows, s.relays);
  }

  lemma MarkProgress(s: Sys, r: nat)
    requires Attached(s) && Smooth(s, Mark(r))
    ensures var s' := Apply(s, Mark(r)); Attached(s') && Left(s') < Left(s)
  {
    hide Attached;
    var s' := Apply(s, Mark(r));
    SamePartitions(s, s');
    RelayCostChanges(s.relays, r, s'.relays[r]);
    MarkedSets(s, r);
  }

  lemma MarkedSets(s: Sys, r: nat)
    requires Enabled(s, Mark(r))
    ensures var s' := Apply(s, Mark(r));
      |PendingRows(s'.rows)| <= |PendingRows(s.rows)| && |Orphans(s'.rows, s'.relays)| <= |Orphans(s.rows, s.relays)|
  {
    var s', q := Apply(s, Mark(r)), s.relays[r].queue;
    forall id | id in Orphans(s'.rows, s'.relays)
      ensures id in Orphans(s.rows, s.relays)
    {
      assert id != q[0];
      assert id in q[1..] <==> id in q;
      SameHeld(s.relays, r, s'.relays[r], id);
    }
    SubsetSize(Orphans(s'.rows, s'.relays), Orphans(s.rows, s.relays));
    SubsetSize(PendingRows(s'.rows), PendingRows(s.rows));
  }

  lemma HandleProgress(s: Sys, c: nat)
    requires Attached(s) && Smooth(s, Handle(c, true))
    ensures var s' := Apply(s, Handle(c, true)); Attached(s') && Left(s') < Left(s)
  {
    hide Recipient, Undeliverable, Insert;
    var s' := Apply(s, Handle(c, true));
    EffectElsewhere(s, s.consumers[c].partition, s.consumers[c].offset);
    PartitionCostChanges(s, s', c);
  }

  lemma CommitProgress(s: Sys, c: nat)
    requires Attached(s) && Smooth(s, Commit(c, true))
    ensures var s' := Apply(s, Commit(c, true)); Attached(s') && Left(s') < Left(s)
  {
    var s' := Apply(s, Commit(c, true));
    PartitionCostChanges(s, s', c);
  }

  lemma SmoothProgress(s: Sys, a: Action)
    requires Ready(s) && Smooth(s, a)
    ensures Ready(Apply(s, a)) && 0 <= Left(Apply(s, a)) < Left(s)
  {
    hide Inv, Attached, Enabled, Apply, Left;
    NextKeeps(s, a);
    match a {
      case Recover(ids) => RecoverProgress(s, ids);
      case Claim(r, ids) => ClaimProgress(s, r, ids);
      case Publish(r, p) => PublishProgress(s, r, p);
      case Mark(r) => MarkProgress(s, r);
      case Handle(c, _) => HandleProgress(s, c);
      case Commit(c, _) => CommitProgress(s, c);
    }
    LeftIsNatural(Apply(s, a));
  }

  // ---- Something can always be done until all is drained ------------------------------------

  // Some record read next needs the dead letter topic, and there is none.
  predicate Jammed(s: Sys)
  {
    !s.dlq && exists p :: 0 <= p < |s.log| && JammedAt(s, p)
  }

  predicate JammedAt(s: Sys, p: nat)
    requires p < |s.log|
  {
    p < |s.committed| && s.committed[p] < |s.log[p]| && p in s.consumers && !s.consumers[p].resolved && Undeliverable(s.log[p][s.committed[p]])
  }

  lemma Enablement(s: Sys) returns (a: Action)
    requires Ready(s) && !Drained(s) && !Jammed(s) && 0 < |s.relays| && 0 < |s.log|
    ensures Smooth(s, a)
  {
    if r :| 0 <= r < |s.relays| && s.relays[r].queue != [] {
      QueueKnown(s, r);
      a := if s.relays[r].written then Mark(r) else Publish(r, 0);
    } else if Orphans(s.rows, s.relays) != {} {
      a := Recover(Orphans(s.rows, s.relays));
    } else if id :| id in s.rows && s.rows[id].state == Pending {
      a := Claim(0, [id]);
    } else {
      assert forall id :: id in s.rows ==> s.rows[id].state == Published by {
        forall id | id in s.rows ensures s.rows[id].state == Published {
          assert id !in Orphans(s.rows, s.relays);
        }
      }
      a := ConsumerCanMove(s);
    }
  }

  lemma QueueKnown(s: Sys, r: nat)
    requires Inv(s) && r < |s.relays| && s.relays[r].queue != []
    ensures s.relays[r].queue[0] in s.rows
  {
    assert RelayOk(s.relays[r], s.rows, s.log);
  }

  lemma ConsumerCanMove(s: Sys) returns (a: Action)
    requires Ready(s) && !Drained(s) && !Jammed(s)
    requires forall id :: id in s.rows ==> s.rows[id].state == Published
    ensures Smooth(s, a)
  {
    hide Undeliverable, RowsInv, LogInv, RelaysInv, NotificationsInv, DeadInv, ConsumersInv;
    var p :| 0 <= p < |s.log| && s.committed[p] != |s.log[p]|;
    assert SettledBelow(s, p, s.committed[p]);
    a := if s.consumers[p].resolved then Commit(p, true) else Handle(p, true);
    assert !JammedAt(s, p) || s.dlq;
  }

  // A continuation in which nothing fails.
  predicate SmoothRun(states: seq<Sys>, actions: seq<Action>)
  {
    && |states| == |actions| + 1
    && forall i :: 0 <= i < |actions| ==> Smooth(states[i], actions[i]) && states[i + 1] == Apply(states[i], actions[i])
  }

  // Every smooth continuation is finite: it has at most Left steps.
  lemma {:induction false} SmoothRunsAreShort(states: seq<Sys>, actions: seq<Action>, n: nat)
    requires SmoothRun(states, actions) && n < |states| && Ready(states[0])
    ensures Ready(states[n]) && 0 <= Left(states[n]) <= Left(states[0]) - n
  {
    hide Ready, Attached, Apply, Smooth, Left;
    if n == 0 {
      LeftIsNatural(states[0]);
    } else {
      SmoothRunsAreShort(states, actions, n - 1);
      SmoothProgress(states[n - 1], actions[n - 1]);
    }
  }

  lemma RebalanceIsReady(s: Sys)
    requires Inv(s)
    ensures Ready(Rebalanced(s))
  {
    hide Settled, RowsInv, LogInv, RelaysInv, NotificationsInv, DeadInv;
    var s' := Rebalanced(s);
    forall p: nat, n: nat | SettledBelow(s, p, n)
      ensures SettledBelow(s', p, n)
    {
      StaysSettled(s, s', p, n);
    }
    DeadElsewhere(s, s');
  }

  lemma {:induction false} SameShape(states: seq<Sys>, actions: seq<Action>, n: nat)
    requires SmoothRun(states, actions) && n < |states|
    ensures |states[n].relays| == |states[0].relays| && |states[n].log| == |states[0].log| && states[n].dlq == states[0].dlq
  {
    hide Enabled, Apply;
    if n > 0 {
      SameShape(states, actions, n - 1);
      assert Smooth(states[n - 1], actions[n - 1]);
      StepShape(states[n - 1], actions[n - 1]);
    }
  }

  lemma SmoothEnabled(s: Sys, a: Action)
    requires Smooth(s, a)
    ensures Enabled(s, a)
  {
  }

  // ---- Without a dead letter topic ----------------------------------------------------------

  // Nobody can have written a dead letter that has no topic to go to.
  predicate Silent(s: Sys)
  {
    !s.dlq ==> s.dead == {}
  }

  lemma StepIsSilent(s: Sys, a: Action)
    requires Silent(s) && Enabled(s, a)
    ensures Silent(Apply(s, a))
  {
    hide Recipient, Insert, Appended, Restated;
  }

  lemma {:induction false} RunIsSilent(states: seq<Sys>, actions: seq<Action>, n: nat)
    requires Run(states, actions) && n < |states|
    ensures Silent(states[n]) && states[n].dlq == states[0].dlq
  {
    hide Silent, Enabled, Apply;
    if n == 0 {
      NoLetters(states[0]);
    } else {
      RunIsSilent(states, actions, n - 1);
      assert Next(states[n - 1], actions[n - 1], states[n]);
      StepIsSilent(states[n - 1], actions[n - 1]);
      StepShape(states[n - 1], actions[n - 1]);
    }
  }

  lemma NoLetters(s: Sys)
    requires Initial(s)
    ensures Silent(s)
  {
  }

  lemma {:induction false} RunGrows(states: seq<Sys>, actions: seq<Action>, m: nat, n: nat)
    requires Run(states, actions) && m <= n < |states|
    ensures LogGrows(states[m].log, states[n].log)
    decreases n
  {
    hide Enabled, Apply, Initial;
    if m < n {
      RunGrows(states, actions, m, n - 1);
      assert Next(states[n - 1], actions[n - 1], states[n]);
      StepGrows(states[n - 1], actions[n - 1]);
      GrowsOn(states[m].log, states[n - 1].log, states[n].log);
    }
  }

  // An offset is never committed past a record that nobody could put anywhere.
  lemma NotPassed(s: Sys, p: nat, o: nat)
    requires Inv(s) && Silent(s) && !s.dlq && p < |s.log| && o < |s.log[p]| && Undeliverable(s.log[p][o])
    ensures s.committed[p] <= o && !Drained(s)
  {
    hide RowsInv, LogInv, RelaysInv, NotificationsInv, DeadInv, ConsumersInv, Undeliverable;
    assert SettledBelow(s, p, s.committed[p]);
    forall i | 0 <= i < s.committed[p]
      ensures !Undeliverable(s.log[p][i])
    {
      assert Settled(s, p, i);
    }
  }

  // Main theorem. Without a dead letter topic a malformed record blocks its partition for good:
  // over every run, whatever fails and however often the group rebalances, no dead letter is ever
  // written and no offset is ever committed past it, so the pipeline never drains again.
  lemma JamIsForever(states: seq<Sys>, actions: seq<Action>, m: nat, n: nat, p: nat, o: nat)
    requires Run(states, actions) && m <= n < |states| && !states[0].dlq
    requires p < |states[m].log| && o < |states[m].log[p]| && Undeliverable(states[m].log[p][o])
    ensures states[n].dead == {}
    ensures p < |states[n].log| && o < |states[n].log[p]| && states[n].log[p][o] == states[m].log[p][o]
    ensures |states[n].committed| == |states[n].log| && states[n].committed[p] <= o && !Drained(states[n])
  {
    hide Run, Undeliverable, Drained, RowsInv, LogInv, RelaysInv, NotificationsInv, DeadInv, ConsumersInv;
    RunShape(states, actions);
    RunKeepsInv(states, actions, n);
    RunIsSilent(states, actions, n);
    RunGrows(states, actions, m, n);
    assert states[m].log[p] <= states[n].log[p];
    NotPassed(states[n], p, o);
  }

  lemma RunShape(states: seq<Sys>, actions: seq<Action>)
    requires Run(states, actions)
    ensures |states| == |actions| + 1
  {
  }

  // Nothing in the table or in the log will ever need the dead letter topic.
  predicate Clean(s: Sys)
  {
    && (forall id :: id in s.rows ==> !Recipient(s.rows[id].envelope).Malformed?)
    && (forall p, o :: 0 <= p < |s.log| && 0 <= o < |s.log[p]| ==> !s.log[p][o].Garbage?)
  }

  lemma CleanIsDeliverable(s: Sys)
    requires Inv(s) && Clean(s)
    ensures !Jammed(s)
  {
    hide Recipient, RowsInv, RelaysInv, NotificationsInv, DeadInv, ConsumersInv, SettledBelow;
    forall p | 0 <= p < |s.log|
      ensures !JammedAt(s, p)
    {
      if p < |s.committed| && s.committed[p] < |s.log[p]| {
        assert s.log[p][s.committed[p]].Message?;
      }
    }
  }

  lemma SmoothKeepsClean(s: Sys, a: Action)
    requires Inv(s) && Clean(s) && Smooth(s, a)
    ensures Clean(Apply(s, a))
  {
    hide Recipient, Undeliverable, Insert, Orphans, RowsInv, LogInv, RelaysInv, OffsetsInv, ConsumersInv, NotificationsInv, DeadInv;
    if a.Publish? {
      var s' := Apply(s, a);
      forall p, o | 0 <= p < |s'.log| && 0 <= o < |s'.log[p]|
        ensures !s'.log[p][o].Garbage?
      {
        assert o < |s.log[p]| ==> s'.log[p][o] == s.log[p][o];
      }
    } else if a.Handle? {
      EffectElsewhere(s, s.consumers[a.consumer].partition, s.consumers[a.consumer].offset);
    }
  }

  // What a smooth continuation keeps from its first state.
  lemma {:induction false} SmoothRunKeeps(states: seq<Sys>, actions: seq<Action>, n: nat)
    requires SmoothRun(states, actions) && n < |states| && Ready(states[0]) && Silent(states[0])
    ensures Silent(states[n]) && LogGrows(states[0].log, states[n].log) && RowsKept(states[0].rows, states[n].rows)
    ensures Clean(states[0]) ==> Clean(states[n])
  {
    hide Silent, Clean, Ready, Smooth, Apply, Enabled, LogGrows, RowsKept;
    if n == 0 {
      GrowsNot(states[0]);
    } else {
      SmoothRunKeeps(states, actions, n - 1);
      var s, a := states[n - 1], actions[n - 1];
      SmoothEnabled(s, a);
      StepIsSilent(s, a);
      StepGrows(s, a);
      GrowsOn(states[0].log, s.log, states[n].log);
      KeptOn(states[0].rows, s.rows, states[n].rows);
      if Clean(states[0]) {
        SmoothRunsAreShort(states, actions, n - 1);
        ReadyPart(s);
        SmoothKeepsClean(s, a);
      }
    }
  }

  lemma GrowsNot(s: Sys)
    ensures LogGrows(s.log, s.log) && RowsKept(s.rows, s.rows)
  {
  }

  lemma KeptOn(a: map<nat, Row>, b: map<nat, Row>, c: map<nat, Row>)
    requires RowsKept(a, b) && RowsKept(b, c)
    ensures RowsKept(a, c)
  {
  }

  lemma ReadyPart(s: Sys)
    requires Ready(s)
    ensures Inv(s) && |s.committed| == |s.log|
  {
  }

  // What has drained without a dead letter topic had nothing malformed in it to begin with.
  lemma DrainedWasClean(first: Sys, last: Sys)
    requires Inv(last) && Silent(last) && !last.dlq && Drained(last)
    requires LogGrows(first.log, last.log) && RowsKept(first.rows, last.rows)
    ensures Clean(first)
  {
    hide Recipient, Drained, RelaysInv, NotificationsInv, DeadInv, ConsumersInv, OffsetsInv;
    forall id | id in first.rows
      ensures !Recipient(first.rows[id].envelope).Malformed?
    {
      DrainedInLog(last, id);
      var p: nat, o: nat :| At(last.log, p, o, id);
      assert last.log[p][o].envelope == last.rows[id].envelope;
      if Undeliverable(last.log[p][o]) {
        NotPassed(last, p, o);
        assert false;
      }
    }
    forall p, o | 0 <= p < |first.log| && 0 <= o < |first.log[p]|
      ensures !first.log[p][o].Garbage?
    {
      assert first.log[p] <= last.log[p];
      if Undeliverable(last.log[p][o]) {
        NotPassed(last, p, o);
        assert false;
      }
    }
  }

  lemma DrainedInLog(s: Sys, id: nat)
    requires Inv(s) && Drained(s) && id in s.rows
    ensures InLog(s.log, id)
  {
    hide InLog;
  }

  // Main theorem. From any reachable state, whatever failed before, let the group rebalance and
  // failures stop. Then no continuation takes more than Left steps, and one that cannot be
  // extended has drained everything exactly when there is a dead letter topic, or no row and no
  // record of the first state would need one.
  lemma FailureFreeContinuationDrains(past: seq<Sys>, done: seq<Action>, states: seq<Sys>, actions: seq<Action>)
    requires Run(past, done) && SmoothRun(states, actions)
    requires |past[|done|].committed| == |past[|done|].log| && states[0] == Rebalanced(past[|done|])
    requires 0 < |states[0].relays| && 0 < |states[0].log|
    ensures Attached(states[0]) && |actions| <= Left(states[0])
    ensures (forall a :: !Smooth(states[|actions|], a)) ==>
              (Drained(states[|actions|]) <==> states[0].dlq || Clean(states[0]))
  {
    hide Smooth, Apply, Enabled, Left, Drained, Next, Initial, Inv, Clean, Silent, LogGrows, RowsKept;
    RunKeepsInv(past, done, |done|);
    RunIsSilent(past, done, |done|);
    RebalanceIsReady(past[|done|]);
    RebalanceIsSilent(past[|done|]);
    SmoothRunKeeps(states, actions, |actions|);
    SmoothRunsAreShort(states, actions, |actions|);
    SameShape(states, actions, |actions|);
    var s := states[|actions|];
    ReadyPart(s);
    if !Drained(s) && !Jammed(s) {
      var a := Enablement(s);
    }
    if Clean(s) {
      CleanIsDeliverable(s);
    }
    if Drained(s) && !s.dlq {
      DrainedWasClean(states[0], s);
    }
  }

  lemma RebalanceIsSilent(s: Sys)
    requires Silent(s) && |s.committed| == |s.log|
    ensures Silent(Rebalanced(s))
  {
  }

  // In both cases there is always a way to drain, and it is found step by step.
  lemma {:induction false} SomeContinuationDrains(s: Sys) returns (states: seq<Sys>, actions: seq<Action>)
    requires Ready(s) && (s.dlq || Clean(s)) && 0 < |s.relays| && 0 < |s.log|
    ensures SmoothRun(states, actions) && states[0] == s && Drained(states[|actions|])
    decreases Left(s)
  {
    hide Inv, Attached, Apply, Enabled, Left, Drained, Smooth, Clean;
    LeftIsNatural(s);
    if Drained(s) {
      states, actions := [s], [];
    } else {
      ReadyPart(s);
      if Clean(s) {
        CleanIsDeliverable(s);
      }
      var a := Enablement(s);
      SmoothProgress(s, a);
      SmoothEnabled(s, a);
      StepShape(s, a);
      if Clean(s) {
        SmoothKeepsClean(s, a);
      }
      var rest, more := SomeContinuationDrains(Apply(s, a));
      states, actions := [s] + rest, [a] + more;
    }
  }

  // A run that fails for want of a topic: one event of a version nobody knows.
  const STRANGE := Envelope(1, Other("unknown"), 2, "order", 1, true, Undecodable)

  lemma MalformedEventJams() returns (states: seq<Sys>, actions: seq<Action>)
    ensures Run(states, actions) && !states[0].dlq && |states| == |actions| + 1
    ensures var s := states[|actions|];
      && s.log == [[Message(STRANGE)]] && Undeliverable(s.log[0][0])
      && (forall id :: id in s.rows ==> s.rows[id].state == Published) && !Drained(s)
  {
    var s0 := Sys(map[], [IDLE], [[]], [0], map[], [], {}, false);
    var s1 := Apply(s0, Enqueue(STRANGE));
    var s2 := Apply(s1, Claim(0, [1]));
    assert [1][0] in IdSet([1]) && IdSet([1]) == {1};
    var s3 := Apply(s2, Publish(0, 0));
    assert [] + [Message(STRANGE)] == [Message(STRANGE)];
    var s4 := Apply(s3, Mark(0));
    states := [s0, s1, s2, s3, s4];
    actions := [Enqueue(STRANGE), Claim(0, [1]), Publish(0, 0), Mark(0)];
  }
}
