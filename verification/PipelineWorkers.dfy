/**
 * The relay batch and the consumer loop as they run, over mutable tables and logs. What the
 * network and the database answer is an input; each method is proved to take only steps of the
 * pipeline protocol and to leave exactly what its answer promises.
 */
module PipelineWorkers {
  import opened Common
  import opened Notifications
  import opened Pipeline
  import opened Retries
  import opened Traces

  // What the workers do, like everything else that happens meanwhile, keeps the invariant.
  lemma TraceKeepsInv(s: Sys, trace: seq<Action>, s': Sys)
    requires Inv(s) && Steps(Next, s, trace, s')
    ensures Inv(s')
  {
    hide Inv, Steps;
    forall x, a, y | Inv(x) && Next(x, a, y)
      ensures Inv(y)
    {
      NextKeeps(x, a);
    }
    StepsKeep(Next, Inv, s, trace, s');
  }

  // ---- What the outside world answers -------------------------------------------------------

  // The fate of one row in a batch. A refused write may have landed all the same, and a refused
  // update may have been applied.
  datatype Fate =
    | Sent(partition: nat)
    | Refused(landed: Option<nat>, saved: bool)
    | Unmarked(partition: nat, applied: bool)

  predicate OfRelay(a: Action, r: nat)
  {
    match a
    case Claim(q, _) => q == r
    case Publish(q, _) => q == r
    case WriteFails(q, _) => q == r
    case Mark(q) => q == r
    case Stop(q) => q == r
    case _ => false
  }

  predicate OfConsumer(a: Action, c: nat)
  {
    match a
    case Join(d, _) => d == c
    case Leave(d) => d == c
    case Handle(d, _) => d == c
    case Commit(d, _) => d == c
    case _ => false
  }

  // What steps of others leave to a relay and a consumer.
  predicate Undisturbed(s: Sys, s': Sys)
  {
    && LogGrows(s.log, s'.log) && RowsKept(s.rows, s'.rows)
    && s.notifications <= s'.notifications && s.dead <= s'.dead
    && |s'.relays| == |s.relays| && (|s.committed| == |s.log| ==> |s'.committed| == |s'.log|) && s'.dlq == s.dlq
  }

  lemma StepUndisturbed(s: Sys, a: Action)
    requires Enabled(s, a)
    ensures Undisturbed(s, Apply(s, a))
  {
    hide Enabled, Apply, LogGrows, RowsKept;
    StepGrows(s, a);
    StepShape(s, a);
    StepAdds(s, a);
  }

  lemma StepAdds(s: Sys, a: Action)
    requires Enabled(s, a)
    ensures s.notifications <= Apply(s, a).notifications && s.dead <= Apply(s, a).dead
  {
    hide Recipient, Undeliverable, Notified, Appended, Restated;
  }

  lemma OtherRelay(s: Sys, a: Action, r: nat)
    requires Enabled(s, a) && r < |s.relays| && !OfRelay(a, r)
    ensures r < |Apply(s, a).relays| && Apply(s, a).relays[r] == s.relays[r]
  {
    hide Effect, Undeliverable, Appended, Restated;
    if a.Handle? {
      EffectElsewhere(s, s.consumers[a.consumer].partition, s.consumers[a.consumer].offset);
    }
  }

  lemma OtherConsumer(s: Sys, a: Action, c: nat)
    requires Enabled(s, a) && c in s.consumers && !OfConsumer(a, c)
    ensures c in Apply(s, a).consumers && Apply(s, a).consumers[c] == s.consumers[c]
  {
    hide Effect, Undeliverable, Appended, Restated;
    if a.Handle? {
      EffectElsewhere(s, s.consumers[a.consumer].partition, s.consumers[a.consumer].offset);
    }
  }

  lemma UndisturbedOn(a: Sys, b: Sys, c: Sys)
    requires Undisturbed(a, b) && Undisturbed(b, c)
    ensures Undisturbed(a, c)
  {
    forall p | 0 <= p < |a.log|
      ensures a.log[p] <= c.log[p]
    {
      assert a.log[p] <= b.log[p] && b.log[p] <= c.log[p];
    }
  }

  lemma UndisturbedNot(s: Sys)
    ensures Undisturbed(s, s)
  {
  }

  // The envelope is in the log somewhere.
  ghost predicate Written(log: seq<seq<Record>>, e: Envelope)
  {
    exists p: nat, o: nat :: WrittenAt(log, e, p, o)
  }

  predicate WrittenAt(log: seq<seq<Record>>, e: Envelope, p: nat, o: nat)
  {
    p < |log| && o < |log[p]| && log[p][o] == Message(e)
  }

  lemma StaysWritten(log: seq<seq<Record>>, log': seq<seq<Record>>, e: Envelope)
    requires LogGrows(log, log') && Written(log, e)
    ensures Written(log', e)
  {
    var p: nat, o: nat :| WrittenAt(log, e, p, o);
    assert log[p] <= log'[p];
    assert WrittenAt(log', e, p, o);
  }

  class Cluster {
    var rows: map<nat, Row>
    var relays: seq<Relay>
    var log: seq<seq<Record>>
    var committed: seq<nat>
    var consumers: map<nat, Consumer>
    var notifications: seq<Notification>
    var dead: set<(nat, nat)>
    const dlq: bool

    constructor (partitions: nat, relays: nat, dlq: bool)
      ensures Initial(View()) && |log| == partitions && |this.relays| == relays && this.dlq == dlq
    {
      rows, consumers, notifications, dead := map[], map[], [], {};
      log, committed := seq(partitions, _ => []), seq(partitions, _ => 0);
      this.relays := seq(relays, _ => IDLE);
      this.dlq := dlq;
    }

    function View(): Sys
      reads this
    {
      Sys(rows, relays, log, committed, consumers, notifications, dead, dlq)
    }

    // One step of anybody else, if it is possible now.
    method Other(a: Action, ghost trace: seq<Action>, ghost start: Sys) returns (ghost trace': seq<Action>)
      requires Steps(Next, start, trace, View())
      modifies this
      ensures Steps(Next, start, trace', View()) && Undisturbed(old(View()), View())
      ensures forall r :: 0 <= r < |relays| && !OfRelay(a, r) ==> relays[r] == old(relays)[r]
      ensures forall c :: c in old(consumers) && !OfConsumer(a, c) ==> c in consumers && consumers[c] == old(consumers)[c]
    {
      hide Steps, Enabled, Apply, Undisturbed;
      trace' := trace;
      UndisturbedNot(View());
      if Enabled(View(), a) {
        StepUndisturbed(View(), a);
        SameRelays(View(), Apply(View(), a));
        forall r | 0 <= r < |relays| && !OfRelay(a, r)
          ensures Apply(View(), a).relays[r] == relays[r]
        {
          OtherRelay(View(), a, r);
        }
        forall c | c in consumers && !OfConsumer(a, c)
          ensures c in Apply(View(), a).consumers && Apply(View(), a).consumers[c] == consumers[c]
        {
          OtherConsumer(View(), a, c);
        }
        OneMore(Next, start, trace, View(), a, Apply(View(), a));
        trace' := trace + [a];
        var s := Apply(View(), a);
        rows, relays, log, committed := s.rows, s.relays, s.log, s.committed;
        consumers, notifications, dead := s.consumers, s.notifications, s.dead;
        assert View() == s;
      }
    }

    // Everything others do at one moment. They act neither for relay r nor for consumer c.
    method Others(actions: seq<Action>, r: Option<nat>, c: Option<nat>, ghost trace: seq<Action>, ghost start: Sys)
      returns (ghost trace': seq<Action>)
      requires Steps(Next, start, trace, View()) && (r.Some? ==> r.value < |relays|) && (c.Some? ==> c.value in consumers)
      modifies this
      ensures Steps(Next, start, trace', View()) && Undisturbed(old(View()), View())
      ensures r.Some? ==> r.value < |relays| && relays[r.value] == old(relays)[r.value]
      ensures c.Some? ==> c.value in consumers && consumers[c.value] == old(consumers)[c.value]
      ensures actions == [] ==> View() == old(View())
    {
      hide Steps, Undisturbed;
      trace' := trace;
      UndisturbedNot(View());
      for i := 0 to |actions|
        invariant Steps(Next, start, trace', View()) && Undisturbed(old(View()), View())
        invariant r.Some? ==> r.value < |relays| && relays[r.value] == old(relays)[r.value]
        invariant c.Some? ==> c.value in consumers && consumers[c.value] == old(consumers)[c.value]
        invariant i == 0 ==> View() == old(View())
      {
        if !(r.Some? && OfRelay(actions[i], r.value)) && !(c.Some? && OfConsumer(actions[i], c.value)) {
          ghost var before := View();
          trace' := Other(actions[i], trace', start);
          SameRelays(before, View());
          UndisturbedOn(old(View()), before, View());
        }
      }
    }

    // ---- Relay ------------------------------------------------------------------------------

    // One transaction: recover old claims, then claim what the query picked.
    method ClaimBatch(r: nat, stale: set<nat>, picked: seq<nat>) returns (ghost trace: seq<Action>)
      requires r < |relays| && relays[r] == IDLE
      requires Enabled(View(), Recover(stale))
      requires picked != [] ==> Enabled(Apply(View(), Recover(stale)), Claim(r, picked))
      modifies `rows, `relays
      ensures Steps(Next, old(View()), trace, View()) && rows.Keys == old(rows.Keys)
      ensures relays == old(relays)[r := Relay(picked, false)]
      ensures forall i :: 0 <= i < |picked| ==> picked[i] in rows
    {
      hide IdSet, Steps;
      NoSteps(Next, View());
      OneMore(Next, View(), [], View(), Recover(stale), Apply(View(), Recover(stale)));
      rows := Restated(rows, stale, Pending);
      trace := [] + [Recover(stale)];
      if picked != [] {
        OneMore(Next, old(View()), trace, View(), Claim(r, picked), Apply(View(), Claim(r, picked)));
        rows := Restated(rows, IdSet(picked), Publishing);
        relays := relays[r := Relay(picked, false)];
        trace := trace + [Claim(r, picked)];
      }
    }

    // Publishes the claimed rows in order and marks each one; the first failure ends the batch.
    // Other relays, writers and consumers act between its steps.
    method RelayBatch(r: nat, stale: set<nat>, picked: seq<nat>, fates: seq<Fate>, others: Meanwhile<Action>)
      returns (ok: bool, ghost trace: seq<Action>)
      requires r < |relays| && relays[r] == IDLE && |fates| == |picked|
      requires Enabled(View(), Recover(stale))
      requires picked != [] ==> Enabled(Apply(View(), Recover(stale)), Claim(r, picked))
      requires forall k :: 0 <= k < |fates| ==> FateInRange(fates[k], |log|)
      modifies this
      ensures Steps(Next, old(View()), trace, View()) && r < |relays| && relays[r] == IDLE
      ensures old(Inv(View())) ==> Inv(View())
      ensures ok <==> forall k :: 0 <= k < |fates| ==> fates[k].Sent?
      ensures ok ==> forall k :: 0 <= k < |picked| ==> picked[k] in rows && Written(log, rows[picked[k]].envelope)
      ensures Quiet(others) ==> relays == old(relays)
      ensures ok && Quiet(others) ==> forall k :: 0 <= k < |picked| ==> rows[picked[k]].state == Published
    {
      hide Enabled, Apply, Steps, Inv, Written, Undisturbed;
      trace := ClaimBatch(r, stale, picked);
      ok := true;
      var k := 0;
      while k < |picked| && ok
        invariant 0 <= k <= |picked| && |log| == old(|log|) && r < |relays|
        invariant Steps(Next, old(View()), trace, View())
        invariant relays[r] == if ok then Relay(picked[k..], false) else IDLE
        invariant ok ==> AllWritten(rows, log, picked, k) && forall i :: 0 <= i < k ==> fates[i].Sent?
        invariant !ok ==> exists i :: 0 <= i < |fates| && !fates[i].Sent?
        invariant Quiet(others) ==> relays == old(relays)[r := relays[r]]
        invariant Quiet(others) && ok ==> forall i :: 0 <= i < k ==> rows[picked[i]].state == Published
        decreases |picked| - k, ok
      {
        ghost var before := View();
        trace := Others(Moment(others, 2 * k), Some(r), None, trace, old(View()));
        StillWritten(before, View(), picked, k);
        before := View();
        ok, trace := RelayRow(r, picked, k, fates[k], Moment(others, 2 * k + 1), trace, old(View()));
        StillWritten(before, View(), picked, k);
        if ok {
          k := k + 1;
        }
      }
      if old(Inv(View())) {
        TraceKeepsInv(old(View()), trace, View());
      }
      ListWritten(rows, log, picked, k);
    }

    // One row of the batch: written, then marked, with others acting in between.
    method RelayRow(r: nat, picked: seq<nat>, k: nat, fate: Fate, others: seq<Action>, ghost trace: seq<Action>, ghost start: Sys)
      returns (ok: bool, ghost trace': seq<Action>)
      requires k < |picked| && r < |relays| && relays[r] == Relay(picked[k..], false)
      requires picked[k] in rows && FateInRange(fate, |log|) && Steps(Next, start, trace, View())
      modifies this
      ensures Steps(Next, start, trace', View()) && Undisturbed(old(View()), View()) && ok == fate.Sent?
      ensures r < |relays| && relays[r] == if ok then Relay(picked[k + 1..], false) else IDLE
      ensures picked[k] in rows && (ok ==> Written(log, rows[picked[k]].envelope))
      ensures others == [] ==> relays == old(relays)[r := relays[r]]
      ensures others == [] && ok ==> rows[picked[k]].state == Published
                                     && forall i :: i in old(rows) && old(rows)[i].state == Published ==> i in rows && rows[i].state == Published
    {
      hide Steps, Undisturbed, Written;
      assert picked[k..][0] == picked[k] && picked[k..][1..] == picked[k + 1..];
      ok := fate.Sent?;
      if fate.Refused? {
        trace' := WriteRefused(r, picked[k], fate.landed, fate.saved, trace, start);
      } else {
        trace' := Write(r, picked[k], fate.partition, trace, start);
        ghost var written := View();
        trace' := Others(others, Some(r), None, trace', start);
        RowStays(written, View(), picked[k]);
        ghost var marking := View();
        UndisturbedOn(old(View()), written, marking);
        if fate.Sent? {
          trace' := MarkPublished(r, picked[k], trace', start);
        } else {
          trace' := MarkRefused(r, picked[k], fate.applied, trace', start);
        }
        RowStays(marking, View(), picked[k]);
        UndisturbedOn(old(View()), marking, View());
      }
      RowStays(old(View()), View(), picked[k]);
    }

    method Write(r: nat, id: nat, p: nat, ghost trace: seq<Action>, ghost start: Sys) returns (ghost trace': seq<Action>)
      requires r < |relays| && relays[r].queue != [] && relays[r].queue[0] == id && !relays[r].written && id in rows && p < |log|
      requires Steps(Next, start, trace, View())
      modifies `relays, `log
      ensures Steps(Next, start, trace', View()) && Undisturbed(old(View()), View()) && Written(log, rows[id].envelope)
      ensures relays == old(relays)[r := Relay(old(relays)[r].queue, true)]
    {
      hide Steps, Undisturbed;
      StepUndisturbed(View(), Publish(r, p));
      OneMore(Next, start, trace, View(), Publish(r, p), Apply(View(), Publish(r, p)));
      trace' := trace + [Publish(r, p)];
      log := log[p := log[p] + [Message(rows[id].envelope)]];
      relays := relays[r := Relay(relays[r].queue, true)];
      assert WrittenAt(log, rows[id].envelope, p, |log[p]| - 1);
    }

    method MarkPublished(r: nat, id: nat, ghost trace: seq<Action>, ghost start: Sys) returns (ghost trace': seq<Action>)
      requires r < |relays| && relays[r].queue != [] && relays[r].queue[0] == id && relays[r].written && id in rows
      requires Steps(Next, start, trace, View())
      modifies `rows, `relays
      ensures Steps(Next, start, trace', View()) && Undisturbed(old(View()), View())
      ensures id in rows && rows[id].state == Published
      ensures forall i :: i in old(rows) && old(rows)[i].state == Published ==> i in rows && rows[i].state == Published
      ensures relays == old(relays)[r := Relay(old(relays)[r].queue[1..], false)]
    {
      hide Steps, Undisturbed;
      StepUndisturbed(View(), Mark(r));
      OneMore(Next, start, trace, View(), Mark(r), Apply(View(), Mark(r)));
      trace' := trace + [Mark(r)];
      assert Restated(rows, {id}, Published) == rows[id := rows[id].(state := Published)];
      rows := rows[id := rows[id].(state := Published)];
      relays := relays[r := Relay(relays[r].queue[1..], false)];
    }

    // The write reports an error: the row goes back to pending, if that update succeeds.
    method WriteRefused(r: nat, id: nat, landed: Option<nat>, saved: bool, ghost trace: seq<Action>, ghost start: Sys)
      returns (ghost trace': seq<Action>)
      requires r < |relays| && relays[r].queue != [] && relays[r].queue[0] == id && !relays[r].written && id in rows
      requires Steps(Next, start, trace, View()) && (landed.Some? ==> landed.value < |log|)
      modifies `rows, `relays, `log
      ensures Steps(Next, start, trace', View()) && Undisturbed(old(View()), View()) && relays == old(relays)[r := IDLE]
    {
      hide Steps, Undisturbed;
      trace' := trace;
      UndisturbedNot(View());
      if landed.Some? {
        StepUndisturbed(View(), Duplicate(id, landed.value));
        OneMore(Next, start, trace', View(), Duplicate(id, landed.value), Apply(View(), Duplicate(id, landed.value)));
        trace' := trace' + [Duplicate(id, landed.value)];
        log := log[landed.value := log[landed.value] + [Message(rows[id].envelope)]];
      }
      ghost var landing := View();
      StepUndisturbed(View(), WriteFails(r, saved));
      OneMore(Next, start, trace', View(), WriteFails(r, saved), Apply(View(), WriteFails(r, saved)));
      trace' := trace' + [WriteFails(r, saved)];
      if saved {
        assert Restated(rows, {id}, Pending) == rows[id := rows[id].(state := Pending)];
        rows := rows[id := rows[id].(state := Pending)];
      }
      relays := relays[r := IDLE];
      UndisturbedOn(old(View()), landing, View());
    }

    method MarkRefused(r: nat, id: nat, applied: bool, ghost trace: seq<Action>, ghost start: Sys) returns (ghost trace': seq<Action>)
      requires r < |relays| && relays[r].queue != [] && relays[r].queue[0] == id && relays[r].written && id in rows
      requires Steps(Next, start, trace, View())
      modifies `rows, `relays
      ensures Steps(Next, start, trace', View()) && Undisturbed(old(View()), View()) && relays == old(relays)[r := IDLE]
    {
      hide Steps, Undisturbed;
      trace' := trace;
      UndisturbedNot(View());
      if applied {
        trace' := MarkPublished(r, id, trace', start);
      }
      ghost var marked := View();
      StepUndisturbed(View(), Stop(r));
      OneMore(Next, start, trace', View(), Stop(r), Apply(View(), Stop(r)));
      trace' := trace' + [Stop(r)];
      relays := relays[r := IDLE];
      UndisturbedOn(old(View()), marked, View());
    }

    // ---- Consumer ---------------------------------------------------------------------------

    // Deals with the record under consumer c and commits its offset, while others act. tries are
    // the answers of the table insert or of the dead letter topic, commits those of the broker;
    // running out of them is the shutdown of the process.
    method Process(c: nat, tries: seq<Try>, commits: seq<Try>, others: Meanwhile<Action>)
      returns (ok: bool, waits: seq<nat>, more: seq<nat>, ghost trace: seq<Action>)
      requires Reads(View(), c) && !consumers[c].resolved
      modifies this
      ensures Steps(Next, old(View()), trace, View())
      ensures old(Inv(View())) ==> Inv(View())
      ensures ok ==> var k := old(consumers[c]);
        && k.partition < |log| == |committed| && k.offset < |log[k.partition]| && Settled(View(), k.partition, k.offset)
        && committed[k.partition] == k.offset + 1 && c in consumers && consumers[c] == Consumer(k.partition, k.offset + 1, false)
      ensures ok && Quiet(others) ==> var k := old(consumers[c]);
        committed == old(committed)[k.partition := k.offset + 1] && consumers == old(consumers)[c := Consumer(k.partition, k.offset + 1, false)]
        && notifications == old(Effect(View(), k.partition, k.offset).notifications) && dead == old(Effect(View(), k.partition, k.offset).dead)
      ensures !ok ==> (Undeliverable(old(Under(View(), c))) && !dlq)
                      || (forall i :: 0 <= i < |tries| ==> tries[i].Fails?) || (forall i :: 0 <= i < |commits| ==> commits[i].Fails?)
      ensures (forall i :: 0 <= i < |waits| ==> waits[i] == Backoff(i)) && (forall i :: 0 <= i < |more| ==> more[i] == Backoff(i))
    {
      hide Effect, Steps, Recipient, Undisturbed, Inv, Settled;
      waits, more, trace, ok := [], [], [], false;
      NoSteps(Next, View());
      var k := consumers[c];
      var record := log[k.partition][k.offset];
      if !Undeliverable(record) || dlq {
        HandleAndCommit(View(), c);
        ok, waits, trace := Settle(c, tries, others, trace, old(View()));
        ghost var settled := View();
        if ok {
          ok, more, trace := CommitOffset(c, commits, others, |tries|, trace, old(View()));
          StillSettled(settled, View(), k.partition, k.offset);
        }
      }
      if old(Inv(View())) {
        TraceKeepsInv(old(View()), trace, View());
      }
    }

    // Repeats the handling until it is seen to succeed.
    method Settle(c: nat, tries: seq<Try>, others: Meanwhile<Action>, ghost trace: seq<Action>, ghost start: Sys)
      returns (ok: bool, waits: seq<nat>, ghost trace': seq<Action>)
      requires Enabled(View(), Handle(c, true)) && Steps(Next, start, trace, View())
      modifies this
      ensures Steps(Next, start, trace', View()) && Undisturbed(old(View()), View())
      ensures var k := old(consumers[c]);
        && k.partition < |log| == |committed| && k.offset < |log[k.partition]| && log[k.partition][k.offset] == old(log[k.partition][k.offset])
        && c in consumers && consumers[c] == (if ok then k.(resolved := true) else k)
        && (ok ==> Settled(View(), k.partition, k.offset))
      ensures ok && Quiet(others) ==> View() == old(Apply(View(), Handle(c, true)))
      ensures !ok ==> forall i :: 0 <= i < |tries| ==> tries[i].Fails?
      ensures forall i :: 0 <= i < |waits| ==> waits[i] == Backoff(i)
    {
      hide Steps, Enabled, Apply, Undeliverable, Backoff, NextBackoff, Undisturbed, Settled;
      BackoffStep();
      ok, waits, trace' := false, [], trace;
      HandledTwice(View(), c);
      UndisturbedNot(View());
      StillReading(View(), View(), c);
      var backoff: nat := MIN_BACKOFF;
      for i := 0 to |tries|
        invariant backoff == Backoff(|waits|)
        invariant Steps(Next, start, trace', View()) && Undisturbed(old(View()), View())
        invariant Quiet(others) ==> View() == old(View()) || View() == old(Apply(View(), Handle(c, false)))
        invariant forall j :: 0 <= j < i ==> tries[j].Fails?
        invariant forall j :: 0 <= j < |waits| ==> waits[j] == Backoff(j)
        invariant c in old(consumers) && c in consumers && consumers[c] == old(consumers)[c]
      {
        ghost var before := View();
        trace' := Others(Moment(others, i), None, Some(c), trace', start);
        UndisturbedOn(old(View()), before, View());
        if tries[i] != Fails(false) {
          StillReading(old(View()), View(), c);
          before := View();
          trace' := Deliver(c, tries[i].Works?, trace', start);
          UndisturbedOn(old(View()), before, View());
          if tries[i].Works? {
            StillReading(old(View()), before, c);
            return true, waits, trace';
          }
        }
        waits := waits + [backoff];
        backoff := NextBackoff(backoff, MAX_BACKOFF);
      }
      StillReading(old(View()), View(), c);
    }

    // The effect of the record: a row unless its event has one, a dead letter, or nothing.
    method Deliver(c: nat, seen: bool, ghost trace: seq<Action>, ghost start: Sys) returns (ghost trace': seq<Action>)
      requires Enabled(View(), Handle(c, seen)) && Steps(Next, start, trace, View())
      modifies `notifications, `dead, `consumers
      ensures Steps(Next, start, trace', View()) && View() == old(Apply(View(), Handle(c, seen)))
      ensures Undisturbed(old(View()), View()) && c in old(consumers) && c in consumers
      ensures consumers[c] == if seen then old(consumers[c]).(resolved := true) else old(consumers[c])
      ensures var k := old(consumers[c]); k.partition < |log| && k.offset < |log[k.partition]| && Settled(View(), k.partition, k.offset)
    {
      hide Steps, Undisturbed;
      StepUndisturbed(View(), Handle(c, seen));
      OneMore(Next, start, trace, View(), Handle(c, seen), Apply(View(), Handle(c, seen)));
      HandledSettles(View(), c, seen);
      trace' := trace + [Handle(c, seen)];
      Insertion(c);
      if seen {
        consumers := consumers[c := consumers[c].(resolved := true)];
      }
    }

    method Insertion(c: nat)
      requires Enabled(View(), Handle(c, false))
      modifies `notifications, `dead
      ensures View() == old(Apply(View(), Handle(c, false)))
    {
      var k := consumers[c];
      var record := log[k.partition][k.offset];
      if record.Garbage? {
        dead := dead + {(k.partition, k.offset)};
        return;
      }
      var verdict := Recipient(record.envelope);
      if verdict.Malformed? {
        dead := dead + {(k.partition, k.offset)};
      } else if verdict.For? {
        var row := RowFor(record.envelope);
        var taken := false;
        for i := 0 to |notifications|
          invariant notifications == old(notifications) && dead == old(dead)
          invariant taken <==> exists j :: 0 <= j < i && Named(notifications[j], row.event)
        {
          if Named(notifications[i], row.event) {
            taken := true;
          }
        }
        if !taken {
          notifications := notifications + [row];
        }
      }
    }

    method CommitOnce(c: nat, seen: bool, ghost trace: seq<Action>, ghost start: Sys) returns (ghost trace': seq<Action>)
      requires Enabled(View(), Action.Commit(c, seen)) && Steps(Next, start, trace, View())
      modifies `consumers, `committed
      ensures Steps(Next, start, trace', View()) && View() == old(Apply(View(), Action.Commit(c, seen)))
      ensures Undisturbed(old(View()), View()) && c in old(consumers) && c in consumers && |committed| == |log|
      ensures var k := old(consumers[c]);
        && k.partition < |committed| && committed[k.partition] == k.offset + 1
        && consumers[c] == if seen then Consumer(k.partition, k.offset + 1, false) else k
    {
      hide Steps, Undisturbed;
      StepUndisturbed(View(), Action.Commit(c, seen));
      OneMore(Next, start, trace, View(), Action.Commit(c, seen), Apply(View(), Action.Commit(c, seen)));
      trace' := trace + [Action.Commit(c, seen)];
      var k := consumers[c];
      committed := committed[k.partition := k.offset + 1];
      if seen {
        consumers := consumers[c := Consumer(k.partition, k.offset + 1, false)];
      }
    }

    method CommitOffset(c: nat, commits: seq<Try>, others: Meanwhile<Action>, t: nat, ghost trace: seq<Action>, ghost start: Sys)
      returns (ok: bool, waits: seq<nat>, ghost trace': seq<Action>)
      requires Enabled(View(), Action.Commit(c, true)) && Steps(Next, start, trace, View())
      modifies this
      ensures Steps(Next, start, trace', View()) && Undisturbed(old(View()), View())
      ensures var k := old(consumers[c]);
        && c in consumers && |committed| == |log| && k.partition < |log|
        && (if ok then committed[k.partition] == k.offset + 1 && consumers[c] == Consumer(k.partition, k.offset + 1, false) else consumers[c] == k)
      ensures ok && Quiet(others) ==> View() == old(Apply(View(), Action.Commit(c, true)))
      ensures !ok ==> forall i :: 0 <= i < |commits| ==> commits[i].Fails?
      ensures forall i :: 0 <= i < |waits| ==> waits[i] == Backoff(i)
    {
      hide Steps, Enabled, Apply, Backoff, NextBackoff, Undisturbed;
      BackoffStep();
      ok, waits, trace' := false, [], trace;
      CommittedTwice(View(), c);
      UndisturbedNot(View());
      StillResolved(View(), View(), c);
      var backoff: nat := MIN_BACKOFF;
      for i := 0 to |commits|
        invariant backoff == Backoff(|waits|)
        invariant Steps(Next, start, trace', View()) && Undisturbed(old(View()), View())
        invariant Quiet(others) ==> View() == old(View()) || View() == old(Apply(View(), Action.Commit(c, false)))
        invariant forall j :: 0 <= j < i ==> commits[j].Fails?
        invariant forall j :: 0 <= j < |waits| ==> waits[j] == Backoff(j)
        invariant c in old(consumers) && c in consumers && consumers[c] == old(consumers)[c]
      {
        ghost var before := View();
        trace' := Others(Moment(others, t + i), None, Some(c), trace', start);
        UndisturbedOn(old(View()), before, View());
        if commits[i] != Fails(false) {
          StillResolved(old(View()), View(), c);
          before := View();
          trace' := CommitOnce(c, commits[i].Works?, trace', start);
          UndisturbedOn(old(View()), before, View());
          if commits[i].Works? {
            StillResolved(old(View()), before, c);
            return true, waits, trace';
          }
        }
        waits := waits + [backoff];
        backoff := NextBackoff(backoff, MAX_BACKOFF);
      }
      StillResolved(old(View()), View(), c);
    }
  }

  // ---- Facts about undisturbed states -------------------------------------------------------

  lemma SameRelays(s: Sys, s': Sys)
    requires Undisturbed(s, s')
    ensures |s'.relays| == |s.relays| && s'.dlq == s.dlq
  {
  }

  lemma RowStays(s: Sys, s': Sys, id: nat)
    requires Undisturbed(s, s') && id in s.rows
    ensures id in s'.rows && s'.rows[id].envelope == s.rows[id].envelope && |s'.log| == |s.log|
    ensures Written(s.log, s.rows[id].envelope) ==> Written(s'.log, s'.rows[id].envelope)
  {
    hide Written;
    if Written(s.log, s.rows[id].envelope) {
      StaysWritten(s.log, s'.log, s.rows[id].envelope);
    }
  }

  // All claimed rows are there, and the first k of them are in the log.
  ghost predicate AllWritten(rows: map<nat, Row>, log: seq<seq<Record>>, picked: seq<nat>, k: nat)
  {
    && (forall i :: 0 <= i < |picked| ==> picked[i] in rows)
    && (forall i :: 0 <= i < k && i < |picked| ==> Written(log, rows[picked[i]].envelope))
  }

  lemma StillWritten(s: Sys, s': Sys, picked: seq<nat>, k: nat)
    requires Undisturbed(s, s')
    ensures |s'.log| == |s.log|
    ensures AllWritten(s.rows, s.log, picked, k) ==> AllWritten(s'.rows, s'.log, picked, k)
  {
    hide Written, Undisturbed;
    LogShape(s, s');
    if AllWritten(s.rows, s.log, picked, k) {
      forall i | 0 <= i < |picked|
        ensures picked[i] in s'.rows && (i < k ==> Written(s'.log, s'.rows[picked[i]].envelope))
      {
        RowStays(s, s', picked[i]);
      }
    }
  }

  lemma LogShape(s: Sys, s': Sys)
    requires Undisturbed(s, s')
    ensures |s'.log| == |s.log|
  {
  }

  lemma ListWritten(rows: map<nat, Row>, log: seq<seq<Record>>, picked: seq<nat>, k: nat)
    ensures AllWritten(rows, log, picked, k) && k == |picked| ==>
              forall i :: 0 <= i < |picked| ==> picked[i] in rows && Written(log, rows[picked[i]].envelope)
  {
    hide Written;
  }

  // The consumer can still handle its record, which is the same as before.
  lemma StillReading(s: Sys, s': Sys, c: nat)
    requires Enabled(s, Handle(c, true)) && Undisturbed(s, s')
    ensures c in s.consumers
    ensures var k := s.consumers[c];
      && k.partition < |s'.log| == |s'.committed| && k.offset < |s'.log[k.partition]|
      && k.partition < |s.log| && k.offset < |s.log[k.partition]| && s'.log[k.partition][k.offset] == s.log[k.partition][k.offset]
    ensures c in s'.consumers && s'.consumers[c] == s.consumers[c] ==> Enabled(s', Handle(c, true)) && Enabled(s', Handle(c, false))
  {
    hide Undeliverable;
    assert s.log[s.consumers[c].partition] <= s'.log[s.consumers[c].partition];
  }

  lemma StillResolved(s: Sys, s': Sys, c: nat)
    requires Enabled(s, Action.Commit(c, true)) && Undisturbed(s, s')
    ensures c in s.consumers
    ensures s.consumers[c].partition < |s'.log| == |s'.committed|
    ensures c in s'.consumers && s'.consumers[c] == s.consumers[c] ==> Enabled(s', Action.Commit(c, true)) && Enabled(s', Action.Commit(c, false))
  {
    assert s.log[s.consumers[c].partition] <= s'.log[s.consumers[c].partition];
  }

  lemma StillSettled(s: Sys, s': Sys, p: nat, o: nat)
    requires Undisturbed(s, s') && p < |s.log| && o < |s.log[p]| && Settled(s, p, o)
    ensures p < |s'.log| && o < |s'.log[p]| && Settled(s', p, o)
  {
    assert s.log[p] <= s'.log[p];
    var r := s.log[p][o];
    if !Undeliverable(r) && Recipient(r.envelope).For? {
      StaysNotified(s.notifications, s'.notifications, r.envelope.id);
    }
  }

  lemma HandledSettles(s: Sys, c: nat, seen: bool)
    requires Enabled(s, Handle(c, seen))
    ensures var k := s.consumers[c]; var s' := Apply(s, Handle(c, seen));
      k.partition < |s'.log| && k.offset < |s'.log[k.partition]| && Settled(s', k.partition, k.offset)
  {
    var k := s.consumers[c];
    var r := s.log[k.partition][k.offset];
    if !Undeliverable(r) && Recipient(r.envelope).For? {
      var n := RowFor(r.envelope);
      if !Notified(s.notifications, n.event) {
        assert Named((s.notifications + [n])[|s.notifications|], n.event);
      }
    }
  }

  // An unseen success followed by a seen one is one success.
  lemma HandledTwice(s: Sys, c: nat)
    requires Enabled(s, Handle(c, true))
    ensures Enabled(s, Handle(c, false))
    ensures var s' := Apply(s, Handle(c, false));
      && s'.consumers == s.consumers && Enabled(s', Handle(c, false)) && Enabled(s', Handle(c, true))
      && Apply(s', Handle(c, false)) == s' && Apply(s', Handle(c, true)) == Apply(s, Handle(c, true))
  {
    hide Effect, Undeliverable;
    EffectElsewhere(s, s.consumers[c].partition, s.consumers[c].offset);
    EffectAgain(s, s.consumers[c].partition, s.consumers[c].offset);
  }

  lemma CommittedTwice(s: Sys, c: nat)
    requires Enabled(s, Action.Commit(c, true))
    ensures Enabled(s, Action.Commit(c, false))
    ensures var s' := Apply(s, Action.Commit(c, false));
      && s'.consumers == s.consumers && Enabled(s', Action.Commit(c, false)) && Enabled(s', Action.Commit(c, true))
      && Apply(s', Action.Commit(c, false)) == s' && Apply(s', Action.Commit(c, true)) == Apply(s, Action.Commit(c, true))
  {
  }

  lemma HandleAndCommit(s: Sys, c: nat)
    requires Enabled(s, Handle(c, true))
    ensures var k, handled := s.consumers[c], Apply(s, Handle(c, true));
      && Enabled(handled, Action.Commit(c, true))
      && Apply(handled, Action.Commit(c, true)) ==
           Effect(s, k.partition, k.offset).(committed := s.committed[k.partition := k.offset + 1],
                                             consumers := s.consumers[c := Consumer(k.partition, k.offset + 1, false)])
  {
    hide Effect, Undeliverable;
    EffectElsewhere(s, s.consumers[c].partition, s.consumers[c].offset);
  }

  // Handling a record a second time adds nothing.
  lemma EffectAgain(s: Sys, p: nat, o: nat)
    requires p < |s.log| && o < |s.log[p]|
    ensures var s' := Effect(s, p, o); s'.log == s.log && Effect(s', p, o) == s'
  {
    var r := s.log[p][o];
    if !Undeliverable(r) && Recipient(r.envelope).For? {
      var n := RowFor(r.envelope);
      if !Notified(s.notifications, n.event) {
        assert Named((s.notifications + [n])[|s.notifications|], n.event);
      }
    }
  }

  predicate FateInRange(f: Fate, partitions: nat)
  {
    match f
    case Sent(p) => p < partitions
    case Refused(landed, _) => landed.Some? ==> landed.value < partitions
    case Unmarked(p, _) => p < partitions
  }
}
