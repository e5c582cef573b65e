/**
 * From the outbox table through the event log to notifications: relays that claim, publish and
 * mark rows, consumers that handle and then commit, and every failure between those steps.
 */
module Pipeline {
  import opened Common
  import opened Notifications

  datatype RowState = Pending | Publishing | Published
  datatype Row = Row(envelope: Envelope, state: RowState)
  // A relay's own memory: the rows it claimed and has not finished, and whether the first of them
  // has been acknowledged by the log.
  datatype Relay = Relay(queue: seq<nat>, written: bool)
  // Garbage is a record some other writer left that does not decode.
  datatype Record = Garbage | Message(envelope: Envelope)
  // A group member reading one partition at one offset; resolved once that record is dealt with.
  datatype Consumer = Consumer(partition: nat, offset: nat, resolved: bool)

  datatype Sys = Sys(rows: map<nat, Row>, relays: seq<Relay>, log: seq<seq<Record>>, committed: seq<nat>,
                     consumers: map<nat, Consumer>, notifications: seq<Notification>, dead: set<(nat, nat)>, dlq: bool)

  const BATCH := 50

  datatype Action =
    | Enqueue(envelope: Envelope)
    | Foreign(partition: nat)
    // Claims older than a minute go back; nothing says their relay is gone.
    | Recover(ids: set<nat>)
    | Claim(relay: nat, claimed: seq<nat>)
    | Publish(relay: nat, partition: nat)
    // A copy that lands although its writer never learned so.
    | Duplicate(id: nat, partition: nat)
    // A reported write error ends the batch; putting the row back may fail as well.
    | WriteFails(relay: nat, saved: bool)
    | Mark(relay: nat)
    // A crash, or a failed mark: the claims stay behind in the table.
    | Stop(relay: nat)
    | Join(consumer: nat, partition: nat)
    | Leave(consumer: nat)
    // The effect may happen without its consumer seeing it succeed; then it is tried again.
    | Handle(consumer: nat, seen: bool)
    | Commit(consumer: nat, seen: bool)

  const IDLE := Relay([], false)

  predicate Undeliverable(r: Record)
  {
    r.Garbage? || Recipient(r.envelope).Malformed?
  }

  predicate Reads(s: Sys, c: nat)
  {
    && c in s.consumers
    && s.consumers[c].partition < |s.log| == |s.committed|
    && s.consumers[c].offset < |s.log[s.consumers[c].partition]|
  }

  function Under(s: Sys, c: nat): Record
    requires Reads(s, c)
  {
    s.log[s.consumers[c].partition][s.consumers[c].offset]
  }

  predicate Enabled(s: Sys, a: Action)
  {
    match a
    case Enqueue(e) => e.id !in s.rows
    case Foreign(p) => p < |s.log|
    case Recover(ids) => forall id :: id in ids ==> id in s.rows && s.rows[id].state == Publishing
    case Claim(r, ids) =>
      && r < |s.relays| && s.relays[r].queue == [] && 0 < |ids| <= BATCH
      && (forall i :: 0 <= i < |ids| ==> ids[i] in s.rows && s.rows[ids[i]].state == Pending)
      && (forall i, j :: 0 <= i < j < |ids| ==> ids[i] != ids[j])
    case Publish(r, p) => r < |s.relays| && s.relays[r].queue != [] && !s.relays[r].written && p < |s.log| && s.relays[r].queue[0] in s.rows
    case Duplicate(id, p) => id in s.rows && p < |s.log|
    case WriteFails(r, _) => r < |s.relays| && s.relays[r].queue != [] && !s.relays[r].written && s.relays[r].queue[0] in s.rows
    case Mark(r) => r < |s.relays| && s.relays[r].queue != [] && s.relays[r].written && s.relays[r].queue[0] in s.rows
    case Stop(r) => r < |s.relays|
    case Join(c, p) => p < |s.log| == |s.committed|
    case Leave(c) => true
    case Handle(c, _) => Reads(s, c) && !s.consumers[c].resolved && (Undeliverable(Under(s, c)) ==> s.dlq)
    case Commit(c, _) => Reads(s, c) && s.consumers[c].resolved
  }

  function Restated(rows: map<nat, Row>, ids: set<nat>, state: RowState): map<nat, Row>
  {
    map id | id in rows :: if id in ids then rows[id].(state := state) else rows[id]
  }

  function Appended(log: seq<seq<Record>>, p: nat, r: Record): seq<seq<Record>>
    requires p < |log|
  {
    log[p := log[p] + [r]]
  }

  function IdSet(ids: seq<nat>): set<nat>
  {
    set i | 0 <= i < |ids| :: ids[i]
  }

  // What handling a record does: a notification, a dead letter, or nothing.
  function Effect(s: Sys, p: nat, o: nat): Sys
    requires p < |s.log| && o < |s.log[p]|
  {
    var r := s.log[p][o];
    if Undeliverable(r) then s.(dead := s.dead + {(p, o)})
    else if Recipient(r.envelope).For? then s.(notifications := Insert(s.notifications, RowFor(r.envelope)))
    else s
  }

  function Apply(s: Sys, a: Action): Sys
    requires Enabled(s, a)
  {
    match a
    case Enqueue(e) => s.(rows := s.rows[e.id := Row(e, Pending)])
    case Foreign(p) => s.(log := Appended(s.log, p, Garbage))
    case Recover(ids) => s.(rows := Restated(s.rows, ids, Pending))
    case Claim(r, ids) => s.(rows := Restated(s.rows, IdSet(ids), Publishing), relays := s.relays[r := Relay(ids, false)])
    case Publish(r, p) =>
      var q := s.relays[r].queue;
      s.(log := Appended(s.log, p, Message(s.rows[q[0]].envelope)), relays := s.relays[r := Relay(q, true)])
    case Duplicate(id, p) => s.(log := Appended(s.log, p, Message(s.rows[id].envelope)))
    case WriteFails(r, saved) =>
      s.(rows := if saved then Restated(s.rows, {s.relays[r].queue[0]}, Pending) else s.rows, relays := s.relays[r := IDLE])
    case Mark(r) =>
      var q := s.relays[r].queue;
      s.(rows := Restated(s.rows, {q[0]}, Published), relays := s.relays[r := Relay(q[1..], false)])
    case Stop(r) => s.(relays := s.relays[r := IDLE])
    case Join(c, p) => s.(consumers := s.consumers[c := Consumer(p, s.committed[p], false)])
    case Leave(c) => s.(consumers := s.consumers - {c})
    case Handle(c, seen) =>
      var k := s.consumers[c];
      var s' := Effect(s, k.partition, k.offset);
      if seen then s'.(consumers := s.consumers[c := k.(resolved := true)]) else s'
    case Commit(c, seen) =>
      var k := s.consumers[c];
      var s' := s.(committed := s.committed[k.partition := k.offset + 1]);
      if seen then s'.(consumers := s.consumers[c := Consumer(k.partition, k.offset + 1, false)]) else s'
  }

  predicate Next(s: Sys, a: Action, s': Sys)
  {
    Enabled(s, a) && s' == Apply(s, a)
  }

  // ---- The invariant ------------------------------------------------------------------------

  predicate At(log: seq<seq<Record>>, p: nat, o: nat, id: nat)
  {
    p < |log| && o < |log[p]| && log[p][o].Message? && log[p][o].envelope.id == id
  }

  ghost predicate InLog(log: seq<seq<Record>>, id: nat)
  {
    exists p: nat, o: nat :: At(log, p, o, id)
  }

  ghost predicate RowsInv(rows: map<nat, Row>, log: seq<seq<Record>>)
  {
    && (forall id :: id in rows ==> rows[id].envelope.id == id)
    && (forall id :: id in rows && rows[id].state == Published ==> InLog(log, id))
  }

  predicate LogInv(rows: map<nat, Row>, log: seq<seq<Record>>)
  {
    forall p, o :: 0 <= p < |log| && 0 <= o < |log[p]| && log[p][o].Message? ==>
      log[p][o].envelope.id in rows && rows[log[p][o].envelope.id].envelope == log[p][o].envelope
  }

  ghost predicate RelayOk(r: Relay, rows: map<nat, Row>, log: seq<seq<Record>>)
  {
    && |r.queue| <= BATCH
    && (forall i :: 0 <= i < |r.queue| ==> r.queue[i] in rows)
    && (r.queue != [] && r.written ==> InLog(log, r.queue[0]))
  }

  ghost predicate RelaysInv(relays: seq<Relay>, rows: map<nat, Row>, log: seq<seq<Record>>)
  {
    forall i :: 0 <= i < |relays| ==> RelayOk(relays[i], rows, log)
  }

  // A record that needs no further attention.
  predicate Settled(s: Sys, p: nat, o: nat)
    requires p < |s.log| && o < |s.log[p]|
  {
    var r := s.log[p][o];
    if Undeliverable(r) then (p, o) in s.dead
    else Recipient(r.envelope).For? ==> Notified(s.notifications, r.envelope.id)
  }

  predicate SettledBelow(s: Sys, p: nat, n: nat)
  {
    p < |s.log| && n <= |s.log[p]| && forall o :: 0 <= o < n ==> Settled(s, p, o)
  }

  predicate OffsetsInv(s: Sys)
  {
    && |s.committed| == |s.log|
    && forall p :: 0 <= p < |s.log| ==> SettledBelow(s, p, s.committed[p])
  }

  predicate ConsumersInv(s: Sys)
  {
    forall c :: c in s.consumers ==>
      SettledBelow(s, s.consumers[c].partition, s.consumers[c].offset + if s.consumers[c].resolved then 1 else 0)
  }

  // Every notification is the one its event asks for, and no event has two.
  predicate NotificationsInv(rows: map<nat, Row>, ns: seq<Notification>)
  {
    && OnePerEvent(ns)
    && forall i :: 0 <= i < |ns| ==>
         ns[i].event in rows && Recipient(rows[ns[i].event].envelope).For? && ns[i] == RowFor(rows[ns[i].event].envelope)
  }

  predicate DeadInv(s: Sys)
  {
    forall d :: d in s.dead ==> d.0 < |s.log| && d.1 < |s.log[d.0]| && Undeliverable(s.log[d.0][d.1])
  }

  ghost predicate Inv(s: Sys)
  {
    && RowsInv(s.rows, s.log) && LogInv(s.rows, s.log) && RelaysInv(s.relays, s.rows, s.log)
    && OffsetsInv(s) && ConsumersInv(s) && NotificationsInv(s.rows, s.notifications) && DeadInv(s)
  }

  // ---- Preservation -------------------------------------------------------------------------

  predicate LogGrows(log: seq<seq<Record>>, log': seq<seq<Record>>)
  {
    |log'| == |log| && forall p :: 0 <= p < |log| ==> log[p] <= log'[p]
  }

  // Envelopes of rows never change and rows never go.
  predicate RowsKept(rows: map<nat, Row>, rows': map<nat, Row>)
  {
    forall id :: id in rows ==> id in rows' && rows'[id].envelope == rows[id].envelope
  }

  lemma StaysInLog(log: seq<seq<Record>>, log': seq<seq<Record>>, id: nat)
    requires LogGrows(log, log') && InLog(log, id)
    ensures InLog(log', id)
  {
    var p: nat, o: nat :| At(log, p, o, id);
    assert log[p] <= log'[p];
    assert At(log', p, o, id);
  }

  lemma StaysNotified(ns: seq<Notification>, ns': seq<Notification>, event: nat)
    requires ns <= ns' && Notified(ns, event)
    ensures Notified(ns', event)
  {
    var i :| 0 <= i < |ns| && Named(ns[i], event);
    assert Named(ns'[i], event);
  }

  lemma StaysSettled(s: Sys, s': Sys, p: nat, n: nat)
    requires LogGrows(s.log, s'.log) && s.notifications <= s'.notifications && s.dead <= s'.dead
    requires SettledBelow(s, p, n)
    ensures SettledBelow(s', p, n)
  {
    hide Recipient, Notified;
    assert s.log[p] <= s'.log[p];
    forall o | 0 <= o < n
      ensures Settled(s', p, o)
    {
      assert Settled(s, p, o) && s'.log[p][o] == s.log[p][o];
      if !Undeliverable(s.log[p][o]) && Recipient(s.log[p][o].envelope).For? {
        StaysNotified(s.notifications, s'.notifications, s.log[p][o].envelope.id);
      }
    }
  }

  // Steps of relays and writers: rows restated, records appended, consumers left alone.
  lemma WritersKeep(s: Sys, s': Sys)
    requires Inv(s) && RowsKept(s.rows, s'.rows) && LogGrows(s.log, s'.log)
    requires s'.committed == s.committed && s'.consumers == s.consumers && s'.notifications == s.notifications && s'.dead == s.dead
    requires RowsInv(s'.rows, s'.log) && LogInv(s'.rows, s'.log) && RelaysInv(s'.relays, s'.rows, s'.log)
    ensures Inv(s')
  {
    hide Recipient, RowsInv, LogInv, RelaysInv, SettledBelow, Undeliverable;
    forall p | 0 <= p < |s'.log|
      ensures SettledBelow(s', p, s'.committed[p])
    {
      StaysSettled(s, s', p, s.committed[p]);
    }
    forall c | c in s'.consumers
      ensures SettledBelow(s', s'.consumers[c].partition, s'.consumers[c].offset + if s'.consumers[c].resolved then 1 else 0)
    {
      StaysSettled(s, s', s.consumers[c].partition, s.consumers[c].offset + if s.consumers[c].resolved then 1 else 0);
    }
    forall d | d in s'.dead
      ensures d.0 < |s'.log| && d.1 < |s'.log[d.0]| && Undeliverable(s'.log[d.0][d.1])
    {
      assert s.log[d.0] <= s'.log[d.0];
    }
  }

  lemma RelaysStay(relays: seq<Relay>, rows: map<nat, Row>, log: seq<seq<Record>>, rows': map<nat, Row>, log': seq<seq<Record>>)
    requires RelaysInv(relays, rows, log) && RowsKept(rows, rows') && LogGrows(log, log')
    ensures RelaysInv(relays, rows', log')
  {
    forall i | 0 <= i < |relays|
      ensures RelayOk(relays[i], rows', log')
    {
      assert RelayOk(relays[i], rows, log);
      if relays[i].queue != [] && relays[i].written {
        StaysInLog(log, log', relays[i].queue[0]);
      }
    }
  }

  lemma RestatedKeeps(rows: map<nat, Row>, log: seq<seq<Record>>, ids: set<nat>, state: RowState)
    requires RowsInv(rows, log) && LogInv(rows, log)
    requires state == Published ==> forall id :: id in ids ==> InLog(log, id)
    ensures var rows' := Restated(rows, ids, state); RowsKept(rows, rows') && RowsInv(rows', log) && LogInv(rows', log)
  {
  }

  lemma AppendedKeeps(rows: map<nat, Row>, log: seq<seq<Record>>, p: nat, r: Record)
    requires RowsInv(rows, log) && LogInv(rows, log) && p < |log|
    requires r.Message? ==> r.envelope.id in rows && rows[r.envelope.id].envelope == r.envelope
    ensures var log' := Appended(log, p, r); LogGrows(log, log') && RowsInv(rows, log') && LogInv(rows, log')
    ensures r.Message? ==> InLog(Appended(log, p, r), r.envelope.id)
  {
    var log' := Appended(log, p, r);
    forall id | id in rows && rows[id].state == Published
      ensures InLog(log', id)
    {
      StaysInLog(log, log', id);
    }
    if r.Message? {
      assert At(log', p, |log[p]|, r.envelope.id);
    }
  }

  lemma RowsMove(s: Sys, ids: set<nat>, state: RowState, relays: seq<Relay>)
    requires Inv(s) && (state == Published ==> forall id :: id in ids ==> InLog(s.log, id))
    requires RelaysInv(relays, s.rows, s.log)
    ensures Inv(s.(rows := Restated(s.rows, ids, state), relays := relays))
  {
    hide Recipient, SettledBelow, Settled, Undeliverable, Restated, InLog, LogInv, RowsInv, RelayOk;
    RestatedKeeps(s.rows, s.log, ids, state);
    RelaysStay(relays, s.rows, s.log, Restated(s.rows, ids, state), s.log);
    WritersKeep(s, s.(rows := Restated(s.rows, ids, state), relays := relays));
  }

  lemma RelayReplaced(s: Sys, r: nat, relay: Relay)
    requires RelaysInv(s.relays, s.rows, s.log) && r < |s.relays| && RelayOk(relay, s.rows, s.log)
    ensures RelaysInv(s.relays[r := relay], s.rows, s.log)
  {
    hide RelayOk;
  }

  lemma NothingRestated(rows: map<nat, Row>)
    ensures Restated(rows, {}, Pending) == rows
  {
  }

  lemma RelayKeeps(s: Sys, a: Action)
    requires Inv(s) && Enabled(s, a)
    requires a.Recover? || a.Claim? || a.WriteFails? || a.Mark? || a.Stop?
    ensures Inv(Apply(s, a))
  {
    hide Inv, Recipient, Restated, InLog, RelaysInv;
    RelaysPart(s);
    NothingRestated(s.rows);
    match a
    case Recover(ids) => RowsMove(s, ids, Pending, s.relays);
    case Claim(r, ids) =>
      RelayReplaced(s, r, Relay(ids, false));
      RowsMove(s, IdSet(ids), Publishing, s.relays[r := Relay(ids, false)]);
    case WriteFails(r, saved) =>
      RelayReplaced(s, r, IDLE);
      RowsMove(s, if saved then {s.relays[r].queue[0]} else {}, Pending, s.relays[r := IDLE]);
    case Mark(r) =>
      var q := s.relays[r].queue;
      RelayReplaced(s, r, Relay(q[1..], false));
      RowsMove(s, {q[0]}, Published, s.relays[r := Relay(q[1..], false)]);
    case Stop(r) =>
      RelayReplaced(s, r, IDLE);
      RowsMove(s, {}, Pending, s.relays[r := IDLE]);
  }

  lemma RelaysPart(s: Sys)
    requires Inv(s)
    ensures RelaysInv(s.relays, s.rows, s.log)
    ensures forall r :: 0 <= r < |s.relays| ==> RelayOk(s.relays[r], s.rows, s.log)
  {
  }

  lemma RecordLands(s: Sys, p: nat, r: Record, relays: seq<Relay>)
    requires Inv(s) && p < |s.log|
    requires r.Message? ==> r.envelope.id in s.rows && s.rows[r.envelope.id].envelope == r.envelope
    requires RelaysInv(relays, s.rows, Appended(s.log, p, r))
    ensures Inv(s.(log := Appended(s.log, p, r), relays := relays))
  {
    hide Recipient, SettledBelow, Settled, Undeliverable, Appended, InLog, LogInv, RowsInv, RelayOk;
    AppendedKeeps(s.rows, s.log, p, r);
    WritersKeep(s, s.(log := Appended(s.log, p, r), relays := relays));
  }

  lemma AppendKeeps(s: Sys, a: Action)
    requires Inv(s) && Enabled(s, a) && (a.Foreign? || a.Publish? || a.Duplicate?)
    ensures Inv(Apply(s, a))
  {
    hide Recipient, Appended, RelaysInv, SettledBelow, LogInv, InLog;
    RelaysPart(s);
    match a
    case Foreign(p) =>
      AppendedKeeps(s.rows, s.log, p, Garbage);
      RelaysStay(s.relays, s.rows, s.log, s.rows, Appended(s.log, p, Garbage));
      RecordLands(s, p, Garbage, s.relays);
    case Duplicate(id, p) =>
      var m := Message(s.rows[id].envelope);
      AppendedKeeps(s.rows, s.log, p, m);
      RelaysStay(s.relays, s.rows, s.log, s.rows, Appended(s.log, p, m));
      RecordLands(s, p, m, s.relays);
    case Publish(r, p) =>
      var q := s.relays[r].queue;
      var m := Message(s.rows[q[0]].envelope);
      AppendedKeeps(s.rows, s.log, p, m);
      RelaysStay(s.relays, s.rows, s.log, s.rows, Appended(s.log, p, m));
      var s' := s.(log := Appended(s.log, p, m));
      RelayReplaced(s', r, Relay(q, true));
      RecordLands(s, p, m, s.relays[r := Relay(q, true)]);
  }

  lemma EnqueueKeeps(s: Sys, e: Envelope)
    requires Inv(s) && e.id !in s.rows
    ensures Inv(Apply(s, Enqueue(e)))
  {
    hide Recipient, SettledBelow, Settled, Undeliverable;
    var s' := Apply(s, Enqueue(e));
    RelaysStay(s.relays, s.rows, s.log, s'.rows, s'.log);
    WritersKeep(s, s');
  }

  lemma EffectSettles(s: Sys, p: nat, o: nat)
    requires p < |s.log| && o < |s.log[p]| && Inv(s)
    ensures var s' := Effect(s, p, o);
      && Settled(s', p, o) && s.notifications <= s'.notifications && s.dead <= s'.dead
      && NotificationsInv(s'.rows, s'.notifications) && DeadInv(s')
  {
    var r := s.log[p][o];
    if !Undeliverable(r) && Recipient(r.envelope).For? {
      InsertOnce(s.notifications, RowFor(r.envelope));
    }
  }

  lemma HandleKeeps(s: Sys, c: nat, seen: bool)
    requires Inv(s) && Enabled(s, Handle(c, seen))
    ensures Inv(Apply(s, Handle(c, seen)))
  {
    hide Recipient, RowsInv, LogInv, RelaysInv, Undeliverable, NotificationsInv, Notified, DeadInv, Settled;
    var k := s.consumers[c];
    var s' := Apply(s, Handle(c, seen));
    EffectSettles(s, k.partition, k.offset);
    EffectElsewhere(s, k.partition, k.offset);
    SameSettled(Effect(s, k.partition, k.offset), s', k.partition, k.offset);
    SameDead(Effect(s, k.partition, k.offset), s');
    forall p | 0 <= p < |s'.log|
      ensures SettledBelow(s', p, s'.committed[p])
    {
      StaysSettled(s, s', p, s.committed[p]);
    }
    forall d | d in s'.consumers
      ensures SettledBelow(s', s'.consumers[d].partition, s'.consumers[d].offset + if s'.consumers[d].resolved then 1 else 0)
    {
      StaysSettled(s, s', s.consumers[d].partition, s.consumers[d].offset + if s.consumers[d].resolved then 1 else 0);
    }
  }

  lemma EffectElsewhere(s: Sys, p: nat, o: nat)
    requires p < |s.log| && o < |s.log[p]|
    ensures var s' := Effect(s, p, o); s'.(notifications := s.notifications, dead := s.dead) == s
  {
    hide Recipient, Insert;
  }

  lemma SameSettled(s: Sys, s': Sys, p: nat, o: nat)
    requires s'.(consumers := s.consumers) == s && p < |s.log| && o < |s.log[p]| && Settled(s, p, o)
    ensures Settled(s', p, o)
  {
  }

  lemma SameDead(s: Sys, s': Sys)
    requires s'.(consumers := s.consumers) == s && DeadInv(s)
    ensures DeadInv(s')
  {
  }

  lemma MemberKeeps(s: Sys, a: Action)
    requires Inv(s) && Enabled(s, a) && (a.Join? || a.Leave? || a.Commit?)
    ensures Inv(Apply(s, a))
  {
    hide Recipient, RowsInv, LogInv, RelaysInv, Undeliverable, NotificationsInv, DeadInv, SettledBelow;
    var s' := Apply(s, a);
    forall p: nat, n: nat | SettledBelow(s, p, n)
      ensures SettledBelow(s', p, n)
    {
      StaysSettled(s, s', p, n);
    }
    DeadElsewhere(s, s');
  }

  lemma DeadElsewhere(s: Sys, s': Sys)
    requires DeadInv(s) && s'.dead == s.dead && s'.log == s.log
    ensures DeadInv(s')
  {
  }

  lemma NextKeeps(s: Sys, a: Action)
    requires Inv(s) && Enabled(s, a)
    ensures Inv(Apply(s, a))
  {
    hide Inv, Apply, Enabled;
    match a
    case Enqueue(e) => FreshRow(s, e); EnqueueKeeps(s, e);
    case Foreign(_) => AppendKeeps(s, a);
    case Publish(_, _) => AppendKeeps(s, a);
    case Duplicate(_, _) => AppendKeeps(s, a);
    case Handle(c, seen) => HandleKeeps(s, c, seen);
    case Join(_, _) => MemberKeeps(s, a);
    case Leave(_) => MemberKeeps(s, a);
    case Commit(_, _) => MemberKeeps(s, a);
    case _ => RelayKeeps(s, a);
  }

  lemma FreshRow(s: Sys, e: Envelope)
    requires Enabled(s, Enqueue(e))
    ensures e.id !in s.rows
  {
  }

  // ---- What no step undoes ------------------------------------------------------------------

  lemma StepShape(s: Sys, a: Action)
    requires Enabled(s, a)
    ensures var s' := Apply(s, a); |s'.relays| == |s.relays| && |s'.log| == |s.log| && s'.dlq == s.dlq && |s'.committed| == |s.committed|
  {
    hide Recipient, Undeliverable, Insert;
  }

  lemma StepGrows(s: Sys, a: Action)
    requires Enabled(s, a)
    ensures LogGrows(s.log, Apply(s, a).log) && RowsKept(s.rows, Apply(s, a).rows)
  {
    hide Recipient, Insert, Undeliverable;
  }

  lemma GrowsOn(a: seq<seq<Record>>, b: seq<seq<Record>>, c: seq<seq<Record>>)
    requires LogGrows(a, b) && LogGrows(b, c)
    ensures LogGrows(a, c)
  {
    forall p | 0 <= p < |a|
      ensures a[p] <= c[p]
    {
      assert a[p] <= b[p] && b[p] <= c[p];
    }
  }

  // ---- Runs ---------------------------------------------------------------------------------

  predicate Initial(s: Sys)
  {
    && s.rows == map[] && s.consumers == map[] && s.notifications == [] && s.dead == {}
    && |s.committed| == |s.log|
    && (forall i :: 0 <= i < |s.relays| ==> s.relays[i] == IDLE)
    && (forall p :: 0 <= p < |s.log| ==> s.log[p] == [] && s.committed[p] == 0)
  }

  predicate Run(states: seq<Sys>, actions: seq<Action>)
  {
    && |states| == |actions| + 1
    && Initial(states[0])
    && forall i :: 0 <= i < |actions| ==> Next(states[i], actions[i], states[i + 1])
  }

  lemma InitiallyInv(s: Sys)
    requires Initial(s)
    ensures Inv(s)
  {
  }

  lemma {:induction false} RunKeepsInv(states: seq<Sys>, actions: seq<Action>, n: nat)
    requires Run(states, actions) && n < |states|
    ensures Inv(states[n])
  {
    hide Inv, Enabled, Apply, Initial;
    if n == 0 {
      InitiallyInv(states[0]);
    } else {
      RunKeepsInv(states, actions, n - 1);
      assert Next(states[n - 1], actions[n - 1], states[n]);
      NextKeeps(states[n - 1], actions[n - 1]);
    }
  }

  predicate Drained(s: Sys)
  {
    && |s.committed| == |s.log|
    && (forall id :: id in s.rows ==> s.rows[id].state == Published)
    && (forall p :: 0 <= p < |s.log| ==> s.committed[p] == |s.log[p]|)
  }

  // Safety, in every reachable state and whatever has failed so far.
  lemma ReachableIsSafe(states: seq<Sys>, actions: seq<Action>, n: nat)
    requires Run(states, actions) && n < |states|
    ensures var s := states[n];
      && (forall id :: id in s.rows && s.rows[id].state == Published ==> InLog(s.log, id))
      && |s.committed| == |s.log|
      && (forall p, o :: 0 <= p < |s.log| && 0 <= o < s.committed[p] ==> o < |s.log[p]| && Settled(s, p, o))
      && (forall i, j :: 0 <= i < j < |s.notifications| ==> s.notifications[i].event != s.notifications[j].event)
      && DeadInv(s)
  {
    hide Settled, InLog, Recipient;
    RunKeepsInv(states, actions, n);
    var s := states[n];
    forall p, o | 0 <= p < |s.log| && 0 <= o < s.committed[p]
      ensures o < |s.log[p]| && Settled(s, p, o)
    {
      assert SettledBelow(s, p, s.committed[p]);
    }
  }

  // Exactly once: when every row is published and every offset committed, each event has one
  // notification if it concerns a user and none otherwise, and a malformed one is a dead letter.
  lemma DrainedIsExact(states: seq<Sys>, actions: seq<Action>, n: nat, id: nat)
    requires Run(states, actions) && n < |states| && Drained(states[n]) && id in states[n].rows
    ensures var s, e := states[n], states[n].rows[id].envelope;
      && (Recipient(e).For? ==> exists i :: 0 <= i < |s.notifications| && s.notifications[i] == RowFor(e)
                                   && forall j :: 0 <= j < |s.notifications| && s.notifications[j].event == id ==> j == i)
      && (!Recipient(e).For? ==> !Notified(s.notifications, id))
      && (Recipient(e).Malformed? ==> exists d :: d in s.dead && At(s.log, d.0, d.1, id))
  {
    hide Recipient;
    RunKeepsInv(states, actions, n);
    var s, e := states[n], states[n].rows[id].envelope;
    assert InLog(s.log, id);
    var p: nat, o: nat :| At(s.log, p, o, id);
    assert SettledBelow(s, p, s.committed[p]) && Settled(s, p, o);
    assert s.log[p][o].envelope == e;
    if Recipient(e).For? {
      var i :| 0 <= i < |s.notifications| && Named(s.notifications[i], id);
    } else if Recipient(e).Malformed? {
      assert (p, o) in s.dead && At(s.log, (p, o).0, (p, o).1, id);
    }
  }
}
