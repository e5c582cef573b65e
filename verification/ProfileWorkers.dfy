/**
 * The enricher's batch loop and the profile update script as they run, step by step over mutable
 * state, proved against the replay protocol.
 */
module ProfileWorkers {
  import opened Common
  import opened ProfileWindow
  import opened ProfileRuns
  import opened Traces

  // ---- Enricher -----------------------------------------------------------------------------

  // What one fetch comes back with: a message, or the end of its short wait.
  datatype Fetch = Arrived | Waited
  // A broken send may have landed a part of the batch; so may one whose commit was lost.
  datatype Send = Accepted | Broken(landed: nat)
  // What the category lookups of a batch answer, and how its send ends.
  datatype Round = Round(answer: nat -> Option<seq<nat>>, send: Send)

  function Found(answer: nat -> Option<seq<nat>>, topic: nat): seq<nat>
  {
    if answer(topic).Some? then answer(topic).value else []
  }

  // The copies of the valid events among the first n of a batch that starts at c, in order.
  function CopiesOf(raw: seq<Raw>, c: nat, n: nat, answer: nat -> Option<seq<nat>>, topics: seq<nat>): (cs: seq<Enriched>)
    requires c + n <= |raw| && |topics| == |raw|
  {
    if n == 0 then []
    else
      var x := c + n - 1;
      var cs := CopiesOf(raw, c, n - 1, answer, topics);
      if raw[x].valid then cs + [Enriched(x, raw[x].id, raw[x].user, raw[x].weight, Found(answer, topics[x]))] else cs
  }

  lemma {:induction false} CopiesFaithful(raw: seq<Raw>, c: nat, n: nat, answer: nat -> Option<seq<nat>>, topics: seq<nat>)
    requires c + n <= |raw| && |topics| == |raw|
    ensures var cs := CopiesOf(raw, c, n, answer, topics);
      && (forall i :: 0 <= i < |cs| ==> IsCopy(raw, cs[i]) && c <= cs[i].source < c + n)
      && (forall x :: c <= x < c + n && raw[x].valid ==> Copied(cs, x))
      && (forall i, y :: 0 <= i < |cs| && c <= y < cs[i].source && raw[y].valid ==> Copied(cs[..i], y))
  {
    if n > 0 {
      CopiesFaithful(raw, c, n - 1, answer, topics);
      var x := c + n - 1;
      var before, cs := CopiesOf(raw, c, n - 1, answer, topics), CopiesOf(raw, c, n, answer, topics);
      forall y | c <= y < c + n && raw[y].valid
        ensures Copied(cs, y)
      {
        if y < x {
          CopiedLonger(before, cs, y);
        } else {
          assert cs[|before|].source == y;
        }
      }
      forall i, y | 0 <= i < |cs| && c <= y < cs[i].source && raw[y].valid
        ensures Copied(cs[..i], y)
      {
        assert i < |before| ==> cs[..i] == before[..i];
        assert i == |before| ==> cs[..i] == before;
      }
    }
  }

  // The copies of a whole batch, in order.
  predicate WholeBatch(s: Sys, size: nat, cs: seq<Enriched>)
    requires s.committed + size <= |s.raw|
  {
    && (forall i :: 0 <= i < |cs| ==> IsCopy(s.raw, cs[i]) && s.committed <= cs[i].source < s.committed + size)
    && (forall x :: s.committed <= x < s.committed + size && s.raw[x].valid ==> Copied(cs, x))
    && (forall i, y :: 0 <= i < |cs| && s.committed <= y < cs[i].source && s.raw[y].valid ==> Copied(cs[..i], y))
  }

  lemma PrefixIsAttempt(s: Sys, size: nat, cs: seq<Enriched>, landed: nat)
    requires 1 <= size <= BATCH && s.committed + size <= |s.raw| && landed <= |cs| && WholeBatch(s, size, cs)
    ensures Enabled(s, Attempt(size, cs[..landed], false))
    ensures landed == |cs| ==> Enabled(s, Attempt(size, cs[..landed], true))
  {
    hide Copied, IsCopy;
    assert landed == |cs| ==> cs[..landed] == cs;
  }

  lemma PrefixIsOrderly(s: Sys, size: nat, cs: seq<Enriched>, landed: nat)
    requires s.committed + size <= |s.raw| && landed <= |cs| && WholeBatch(s, size, cs)
    ensures Orderly(s, cs[..landed])
  {
    hide IsCopy;
    var copies := cs[..landed];
    forall i, y | 0 <= i < |copies| && s.committed <= y < copies[i].source && y < |s.raw| && s.raw[y].valid
      ensures Copied(s.log + copies[..i], y)
    {
      assert copies[..i] == cs[..i];
      var n :| 0 <= n < i && cs[..i][n].source == y;
      assert (s.log + copies[..i])[|s.log| + n].source == y;
    }
  }

  predicate AsksFor(raw: seq<Raw>, c: nat, n: nat, topics: seq<nat>, topic: nat)
    requires c + n <= |raw| && |topics| == |raw|
  {
    exists x :: c <= x < c + n && raw[x].valid && topics[x] == topic
  }

  // Sorts one batch into copies and dead letters. A topic, which an event type with its product
  // or query stands for, is looked up once per batch; the first lookup that fails ends it. asked
  // lists the lookups made.
  method ProcessBatch(raw: seq<Raw>, c: nat, size: nat, topics: seq<nat>, answer: nat -> Option<seq<nat>>)
    returns (ok: bool, valid: seq<Enriched>, dead: seq<nat>, asked: seq<nat>)
    requires c + size <= |raw| && |topics| == |raw|
    ensures ok <==> forall t: nat :: AsksFor(raw, c, size, topics, t) ==> answer(t).Some?
    ensures ok ==> valid == CopiesOf(raw, c, size, answer, topics) && |valid| + |dead| == size
    ensures ok ==> forall x :: x in dead <==> c <= x < c + size && !raw[x].valid
    ensures forall i, j :: 0 <= i < j < |asked| ==> asked[i] != asked[j]
    ensures forall i :: 0 <= i < |asked| ==> AsksFor(raw, c, size, topics, asked[i]) && (answer(asked[i]).None? ==> i == |asked| - 1 && !ok)
    ensures ok ==> forall t: nat :: AsksFor(raw, c, size, topics, t) ==> t in asked
  {
    ok, valid, dead, asked := true, [], [], [];
    var lookups: map<nat, seq<nat>> := map[];
    for i := 0 to size
      invariant ok && valid == CopiesOf(raw, c, i, answer, topics)
      invariant forall x :: x in dead <==> c <= x < c + i && !raw[x].valid
      invariant |valid| + |dead| == i
      invariant forall t :: t in lookups <==> t in asked
      invariant forall t :: t in lookups ==> answer(t) == Some(lookups[t])
      invariant forall j, k :: 0 <= j < k < |asked| ==> asked[j] != asked[k]
      invariant forall j :: 0 <= j < |asked| ==> AsksFor(raw, c, size, topics, asked[j])
      invariant forall x :: c <= x < c + i && raw[x].valid ==> topics[x] in asked
    {
      var x := c + i;
      if !raw[x].valid {
        dead := dead + [x];
      } else {
        if topics[x] !in lookups {
          asked := asked + [topics[x]];
          var categories := answer(topics[x]);
          if categories.None? {
            assert AsksFor(raw, c, size, topics, topics[x]);
            return false, valid, dead, asked;
          }
          lookups := lookups[topics[x] := categories.value];
        }
        valid := valid + [Enriched(x, raw[x].id, raw[x].user, raw[x].weight, lookups[topics[x]])];
      }
    }
  }

  // A step of the protocol in which batches reach the log from their front.
  predicate OrderlyNext(s: Sys, a: Action, s': Sys)
  {
    Enabled(s, a) && (a.Attempt? ==> Orderly(s, a.copies)) && s' == Apply(s, a)
  }

  // A lookup failed on a topic of some event.
  predicate LookupFails(raw: seq<Raw>, topics: seq<nat>, answer: nat -> Option<seq<nat>>)
    requires |topics| == |raw|
  {
    exists x :: 0 <= x < |raw| && raw[x].valid && answer(topics[x]).None?
  }

  // Fetches, fills a batch of at most 200, publishes it and commits, until fetches or rounds end
  // or a round fails. n counts the rounds used.
  method Enrich(start: Sys, fetches: seq<Fetch>, rounds: seq<Round>, topics: seq<nat>)
    returns (ok: bool, n: nat, s: Sys, ghost actions: seq<Action>)
    requires start.committed <= |start.raw| && |topics| == |start.raw|
    ensures Steps(OrderlyNext, start, actions, s)
    ensures n <= |rounds| && |actions| <= n && forall i :: 0 <= i < |actions| ==> actions[i].Attempt? && (ok || i < n - 1 ==> actions[i].done)
    ensures ok ==> |actions| == n && forall i :: 0 <= i < n ==> rounds[i].send.Accepted?
    ensures !ok ==> n > 0
    ensures !ok ==> (|actions| == n && rounds[n - 1].send.Broken? && !actions[n - 1].done)
                    || (|actions| == n - 1 && LookupFails(start.raw, topics, rounds[n - 1].answer))
    ensures s.raw == start.raw && start.log <= s.log && start.committed <= s.committed <= |s.raw|
  {
    hide Steps, Enabled, Apply, CopiesOf, Orderly, IsCopy, Copied;
    s, actions, ok, n := start, [], true, 0;
    NoSteps(OrderlyNext, start);
    var batch := 0;
    for k := 0 to |fetches|
      invariant ok && Steps(OrderlyNext, start, actions, s) && s.raw == start.raw && start.log <= s.log
      invariant start.committed <= s.committed && s.committed + batch <= |s.raw| && 0 <= batch < BATCH
      invariant n == |actions| <= |rounds| && forall i :: 0 <= i < n ==> actions[i].Attempt? && actions[i].done && rounds[i].send.Accepted?
    {
      if fetches[k] == Arrived && s.committed + batch < |s.raw| {
        batch := batch + 1;
      }
      if batch >= BATCH || (fetches[k] == Waited && batch > 0) {
        if n == |rounds| {
          return;
        }
        ok, s, actions := PublishBatch(batch, rounds[n], topics, s, actions, start);
        n := n + 1;
        if !ok {
          return;
        }
        batch := 0;
      }
    }
  }

  // One round: the batch is sorted, published as far as the send gets, and committed.
  method PublishBatch(size: nat, round: Round, topics: seq<nat>, before: Sys, ghost trace: seq<Action>, ghost start: Sys)
    returns (ok: bool, s: Sys, ghost actions: seq<Action>)
    requires 1 <= size <= BATCH && before.committed + size <= |before.raw| && |topics| == |before.raw|
    requires Steps(OrderlyNext, start, trace, before)
    ensures Steps(OrderlyNext, start, actions, s) && s.raw == before.raw && before.log <= s.log
    ensures s.committed == if ok then before.committed + size else before.committed
    ensures if ok then round.send.Accepted? && |actions| == |trace| + 1 && actions[..|trace|] == trace && actions[|trace|].Attempt? && actions[|trace|].done
            else || (round.send.Broken? && |actions| == |trace| + 1 && actions[..|trace|] == trace && actions[|trace|].Attempt? && !actions[|trace|].done)
                 || (LookupFails(before.raw, topics, round.answer) && actions == trace && s == before)
  {
    hide Steps, Enabled, Apply, CopiesOf, Orderly, IsCopy, Copied;
    var valid, dead, asked;
    ok, valid, dead, asked := ProcessBatch(before.raw, before.committed, size, topics, round.answer);
    if !ok {
      return false, before, trace;
    }
    var landed := if round.send.Broken? && round.send.landed < |valid| then round.send.landed else |valid|;
    var a := Attempt(size, valid[..landed], round.send.Accepted?);
    CopiesFaithful(before.raw, before.committed, size, round.answer, topics);
    PrefixIsAttempt(before, size, valid, landed);
    PrefixIsOrderly(before, size, valid, landed);
    AttemptShape(before, a);
    OneMore(OrderlyNext, start, trace, before, a, Apply(before, a));
    return round.send.Accepted?, Apply(before, a), trace + [a];
  }

  lemma AttemptShape(s: Sys, a: Action)
    requires Enabled(s, a) && a.Attempt?
    ensures var s' := Apply(s, a);
      s'.raw == s.raw && s'.log == s.log + a.copies && s'.committed == (if a.done then s.committed + a.size else s.committed) && s'.committed <= |s.raw|
  {
  }

  // ---- The update script --------------------------------------------------------------------

  datatype Score = Score(value: real, at: int)

  function Age(now: int, at: int): nat
  {
    if now < at then 0 else now - at
  }

  // What a score is worth now; decay gives the factor for an age in seconds.
  function Worth(score: Score, now: int, decay: nat -> real): real
  {
    score.value * decay(Age(now, score.at))
  }

  // Adds the weight of an event to each of its categories in turn.
  function Raised(scores: map<nat, Score>, ids: seq<nat>, weight: real, now: int, decay: nat -> real): map<nat, Score>
  {
    if ids == [] then scores
    else
      var before, id := Raised(scores, ids[..|ids| - 1], weight, now, decay), ids[|ids| - 1];
      before[id := Score(if id in before then Worth(before[id], now, decay) + weight else weight, now)]
  }

  // The best-scored categories, at most 20, each decayed to now.
  predicate Ranked(scores: map<nat, Score>, kept: map<nat, Score>, now: int, decay: nat -> real)
  {
    && kept.Keys <= scores.Keys
    && |kept| == (if |scores| < TOP then |scores| else TOP)
    && (forall id :: id in kept ==> kept[id] == Score(Worth(scores[id], now, decay), now))
    && (forall a, b :: a in kept && b in scores && b !in kept ==> Worth(scores[a], now, decay) >= Worth(scores[b], now, decay))
  }

  method Best(scores: map<nat, Score>, rest: set<nat>, now: int, decay: nat -> real) returns (best: nat)
    requires rest != {} && rest <= scores.Keys
    ensures best in rest && forall x :: x in rest ==> Worth(scores[x], now, decay) <= Worth(scores[best], now, decay)
  {
    best :| best in rest;
    var todo := rest - {best};
    while todo != {}
      invariant best in rest && todo <= rest
      invariant forall x :: x in rest && x !in todo ==> Worth(scores[x], now, decay) <= Worth(scores[best], now, decay)
      decreases |todo|
    {
      var y :| y in todo;
      if Worth(scores[y], now, decay) > Worth(scores[best], now, decay) {
        best := y;
      }
      todo := todo - {y};
    }
  }

  // Part of the ranking: everything picked so far beats everything still to pick from.
  predicate Picked(scores: map<nat, Score>, kept: map<nat, Score>, rest: set<nat>, now: int, decay: nat -> real)
  {
    && rest <= scores.Keys && kept.Keys == scores.Keys - rest
    && (forall id :: id in kept ==> kept[id] == Score(Worth(scores[id], now, decay), now))
    && (forall a, b :: a in kept && b in rest ==> Worth(scores[a], now, decay) >= Worth(scores[b], now, decay))
  }

  lemma KeyedOnce(kept: map<nat, Score>, k: nat, v: Score)
    requires k !in kept
    ensures kept[k := v].Keys == kept.Keys + {k} && |kept[k := v]| == |kept| + 1
  {
    assert kept[k := v].Keys == kept.Keys + {k};
    assert |kept[k := v]| == |kept[k := v].Keys| && |kept| == |kept.Keys|;
  }

  lemma PickOne(scores: map<nat, Score>, kept: map<nat, Score>, rest: set<nat>, best: nat, now: int, decay: nat -> real)
    requires Picked(scores, kept, rest, now, decay) && best in rest
    requires forall x :: x in rest ==> Worth(scores[x], now, decay) <= Worth(scores[best], now, decay)
    ensures Picked(scores, kept[best := Score(Worth(scores[best], now, decay), now)], rest - {best}, now, decay)
    ensures |kept[best := Score(Worth(scores[best], now, decay), now)]| == |kept| + 1
  {
    hide Worth;
    KeyedOnce(kept, best, Score(Worth(scores[best], now, decay), now));
    assert kept.Keys + {best} == scores.Keys - (rest - {best});
  }

  lemma PickedSize(scores: map<nat, Score>, kept: map<nat, Score>, rest: set<nat>, now: int, decay: nat -> real)
    requires Picked(scores, kept, rest, now, decay)
    ensures |kept| + |rest| == |scores|
    ensures rest != {} ==> |rest| > 0
  {
    hide Worth;
    assert |kept| == |kept.Keys| && |scores| == |scores.Keys|;
    assert scores.Keys == kept.Keys + rest && kept.Keys !! rest;
  }

  method Rank(scores: map<nat, Score>, now: int, decay: nat -> real) returns (kept: map<nat, Score>)
    ensures Ranked(scores, kept, now, decay)
  {
    hide Worth, Picked;
    kept := map[];
    var rest := scores.Keys;
    assert Picked(scores, kept, rest, now, decay) by { NothingPicked(scores, now, decay); }
    while |kept| < 20 && rest != {}
      invariant Picked(scores, kept, rest, now, decay) && |kept| <= TOP && rest <= scores.Keys
      decreases |rest|
    {
      var best := Best(scores, rest, now, decay);
      PickOne(scores, kept, rest, best, now, decay);
      PickedSize(scores, kept, rest, now, decay);
      kept := kept[best := Score(Worth(scores[best], now, decay), now)];
      rest := rest - {best};
      assert rest <= scores.Keys;
    }
    PickedIsRanked(scores, kept, rest, now, decay);
  }

  lemma NothingPicked(scores: map<nat, Score>, now: int, decay: nat -> real)
    ensures Picked(scores, map[], scores.Keys, now, decay)
  {
  }

  lemma PickedIsRanked(scores: map<nat, Score>, kept: map<nat, Score>, rest: set<nat>, now: int, decay: nat -> real)
    requires Picked(scores, kept, rest, now, decay) && |kept| <= TOP && (|kept| == TOP || rest == {})
    ensures Ranked(scores, kept, now, decay)
  {
    hide Worth;
    PickedSize(scores, kept, rest, now, decay);
  }

  class UserProfile {
    var scores: map<nat, Score>
    var offsets: map<nat, int>
    var recent: seq<nat>
    ghost var applied: seq<nat>

    constructor ()
      ensures Valid() && scores == map[] && forall p :: View(p) == BLANK
    {
      scores, offsets, recent, applied := map[], map[], [], [];
    }

    ghost predicate Valid()
      reads this
    {
      |recent| <= RECENT && |scores| <= TOP
    }

    ghost function View(partition: nat): Core
      reads this
    {
      Core(if partition in offsets then offsets[partition] else -1, recent, applied)
    }

    // One script call for an event that carries weight and categories.
    method Update(partition: nat, offset: nat, r: Enriched, now: int, weight: real, ids: seq<nat>, decay: nat -> real) returns (changed: bool)
      requires Valid() && Counts(r, r.user)
      modifies this
      ensures Valid()
      ensures View(partition) == Delivered(old(View(partition)), offset, r, r.user)
      ensures forall p :: p != partition ==> (p in offsets <==> p in old(offsets)) && (p in offsets ==> offsets[p] == old(offsets)[p])
      ensures changed <==> applied != old(applied)
      ensures if changed then Ranked(Raised(old(scores), ids, weight, now, decay), scores, now, decay) else scores == old(scores)
    {
      if partition in offsets && offsets[partition] >= offset {
        return false;
      }
      var seen := false;
      for i := 0 to |recent|
        invariant seen <==> r.id in recent[..i]
      {
        if recent[i] == r.id {
          seen := true;
        }
      }
      assert recent[..|recent|] == recent;
      if seen {
        offsets := offsets[partition := offset];
        return false;
      }
      var raised := scores;
      for i := 0 to |ids|
        invariant raised == Raised(scores, ids[..i], weight, now, decay)
      {
        assert ids[..i + 1][..i] == ids[..i];
        var value := weight;
        if ids[i] in raised {
          value := Worth(raised[ids[i]], now, decay) + weight;
        }
        raised := raised[ids[i] := Score(value, now)];
      }
      assert ids[..|ids|] == ids;
      scores := Rank(raised, now, decay);
      recent := recent + [r.id];
      if |recent| > 256 {
        recent := recent[1..];
      }
      offsets := offsets[partition := offset];
      applied := applied + [r.id];
      return true;
    }
  }
}
