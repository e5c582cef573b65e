/**
 * One partition of behaviour events from the raw topic to the profiles: an enricher that
 * publishes batches of at most 200 before it commits, and a projector that may be sent back.
 */
module ProfileRuns {
  import opened Common
  import opened ProfileWindow

  const BATCH := 200

  // A raw event; a malformed one goes to the dead letter topic and is never enriched.
  datatype Raw = Raw(id: nat, user: nat, weight: nat, valid: bool)
  datatype Profile = Profile(core: Core, categories: set<nat>)

  // high is how far the projector has ever read, read where it stands, kept what it committed.
  datatype Sys = Sys(raw: seq<Raw>, committed: nat, log: seq<Enriched>, read: nat, kept: nat, high: nat, profiles: map<nat, Profile>)

  datatype Action =
    | Receive(raw: Raw)
    // Publishing a batch from the committed offset. What reached the log before it failed, or
    // before the commit was lost, is any list of copies; a batch that is done committed.
    | Attempt(size: nat, copies: seq<Enriched>, done: bool)
    // keep is the ranking's choice among the categories scored so far.
    | Deliver(keep: set<nat>)
    | Acknowledge
    | Restart(offset: nat)

  predicate IsCopy(raw: seq<Raw>, c: Enriched)
  {
    && c.source < |raw| && raw[c.source].valid
    && c.id == raw[c.source].id && c.user == raw[c.source].user && c.weight == raw[c.source].weight
  }

  predicate Copied(log: seq<Enriched>, x: nat)
  {
    exists n :: 0 <= n < |log| && log[n].source == x
  }

  function ProfileOf(s: Sys, u: nat): Profile
  {
    if u in s.profiles then s.profiles[u] else Profile(BLANK, {})
  }

  function Scored(p: Profile, r: Enriched): set<nat>
  {
    p.categories + (set i | 0 <= i < |r.categories| :: r.categories[i])
  }

  predicate Kept(p: Profile, r: Enriched, keep: set<nat>)
  {
    keep <= Scored(p, r) && |keep| == if |Scored(p, r)| < TOP then |Scored(p, r)| else TOP
  }

  predicate Enabled(s: Sys, a: Action)
  {
    match a
    case Receive(r) => forall i :: 0 <= i < |s.raw| ==> s.raw[i].id != r.id
    case Attempt(size, copies, done) =>
      && 1 <= size <= BATCH && s.committed + size <= |s.raw|
      && (forall i :: 0 <= i < |copies| ==> IsCopy(s.raw, copies[i]) && s.committed <= copies[i].source < s.committed + size)
      && (done ==> forall x :: s.committed <= x < s.committed + size && s.raw[x].valid ==> Copied(copies, x))
    case Deliver(keep) => s.read < |s.log| && |ProfileOf(s, s.log[s.read].user).core.recent| <= RECENT
                          && Kept(ProfileOf(s, s.log[s.read].user), s.log[s.read], keep)
    case Acknowledge => true
    case Restart(o) => o <= s.kept
  }

  // The update script for one user: nothing changes unless the event is applied for the first time
  // or recognised as recent.
  function Projected(p: Profile, o: nat, r: Enriched, keep: set<nat>): Profile
    requires |p.core.recent| <= RECENT
  {
    var core := Delivered(p.core, o, r, r.user);
    Profile(core, if core.applied == p.core.applied then p.categories else keep)
  }

  function Apply(s: Sys, a: Action): Sys
    requires Enabled(s, a)
  {
    match a
    case Receive(r) => s.(raw := s.raw + [r])
    case Attempt(size, copies, done) => s.(log := s.log + copies, committed := if done then s.committed + size else s.committed)
    case Deliver(keep) =>
      var r := s.log[s.read];
      s.(profiles := s.profiles[r.user := Projected(ProfileOf(s, r.user), s.read, r, keep)],
         read := s.read + 1, high := if s.read == s.high then s.high + 1 else s.high)
    case Acknowledge => s.(kept := s.read)
    case Restart(o) => s.(read := o)
  }

  // ---- What is known of the enriched log ----------------------------------------------------

  predicate DistinctIds(raw: seq<Raw>)
  {
    forall i, j :: 0 <= i < j < |raw| ==> raw[i].id != raw[j].id
  }

  predicate WritesInv(s: Sys)
  {
    && DistinctIds(s.raw) && s.committed <= |s.raw|
    && (forall n :: 0 <= n < |s.log| ==> IsCopy(s.raw, s.log[n]) && s.log[n].source < s.committed + BATCH)
    && (forall y :: 0 <= y < s.committed && s.raw[y].valid ==> Copied(s.log, y))
    && (forall m, n :: 0 <= m < n < |s.log| ==> s.log[m].source < s.log[n].source + BATCH)
  }

  // Whatever fails, a batch reaches the log from its front: no copy lands before those of all
  // earlier events of its batch.
  predicate Orderly(s: Sys, copies: seq<Enriched>)
  {
    forall i, y :: 0 <= i < |copies| && s.committed <= y < copies[i].source && y < |s.raw| && s.raw[y].valid ==>
      Copied(s.log + copies[..i], y)
  }

  predicate Ascending(raw: seq<Raw>, log: seq<Enriched>)
  {
    forall n, y :: 0 <= n < |log| && 0 <= y < log[n].source && y < |raw| && raw[y].valid ==> Copied(log[..n], y)
  }

  // The category lookup of an event answers alike each time it is repeated: some, or none.
  predicate Stable(log: seq<Enriched>)
  {
    forall m, n :: 0 <= m < |log| && 0 <= n < |log| && log[m].source == log[n].source ==>
      (log[m].categories == [] <==> log[n].categories == [])
  }

  lemma CopiedLonger(log: seq<Enriched>, log': seq<Enriched>, x: nat)
    requires log <= log' && Copied(log, x)
    ensures Copied(log', x)
  {
    var n :| 0 <= n < |log| && log[n].source == x;
    assert log'[n].source == x;
  }

  lemma AttemptKeepsWrites(s: Sys, size: nat, copies: seq<Enriched>, done: bool)
    requires WritesInv(s) && Enabled(s, Attempt(size, copies, done))
    ensures WritesInv(Apply(s, Attempt(size, copies, done)))
  {
    var s' := Apply(s, Attempt(size, copies, done));
    forall y | 0 <= y < s'.committed && s.raw[y].valid
      ensures Copied(s'.log, y)
    {
      if y < s.committed {
        CopiedLonger(s.log, s'.log, y);
      } else {
        var n :| 0 <= n < |copies| && copies[n].source == y;
        assert s'.log[|s.log| + n].source == y;
      }
    }
  }

  lemma AttemptKeepsAscending(s: Sys, size: nat, copies: seq<Enriched>, done: bool)
    requires WritesInv(s) && Enabled(s, Attempt(size, copies, done))
    requires Ascending(s.raw, s.log) && Orderly(s, copies)
    ensures Ascending(s.raw, s.log + copies)
  {
    var log' := s.log + copies;
    forall n, y | 0 <= n < |log'| && 0 <= y < log'[n].source && y < |s.raw| && s.raw[y].valid
      ensures Copied(log'[..n], y)
    {
      if n < |s.log| {
        assert log'[..n] == s.log[..n];
      } else {
        assert log'[..n] == s.log + copies[..n - |s.log|];
        if y < s.committed {
          CopiedLonger(s.log, log'[..n], y);
        }
      }
    }
  }

  lemma ReceiveKeepsAscending(s: Sys, r: Raw)
    requires WritesInv(s) && Enabled(s, Receive(r)) && Ascending(s.raw, s.log)
    ensures WritesInv(Apply(s, Receive(r))) && Ascending(s.raw + [r], s.log)
  {
  }

  // ---- The window is wide enough ------------------------------------------------------------

  // Firsts again, by position in the raw partition.
  function FirstSources(log: seq<Enriched>, u: nat): (f: seq<nat>)
  {
    if log == [] then []
    else
      var f, r := FirstSources(log[..|log| - 1], u), log[|log| - 1];
      if Counts(r, u) && r.source !in f then f + [r.source] else f
  }

  predicate AllCopies(raw: seq<Raw>, log: seq<Enriched>)
  {
    forall n :: 0 <= n < |log| ==> IsCopy(raw, log[n])
  }

  predicate CountedIn(log: seq<Enriched>, u: nat, x: nat)
  {
    exists n :: 0 <= n < |log| && Counts(log[n], u) && log[n].source == x
  }

  lemma {:induction false} SourcesAreFirsts(raw: seq<Raw>, log: seq<Enriched>, u: nat)
    requires AllCopies(raw, log) && DistinctIds(raw)
    ensures |FirstSources(log, u)| == |Firsts(log, u)|
    ensures forall i :: 0 <= i < |FirstSources(log, u)| ==>
      FirstSources(log, u)[i] < |raw| && Firsts(log, u)[i] == raw[FirstSources(log, u)[i]].id
    ensures forall x :: x in FirstSources(log, u) <==> CountedIn(log, u, x)
  {
    if log != [] {
      var n := |log| - 1;
      SourcesAreFirsts(raw, log[..n], u);
      var f, g, r := FirstSources(log[..n], u), Firsts(log[..n], u), log[n];
      assert IsCopy(raw, r);
      SameMembers(raw, f, g, r);
      forall x
        ensures CountedIn(log, u, x) <==> CountedIn(log[..n], u, x) || (Counts(r, u) && r.source == x)
      {
        CountedStep(log, u, x);
      }
    }
  }

  lemma CountedStep(log: seq<Enriched>, u: nat, x: nat)
    requires log != []
    ensures CountedIn(log, u, x) <==> CountedIn(log[..|log| - 1], u, x) || (Counts(log[|log| - 1], u) && log[|log| - 1].source == x)
  {
    var n := |log| - 1;
    if CountedIn(log[..n], u, x) {
      var k :| 0 <= k < n && Counts(log[..n][k], u) && log[..n][k].source == x;
      assert log[k] == log[..n][k];
    }
    if CountedIn(log, u, x) {
      var k :| 0 <= k < |log| && Counts(log[k], u) && log[k].source == x;
      if k < n {
        assert log[..n][k] == log[k];
      }
    }
  }

  lemma SameMembers(raw: seq<Raw>, f: seq<nat>, g: seq<nat>, r: Enriched)
    requires DistinctIds(raw) && IsCopy(raw, r) && |f| == |g|
    requires forall i :: 0 <= i < |f| ==> f[i] < |raw| && g[i] == raw[f[i]].id
    ensures r.source in f <==> r.id in g
  {
    if r.source in f {
      var i :| 0 <= i < |f| && f[i] == r.source;
      assert g[i] == r.id;
    }
    if r.id in g {
      var i :| 0 <= i < |g| && g[i] == r.id;
      assert f[i] == r.source;
    }
  }

  lemma {:induction false} SourcesAscend(raw: seq<Raw>, log: seq<Enriched>, u: nat)
    requires AllCopies(raw, log) && DistinctIds(raw) && Ascending(raw, log) && Stable(log)
    ensures forall i, j :: 0 <= i < j < |FirstSources(log, u)| ==> FirstSources(log, u)[i] < FirstSources(log, u)[j]
  {
    hide Ascending, Stable, CountedIn;
    if log != [] {
      var n := |log| - 1;
      AscendingPrefix(raw, log, n);
      SourcesAscend(raw, log[..n], u);
      SourcesAreFirsts(raw, log[..n], u);
      var f, r := FirstSources(log[..n], u), log[n];
      if Counts(r, u) && r.source !in f {
        forall i | 0 <= i < |f|
          ensures f[i] < r.source
        {
          assert f[i] in f;
          NewIsLater(raw, log, u, n, f[i]);
        }
      }
    }
  }

  // An event counted for the first time comes after all that were counted before it.
  lemma NewIsLater(raw: seq<Raw>, log: seq<Enriched>, u: nat, n: nat, y: nat)
    requires AllCopies(raw, log) && Ascending(raw, log) && Stable(log)
    requires n < |log| && Counts(log[n], u) && !CountedIn(log[..n], u, log[n].source) && CountedIn(log[..n], u, y)
    ensures y < log[n].source
  {
    hide Ascending, Stable, AllCopies;
    var m :| 0 <= m < n && Counts(log[..n][m], u) && log[..n][m].source == y;
    if log[n].source < y {
      EarlierCounted(raw, log, u, n, m);
    }
  }

  lemma AscendingPrefix(raw: seq<Raw>, log: seq<Enriched>, n: nat)
    requires AllCopies(raw, log) && Ascending(raw, log) && Stable(log) && n <= |log|
    ensures AllCopies(raw, log[..n]) && Ascending(raw, log[..n]) && Stable(log[..n])
  {
    forall k, y | 0 <= k < n && 0 <= y < log[..n][k].source && y < |raw| && raw[y].valid
      ensures Copied(log[..n][..k], y)
    {
      assert log[..n][..k] == log[..k];
    }
  }

  // An event that counts, found behind a later one of its partition, was counted before it.
  lemma EarlierCounted(raw: seq<Raw>, log: seq<Enriched>, u: nat, n: nat, m: nat)
    requires AllCopies(raw, log) && Ascending(raw, log) && Stable(log)
    requires m < n < |log| && Counts(log[n], u) && log[n].source < log[m].source
    ensures CountedIn(log[..n], u, log[n].source)
  {
    assert IsCopy(raw, log[n]);
    assert Copied(log[..m], log[n].source);
    var k :| 0 <= k < m && log[..m][k].source == log[n].source;
    assert IsCopy(raw, log[k]);
    assert log[..n][k] == log[k] && Counts(log[k], u);
  }

  lemma {:induction false} Span(f: seq<nat>, i: nat, j: nat)
    requires i <= j < |f| && forall a, b :: 0 <= a < b < |f| ==> f[a] < f[b]
    ensures f[j] >= f[i] + (j - i)
  {
    if i < j {
      Span(f, i, j - 1);
    }
  }

  // Firsts holds the newest events: what a copy repeats is never more than 199 entries back.
  lemma NearEnd(raw: seq<Raw>, log: seq<Enriched>, u: nat, x: nat, i: nat)
    requires AllCopies(raw, log) && DistinctIds(raw) && Ascending(raw, log) && Stable(log)
    requires forall m :: 0 <= m < |log| ==> log[m].source < x + BATCH
    requires i < |FirstSources(log, u)| && FirstSources(log, u)[i] == x
    ensures |FirstSources(log, u)| - i <= BATCH
  {
    hide Ascending, Stable, AllCopies, DistinctIds, FirstSources;
    SourcesAreFirsts(raw, log, u);
    SourcesAscend(raw, log, u);
    var f := FirstSources(log, u);
    var last := |f| - 1;
    assert f[last] in f && CountedIn(log, u, f[last]);
    Span(f, i, last);
  }

  // 200 recent ids would do; 256 are kept.
  lemma WindowSuffices(raw: seq<Raw>, log: seq<Enriched>, u: nat)
    requires AllCopies(raw, log) && DistinctIds(raw) && Ascending(raw, log) && Stable(log)
    requires forall m, n :: 0 <= m < n < |log| ==> log[m].source < log[n].source + BATCH
    ensures NeverStale(log, u)
  {
    hide Ascending, Stable, FirstSources, Firsts;
    forall n | 0 <= n < |log| && Counts(log[n], u) && log[n].id in Firsts(log[..n], u)
      ensures log[n].id in Tail(Firsts(log[..n], u))
    {
      AscendingPrefix(raw, log, n);
      SourcesAreFirsts(raw, log[..n], u);
      var f, g := FirstSources(log[..n], u), Firsts(log[..n], u);
      var i :| 0 <= i < |g| && g[i] == log[n].id;
      assert IsCopy(raw, log[n]) && f[i] == log[n].source;
      NearEnd(raw, log[..n], u, log[n].source, i);
      assert g[i] == Tail(g)[i - (if |g| <= RECENT then 0 else |g| - RECENT)];
    }
  }

  // ---- Runs ---------------------------------------------------------------------------------

  predicate ProfilesInv(s: Sys)
  {
    && s.read <= s.high <= |s.log| && s.kept <= s.high
    && (forall u :: u in s.profiles ==> s.profiles[u].core == Straight(s.log[..s.high], u) && |s.profiles[u].categories| <= TOP)
    && (forall n :: 0 <= n < s.high ==> s.log[n].user in s.profiles)
  }

  lemma {:induction false} StrangerIsBlank(log: seq<Enriched>, u: nat)
    requires forall n :: 0 <= n < |log| ==> log[n].user != u
    ensures Straight(log, u) == BLANK
  {
    if log != [] {
      StrangerIsBlank(log[..|log| - 1], u);
    }
  }

  lemma ProfileCore(s: Sys, u: nat)
    requires ProfilesInv(s)
    ensures ProfileOf(s, u).core == Straight(s.log[..s.high], u) && |ProfileOf(s, u).categories| <= TOP
  {
    if u !in s.profiles {
      StrangerIsBlank(s.log[..s.high], u);
    }
  }

  lemma DeliverKeeps(s: Sys, keep: set<nat>)
    requires ProfilesInv(s) && Enabled(s, Deliver(keep))
    ensures ProfilesInv(Apply(s, Deliver(keep)))
  {
    hide Delivered, Counts;
    var s', r := Apply(s, Deliver(keep)), s.log[s.read];
    ProfileCore(s, r.user);
    if s.read < s.high {
      assert s.log[..s.high][s.read] == r;
      RedeliveryIsInert(s.log[..s.high], r.user, s.read);
    } else {
      assert s.log[..s.high + 1][..s.high] == s.log[..s.high];
      forall u | u in s.profiles && u != r.user
        ensures Straight(s.log[..s.high + 1], u) == Straight(s.log[..s.high], u)
      {
        NotTheirs(s.log[..s.high], s.high, r, u);
      }
    }
  }

  lemma NotTheirs(log: seq<Enriched>, o: nat, r: Enriched, u: nat)
    requires r.user != u
    ensures Delivered(Straight(log, u), o, r, u) == Straight(log, u)
  {
  }

  lemma GrowthKeepsProfiles(s: Sys, s': Sys)
    requires ProfilesInv(s) && s.log <= s'.log
    requires s'.read == s.read && s'.kept == s.kept && s'.high == s.high && s'.profiles == s.profiles
    ensures ProfilesInv(s')
  {
    assert s'.log[..s.high] == s.log[..s.high];
  }

  predicate Initial(s: Sys)
  {
    s == Sys([], 0, [], 0, 0, 0, map[])
  }

  predicate Run(states: seq<Sys>, actions: seq<Action>)
  {
    && |states| == |actions| + 1
    && Initial(states[0])
    && forall i :: 0 <= i < |actions| ==> Enabled(states[i], actions[i]) && states[i + 1] == Apply(states[i], actions[i])
  }

  lemma NextKeeps(s: Sys, a: Action)
    requires WritesInv(s) && ProfilesInv(s) && Enabled(s, a)
    ensures WritesInv(Apply(s, a)) && ProfilesInv(Apply(s, a))
    ensures Ascending(s.raw, s.log) && (a.Attempt? ==> Orderly(s, a.copies)) ==> Ascending(Apply(s, a).raw, Apply(s, a).log)
  {
    match a
    case Receive(r) =>
      GrowthKeepsProfiles(s, Apply(s, a));
      if Ascending(s.raw, s.log) {
        ReceiveKeepsAscending(s, r);
      }
    case Attempt(size, copies, done) =>
      AttemptKeepsWrites(s, size, copies, done);
      GrowthKeepsProfiles(s, Apply(s, a));
      if Ascending(s.raw, s.log) && Orderly(s, copies) {
        AttemptKeepsAscending(s, size, copies, done);
      }
    case Deliver(keep) => DeliverKeeps(s, keep);
    case _ =>
  }

  predicate OrderlyRun(states: seq<Sys>, actions: seq<Action>)
    requires |states| == |actions| + 1
  {
    forall i :: 0 <= i < |actions| && actions[i].Attempt? ==> Orderly(states[i], actions[i].copies)
  }

  lemma {:induction false} RunKeeps(states: seq<Sys>, actions: seq<Action>, n: nat)
    requires Run(states, actions) && n < |states|
    ensures WritesInv(states[n]) && ProfilesInv(states[n])
    ensures OrderlyRun(states, actions) ==> Ascending(states[n].raw, states[n].log)
  {
    hide WritesInv, ProfilesInv, Ascending, Orderly, Enabled, Apply;
    if n == 0 {
      InitiallyFine(states[0]);
    } else {
      RunKeeps(states, actions, n - 1);
      NextKeeps(states[n - 1], actions[n - 1]);
    }
  }

  lemma InitiallyFine(s: Sys)
    requires Initial(s)
    ensures WritesInv(s) && ProfilesInv(s) && Ascending(s.raw, s.log)
  {
  }

  // A committed event of the user that carries weight, and categories in some copy of it.
  predicate Due(s: Sys, u: nat, x: nat)
  {
    && x < s.committed && x < |s.raw| && s.raw[x].valid && s.raw[x].user == u && s.raw[x].weight != 0
    && exists m :: 0 <= m < |s.log| && s.log[m].source == x && s.log[m].categories != []
  }

  // Main theorem. However often the enricher fails between publishing and committing, and however
  // often the projector is sent back: no event counts twice in a profile, profiles stay within
  // their limits, and once the projector has read everything, each committed event that carries
  // weight and categories has counted exactly once.
  lemma EventsCountOnce(states: seq<Sys>, actions: seq<Action>, n: nat, u: nat)
    requires Run(states, actions) && n < |states| && OrderlyRun(states, actions) && Stable(states[n].log)
    ensures var s, p := states[n], ProfileOf(states[n], u);
      && NoRepeats(p.core.applied) && |p.core.recent| <= RECENT && |p.categories| <= TOP
      && (s.high == |s.log| ==>
            forall x: nat :: Due(s, u, x) ==> s.raw[x].id in p.core.applied)
  {
    hide Enabled, Apply, Ascending, OrderlyRun;
    RunKeeps(states, actions, n);
    var s := states[n];
    var log := s.log[..s.high];
    ProfileCore(s, u);
    AscendingPrefix(s.raw, s.log, s.high);
    WindowSuffices(s.raw, log, u);
    StraightIsFirsts(log, u);
    if s.high == |s.log| {
      assert log == s.log;
      SourcesAreFirsts(s.raw, s.log, u);
      forall x: nat | Due(s, u, x)
        ensures s.raw[x].id in ProfileOf(s, u).core.applied
      {
        var m :| 0 <= m < |s.log| && s.log[m].source == x && s.log[m].categories != [];
        assert IsCopy(s.raw, s.log[m]) && CountedIn(s.log, u, x) && x in FirstSources(s.log, u);
        var i :| 0 <= i < |FirstSources(s.log, u)| && FirstSources(s.log, u)[i] == x;
        assert Firsts(s.log, u)[i] == s.raw[x].id;
      }
    }
  }
}
