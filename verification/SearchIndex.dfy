/**
 * Keeping the search index equal to the database: indexer consumers driven by events run beside
 * a reindex that scans by cursor into a fresh index, switches the alias and replays the outbox.
 * Rows are read one query after the other and the document is written later. As long as no two
 * writers have the same product in hand, the document under the alias is right, or somebody still
 * owes it an update.
 */
module SearchIndex {
  import opened Common
  import opened SearchDocuments

  const PAGE := 500

  type Index = map<nat, Document>

  // A list of products to write. The first one is in hand once its rows are being read; changed
  // says that an event has named it since.
  datatype Work = Work(ids: seq<nat>, inHand: bool, changed: bool)

  const NOTHING := Work([], false, false)

  datatype Phase =
    | Idle
    // built holds documents of the new index; work is what is left of the ids last read; done says
    // that a page came back empty.
    | Scanning(since: nat, built: Index, cursor: nat, work: Work, done: bool)
    | Swapped(since: nat)
    // Events up to end were read from the outbox; todo is what is left of the current one.
    | Replaying(next: nat, end: nat, todo: Work)

  // events is the outbox in commit order, consumed the ones whose offset the indexer committed,
  // jobs the products left to rebuild for the events being worked on. complete says that the last
  // alias switch has been followed by its whole replay.
  datatype Sys = Sys(db: Tables, events: seq<Change>, consumed: set<nat>, jobs: map<nat, Work>,
                     alias: Index, phase: Phase, complete: bool)

  datatype Action =
    | Write(tx: Tx)
    // An indexer takes an event, for the first time or again, and reads the products it concerns.
    | Take(event: nat, ids: seq<nat>)
    | Open(event: nat)
    | Rebuild(event: nat, doc: Option<Document>)
    | Finish(event: nat)
    | Lose(event: nat)
    | StartScan
    | NextPage(ids: seq<nat>)
    | ScanOpen
    | ScanOne(doc: Option<Document>)
    | EndScan
    | SwitchAlias
    | ReadOutbox
    | ReplayEvent(ids: seq<nat>)
    | ReplayOpen
    | ReplayOne(doc: Option<Document>)
    | EndReplay
    | Abort

  function Look(index: Index, p: nat): Option<Document>
  {
    if p in index then Some(index[p]) else None
  }

  // Writes the document, or deletes the entry of a product that has none.
  function Put(index: Index, p: nat, doc: Option<Document>): Index
  {
    if doc.Some? then index[p := doc.value] else index - {p}
  }

  predicate Concerns(db: Tables, e: Change, ids: seq<nat>)
  {
    forall p :: p in ids ==> Affects(db, e, p)
  }

  predicate Distinct(ids: seq<nat>)
  {
    forall i, j :: 0 <= i < j < |ids| ==> ids[i] != ids[j]
  }

  // The products a query for an event returns: all it concerns, each once, and nothing else.
  predicate AffectedIds(db: Tables, e: Change, ids: seq<nat>): (all: bool)
    ensures all <==> Distinct(ids) && forall p: nat :: p in ids <==> Affects(db, e, p)
  {
    Distinct(ids) && Concerns(db, e, ids) && forall p :: p in AffectedSet(db, e) ==> p in ids
  }

  // The next ids in order after the cursor, at most a page of them.
  predicate PageAfter(db: Tables, cursor: nat, ids: seq<nat>)
  {
    && 0 < |ids| <= PAGE
    && (forall i, j :: 0 <= i < j < |ids| ==> ids[i] < ids[j])
    && (forall i :: 0 <= i < |ids| ==> cursor < ids[i] && ids[i] in db.products)
    && (forall p :: p in db.products && cursor < p < ids[|ids| - 1] ==> p in ids)
    && (|ids| < PAGE ==> forall p :: p in db.products && cursor < p ==> p in ids)
  }

  // ---- Products in hand ---------------------------------------------------------------------

  predicate Holds(w: Work, p: nat)
  {
    w.inHand && w.ids != [] && w.ids[0] == p
  }

  predicate CanOpen(w: Work)
  {
    w.ids != [] && !w.inHand
  }

  // The document of the product in hand as its queries give it: the right one, unless the product
  // has changed since the first of them; then any mixture of old and new.
  predicate CanWrite(db: Tables, w: Work, doc: Option<Document>)
  {
    w.ids != [] && w.inHand && (w.changed || doc == Doc(db, w.ids[0]))
  }

  function Opened(w: Work): Work
  {
    w.(inHand := true, changed := false)
  }

  function Written(w: Work): Work
    requires w.ids != []
  {
    Work(w.ids[1..], false, false)
  }

  // A committed change of the product in hand is noticed by nobody; it only makes the read stale.
  function Marked(w: Work, db: Tables, q: Option<Change>): Work
  {
    if w.inHand && w.ids != [] && q.Some? && Affects(db, q.value, w.ids[0]) then w.(changed := true) else w
  }

  function MarkedPhase(phase: Phase, db: Tables, q: Option<Change>): Phase
  {
    match phase
    case Scanning(_, _, _, w, _) => phase.(work := Marked(w, db, q))
    case Replaying(_, _, w) => phase.(todo := Marked(w, db, q))
    case _ => phase
  }

  predicate Enabled(s: Sys, a: Action)
  {
    match a
    case Write(tx) => Permitted(s.db, tx)
    case Take(i, ids) => i < |s.events| && i !in s.jobs && AffectedIds(s.db, s.events[i], ids)
    case Open(i) => i in s.jobs && CanOpen(s.jobs[i])
    case Rebuild(i, doc) => i in s.jobs && CanWrite(s.db, s.jobs[i], doc)
    case Finish(i) => i in s.jobs && s.jobs[i].ids == []
    case Lose(i) => i in s.jobs
    case StartScan => s.phase.Idle?
    case NextPage(ids) => s.phase.Scanning? && s.phase.work.ids == [] && !s.phase.done && PageAfter(s.db, s.phase.cursor, ids)
    case ScanOpen => s.phase.Scanning? && CanOpen(s.phase.work)
    case ScanOne(doc) => s.phase.Scanning? && CanWrite(s.db, s.phase.work, doc)
    case EndScan => s.phase.Scanning? && s.phase.work.ids == [] && !s.phase.done && forall p :: p in s.db.products ==> p <= s.phase.cursor
    case SwitchAlias => s.phase.Scanning? && s.phase.done
    case ReadOutbox => s.phase.Swapped?
    case ReplayEvent(ids) =>
      && s.phase.Replaying? && s.phase.todo.ids == [] && s.phase.next < s.phase.end && s.phase.next < |s.events|
      && AffectedIds(s.db, s.events[s.phase.next], ids)
    case ReplayOpen => s.phase.Replaying? && CanOpen(s.phase.todo)
    case ReplayOne(doc) => s.phase.Replaying? && CanWrite(s.db, s.phase.todo, doc)
    case EndReplay => s.phase.Replaying? && s.phase.todo.ids == [] && s.phase.next == s.phase.end
    case Abort => true
  }

  function MarkedJobs(jobs: map<nat, Work>, db: Tables, q: Option<Change>): map<nat, Work>
  {
    map i | i in jobs :: Marked(jobs[i], db, q)
  }

  function Apply(s: Sys, a: Action): Sys
    requires Enabled(s, a)
  {
    match a
    case Write(tx) =>
      var db', q := Committed(s.db, tx), Queued(s.db, tx);
      s.(db := db', events := if q.Some? then s.events + [q.value] else s.events,
         jobs := MarkedJobs(s.jobs, db', q), phase := MarkedPhase(s.phase, db', q))
    case Take(i, ids) => s.(jobs := s.jobs[i := Work(ids, false, false)])
    case Open(i) => s.(jobs := s.jobs[i := Opened(s.jobs[i])])
    case Rebuild(i, doc) => s.(alias := Put(s.alias, s.jobs[i].ids[0], doc), jobs := s.jobs[i := Written(s.jobs[i])])
    case Finish(i) => s.(consumed := s.consumed + {i}, jobs := s.jobs - {i})
    case Lose(i) => s.(jobs := s.jobs - {i})
    case StartScan => s.(phase := Scanning(|s.events|, map[], 0, NOTHING, false))
    case NextPage(ids) => s.(phase := s.phase.(work := Work(ids, false, false), cursor := ids[|ids| - 1]))
    case ScanOpen => s.(phase := s.phase.(work := Opened(s.phase.work)))
    case ScanOne(doc) =>
      var w := s.phase.work;
      s.(phase := s.phase.(work := Written(w), built := if doc.Some? then s.phase.built[w.ids[0] := doc.value] else s.phase.built))
    case EndScan => s.(phase := s.phase.(done := true))
    case SwitchAlias => s.(alias := s.phase.built, phase := Swapped(s.phase.since), complete := false)
    case ReadOutbox => s.(phase := Replaying(s.phase.since, |s.events|, NOTHING))
    case ReplayEvent(ids) => s.(phase := s.phase.(next := s.phase.next + 1, todo := Work(ids, false, false)))
    case ReplayOpen => s.(phase := s.phase.(todo := Opened(s.phase.todo)))
    case ReplayOne(doc) => s.(alias := Put(s.alias, s.phase.todo.ids[0], doc), phase := s.phase.(todo := Written(s.phase.todo)))
    case EndReplay => s.(phase := Idle, complete := true)
    case Abort => s.(phase := Idle)
  }

  // ---- The invariant ------------------------------------------------------------------------

  ghost predicate Right(s: Sys, p: nat)
  {
    Look(s.alias, p) == Doc(s.db, p)
  }

  // Event i will still bring product p up to date through the indexer.
  predicate Owes(s: Sys, i: nat, p: nat)
  {
    && i < |s.events| && i !in s.consumed
    && if i in s.jobs then p in s.jobs[i].ids else Affects(s.db, s.events[i], p)
  }

  ghost predicate Owed(s: Sys, p: nat)
  {
    exists i: nat :: Owes(s, i, p)
  }

  predicate Mentions(s: Sys, i: nat, p: nat)
  {
    i < |s.events| && Affects(s.db, s.events[i], p)
  }

  ghost predicate ChangedIn(s: Sys, from: nat, to: nat, p: nat)
  {
    exists i :: from <= i < to && Mentions(s, i, p)
  }

  // What a running reindex will still repair under the alias.
  ghost predicate WillReplay(s: Sys, p: nat)
  {
    match s.phase
    case Swapped(since) => ChangedIn(s, since, |s.events|, p)
    case Replaying(next, end, w) => p in w.ids || ChangedIn(s, next, end, p)
    case _ => false
  }

  // Nothing is known under the alias before a first reindex, or after one that broke off midway.
  predicate Vouched(s: Sys)
  {
    s.complete || s.phase.Swapped? || s.phase.Replaying?
  }

  ghost predicate AliasInv(s: Sys)
  {
    Vouched(s) ==> forall p: nat :: Right(s, p) || Owed(s, p) || WillReplay(s, p)
  }

  // No two writers of the live index have the same product in hand.
  ghost predicate OneHand(s: Sys)
  {
    && (forall i, j, p: nat :: i in s.jobs && j in s.jobs && Holds(s.jobs[i], p) && Holds(s.jobs[j], p) ==> i == j)
    && (forall i, p: nat :: i in s.jobs && Holds(s.jobs[i], p) && s.phase.Replaying? ==> !Holds(s.phase.todo, p))
  }

  // What has changed in a hand, another event owes.
  ghost predicate HandsInv(s: Sys)
  {
    && (forall i, p: nat :: i in s.jobs && Holds(s.jobs[i], p) && s.jobs[i].changed ==> OwedBeside(s, i, p))
    && (forall p: nat :: s.phase.Replaying? && Holds(s.phase.todo, p) && s.phase.todo.changed ==> Owed(s, p))
  }

  ghost predicate OwedBeside(s: Sys, i: nat, p: nat)
  {
    exists j: nat :: j != i && Owes(s, j, p)
  }

  predicate Ahead(phase: Phase, p: nat)
    requires phase.Scanning?
  {
    (!phase.done && phase.cursor < p) || p in phase.work.ids
  }

  // The new index is right for what was scanned, unless a later event says otherwise.
  ghost predicate ScanInv(s: Sys)
  {
    s.phase.Scanning? ==>
      && s.phase.since <= |s.events| && (s.phase.done ==> s.phase.work.ids == [])
      && (forall p: nat :: Ahead(s.phase, p) ==> p !in s.phase.built)
      && (forall i, j :: 0 <= i < j < |s.phase.work.ids| ==> s.phase.work.ids[i] < s.phase.work.ids[j])
      && (forall i :: 0 <= i < |s.phase.work.ids| ==> s.phase.work.ids[i] <= s.phase.cursor)
      && (forall p: nat :: Ahead(s.phase, p) || Look(s.phase.built, p) == Doc(s.db, p) || ChangedIn(s, s.phase.since, |s.events|, p))
      && (forall p: nat :: Holds(s.phase.work, p) && s.phase.work.changed ==> ChangedIn(s, s.phase.since, |s.events|, p))
  }

  predicate ReplayInv(s: Sys)
  {
    && (s.phase.Swapped? || s.phase.Replaying? ==> !s.complete)
    && (s.phase.Swapped? ==> s.phase.since <= |s.events|)
    && (s.phase.Replaying? ==> s.phase.next <= s.phase.end <= |s.events|)
  }

  predicate JobsInv(s: Sys)
  {
    && (forall i :: i in s.consumed ==> i < |s.events|)
    && forall i :: i in s.jobs ==> i < |s.events| && Concerns(s.db, s.events[i], s.jobs[i].ids)
  }

  predicate NilUnused(db: Tables)
  {
    0 !in db.products
  }

  // What holds whoever writes.
  ghost predicate Inv(s: Sys)
  {
    TablesOk(s.db) && NilUnused(s.db) && ScanInv(s) && ReplayInv(s) && JobsInv(s)
  }

  // What holds as long as every product has been in one hand.
  ghost predicate Sound(s: Sys)
  {
    Inv(s) && OneHand(s) && AliasInv(s) && HandsInv(s)
  }

  // ---- Catalogue transactions ---------------------------------------------------------------

  lemma WriteKeepsNames(s: Sys, tx: Tx, i: nat, p: nat)
    requires Permitted(s.db, tx) && Mentions(s, i, p)
    ensures Mentions(Apply(s, Write(tx)), i, p)
  {
    hide Committed, Affects, MarkedPhase, MarkedJobs;
    AffectsGrows(s.db, tx, s.events[i], p);
  }

  lemma MarkedIds(w: Work, db: Tables, q: Option<Change>)
    ensures Marked(w, db, q).ids == w.ids && Marked(w, db, q).inHand == w.inHand
    ensures forall p :: Holds(Marked(w, db, q), p) <==> Holds(w, p)
    ensures Marked(w, db, q).changed && !w.changed ==> w.ids != [] && w.inHand && q.Some? && Affects(db, q.value, w.ids[0])
  {
    hide Affects;
  }

  lemma WriteKeepsOwes(s: Sys, tx: Tx, i: nat, p: nat)
    requires Permitted(s.db, tx) && Owes(s, i, p)
    ensures Owes(Apply(s, Write(tx)), i, p)
  {
    hide Committed, Affects, Queued, Marked, MarkedPhase;
    if i !in s.jobs {
      AffectsGrows(s.db, tx, s.events[i], p);
    } else {
      MarkedIds(s.jobs[i], Committed(s.db, tx), Queued(s.db, tx));
    }
  }

  lemma WriteKeepsOwed(s: Sys, tx: Tx, p: nat)
    requires Permitted(s.db, tx) && Owed(s, p)
    ensures Owed(Apply(s, Write(tx)), p)
  {
    hide Owes, Apply;
    var i: nat :| Owes(s, i, p);
    WriteKeepsOwes(s, tx, i, p);
  }

  lemma WriteKeepsChangedIn(s: Sys, tx: Tx, from: nat, to: nat, p: nat)
    requires Permitted(s.db, tx) && ChangedIn(s, from, to, p)
    ensures ChangedIn(Apply(s, Write(tx)), from, to, p)
  {
    hide Committed, Affects, Queued, MarkedPhase, MarkedJobs;
    var i :| from <= i < to && Mentions(s, i, p);
    WriteKeepsNames(s, tx, i, p);
  }

  // The event a transaction queues is owed to all it names, and it comes after every snapshot.
  lemma NamedIsOwed(s: Sys, tx: Tx, p: nat)
    requires JobsInv(s) && Permitted(s.db, tx)
    requires Queued(s.db, tx).Some? && Affects(Committed(s.db, tx), Queued(s.db, tx).value, p)
    ensures var s' := Apply(s, Write(tx)); |s'.events| == |s.events| + 1 && Mentions(s', |s.events|, p) && Owes(s', |s.events|, p)
  {
    hide Committed, Affects, Queued, MarkedPhase;
  }

  // Whatever a transaction changes, its own event names.
  lemma ChangeIsNamed(s: Sys, tx: Tx, p: nat)
    requires TablesOk(s.db) && Permitted(s.db, tx) && Doc(Committed(s.db, tx), p) != Doc(s.db, p)
    ensures Queued(s.db, tx).Some? && Affects(Committed(s.db, tx), Queued(s.db, tx).value, p)
  {
    hide Committed, Affects, Queued, Doc;
    if Queued(s.db, tx).None? || !Affects(Committed(s.db, tx), Queued(s.db, tx).value, p) {
      EventNamesWhatChanged(s.db, tx, p);
    }
  }

  lemma WriteKeeps(s: Sys, tx: Tx)
    requires Inv(s) && Permitted(s.db, tx)
    ensures Inv(Apply(s, Write(tx)))
    ensures Sound(s) && OneHand(Apply(s, Write(tx))) ==> Sound(Apply(s, Write(tx)))
  {
    hide Apply, TablesOk, ScanInv, ReplayInv, JobsInv, AliasInv, HandsInv, NilUnused, OneHand;
    WriteFrame(s, tx);
    TablesStayOk(s.db, tx);
    NilStaysUnused(s.db, tx);
    WriteKeepsJobs(s, tx);
    WriteKeepsReplay(s, tx);
    if s.phase.Scanning? {
      WriteKeepsScan(s, tx);
    } else {
      NotScanning(Apply(s, Write(tx)));
    }
    if Sound(s) {
      WriteKeepsHands(s, tx);
      if Vouched(s) {
        forall p: nat
          ensures Right(Apply(s, Write(tx)), p) || Owed(Apply(s, Write(tx)), p) || WillReplay(Apply(s, Write(tx)), p)
        {
          WriteKeepsAlias(s, tx, p);
        }
      }
      AliasFrom(Apply(s, Write(tx)));
    }
  }

  lemma AliasFrom(s: Sys)
    requires Vouched(s) ==> forall p: nat :: Right(s, p) || Owed(s, p) || WillReplay(s, p)
    ensures AliasInv(s)
  {
    hide Right, Owed, WillReplay;
  }

  lemma NotScanning(s: Sys)
    requires !s.phase.Scanning?
    ensures ScanInv(s)
  {
  }

  // What a transaction leaves alone.
  lemma WriteFrame(s: Sys, tx: Tx)
    requires Permitted(s.db, tx)
    ensures var s' := Apply(s, Write(tx));
      && s'.db == Committed(s.db, tx) && s'.consumed == s.consumed && s'.alias == s.alias && s'.jobs.Keys == s.jobs.Keys
      && s'.complete == s.complete && s.events <= s'.events
      && s'.phase == MarkedPhase(s.phase, s'.db, Queued(s.db, tx))
      && (s'.phase.Scanning? <==> s.phase.Scanning?) && (Vouched(s') <==> Vouched(s))
  {
    hide Committed, Queued, Marked;
  }

  lemma WriteKeepsJobs(s: Sys, tx: Tx)
    requires JobsInv(s) && Permitted(s.db, tx)
    ensures JobsInv(Apply(s, Write(tx)))
  {
    hide Committed, Affects, Queued, Marked, MarkedPhase;
    var s' := Apply(s, Write(tx));
    forall i | i in s.jobs
      ensures Concerns(s'.db, s'.events[i], s'.jobs[i].ids)
    {
      MarkedIds(s.jobs[i], s'.db, Queued(s.db, tx));
      forall p | p in s.jobs[i].ids
        ensures Affects(s'.db, s'.events[i], p)
      {
        AffectsGrows(s.db, tx, s.events[i], p);
      }
    }
  }

  lemma WriteKeepsReplay(s: Sys, tx: Tx)
    requires ReplayInv(s) && Permitted(s.db, tx)
    ensures ReplayInv(Apply(s, Write(tx)))
  {
    hide Committed, Queued, Marked, MarkedJobs;
  }

  lemma NilStaysUnused(db: Tables, tx: Tx)
    requires Permitted(db, tx) && NilUnused(db)
    ensures NilUnused(Committed(db, tx))
  {
  }

  lemma WriteKeepsHands(s: Sys, tx: Tx)
    requires JobsInv(s) && HandsInv(s) && Permitted(s.db, tx)
    ensures HandsInv(Apply(s, Write(tx)))
  {
    hide Committed, Affects, Queued, Marked, Owed, OwedBeside, Holds;
    var s' := Apply(s, Write(tx));
    var q := Queued(s.db, tx);
    forall i | i in s.jobs
      ensures forall p :: Holds(s'.jobs[i], p) <==> Holds(s.jobs[i], p)
    {
      MarkedIds(s.jobs[i], s'.db, q);
    }
    forall i, p: nat | i in s'.jobs && Holds(s'.jobs[i], p) && s'.jobs[i].changed
      ensures OwedBeside(s', i, p)
    {
      ChangedHandIsOwed(s, tx, i, p);
    }
    if s.phase.Replaying? {
      MarkedIds(s.phase.todo, s'.db, q);
      forall p: nat | Holds(s'.phase.todo, p) && s'.phase.todo.changed
        ensures Owed(s', p)
      {
        ChangedReplayIsOwed(s, tx, p);
      }
    }
  }

  lemma ChangedHandIsOwed(s: Sys, tx: Tx, i: nat, p: nat)
    requires JobsInv(s) && HandsInv(s) && Permitted(s.db, tx)
    requires i in Apply(s, Write(tx)).jobs && Holds(Apply(s, Write(tx)).jobs[i], p) && Apply(s, Write(tx)).jobs[i].changed
    ensures OwedBeside(Apply(s, Write(tx)), i, p)
  {
    hide Committed, Affects, Queued, Marked, MarkedPhase, Owes;
    var q := Queued(s.db, tx);
    MarkedIds(s.jobs[i], Committed(s.db, tx), q);
    if s.jobs[i].changed {
      assert OwedBeside(s, i, p);
      var j: nat :| j != i && Owes(s, j, p);
      WriteKeepsOwes(s, tx, j, p);
    } else {
      NamedIsOwed(s, tx, p);
    }
  }

  lemma ChangedReplayIsOwed(s: Sys, tx: Tx, p: nat)
    requires JobsInv(s) && HandsInv(s) && Permitted(s.db, tx) && s.phase.Replaying?
    requires var w := Apply(s, Write(tx)).phase.todo; Holds(w, p) && w.changed
    ensures Owed(Apply(s, Write(tx)), p)
  {
    hide Committed, Affects, Queued, Marked, MarkedJobs, Owes;
    MarkedIds(s.phase.todo, Committed(s.db, tx), Queued(s.db, tx));
    if s.phase.todo.changed {
      WriteKeepsOwed(s, tx, p);
    } else {
      NamedIsOwed(s, tx, p);
    }
  }

  lemma WriteKeepsAlias(s: Sys, tx: Tx, p: nat)
    requires Sound(s) && Permitted(s.db, tx) && Vouched(s)
    ensures var s' := Apply(s, Write(tx)); Right(s', p) || Owed(s', p) || WillReplay(s', p)
  {
    hide Committed, Affects, Queued, Doc, Permitted, TablesOk, ScanInv, HandsInv, Mentions, Owes, Marked, MarkedJobs;
    if Doc(Committed(s.db, tx), p) != Doc(s.db, p) {
      ChangeIsNamed(s, tx, p);
      NamedIsOwed(s, tx, p);
    } else if Owed(s, p) {
      WriteKeepsOwed(s, tx, p);
    } else if !Right(s, p) && s.phase.Swapped? {
      WriteKeepsChangedIn(s, tx, s.phase.since, |s.events|, p);
    } else if !Right(s, p) {
      MarkedIds(s.phase.todo, Committed(s.db, tx), Queued(s.db, tx));
      if p !in s.phase.todo.ids {
        WriteKeepsChangedIn(s, tx, s.phase.next, s.phase.end, p);
      }
    }
  }

  lemma WriteKeepsScan(s: Sys, tx: Tx)
    requires Inv(s) && Permitted(s.db, tx) && s.phase.Scanning?
    ensures ScanInv(Apply(s, Write(tx)))
  {
    hide Committed, Affects, Queued, Doc, Permitted, TablesOk, AliasInv, HandsInv, Mentions, Marked, MarkedJobs, ChangedIn, Look, Holds;
    var s' := Apply(s, Write(tx));
    MarkedIds(s.phase.work, s'.db, Queued(s.db, tx));
    forall p: nat
      ensures Ahead(s.phase, p) || Look(s.phase.built, p) == Doc(s'.db, p) || ChangedIn(s', s.phase.since, |s'.events|, p)
    {
      WriteKeepsFresh(s, tx, p);
    }
    forall p: nat | Holds(s'.phase.work, p) && s'.phase.work.changed
      ensures ChangedIn(s', s.phase.since, |s'.events|, p)
    {
      ChangedScanIsNamed(s, tx, p);
    }
  }

  lemma WriteKeepsFresh(s: Sys, tx: Tx, p: nat)
    requires Inv(s) && Permitted(s.db, tx) && s.phase.Scanning?
    ensures var s' := Apply(s, Write(tx));
      Ahead(s.phase, p) || Look(s.phase.built, p) == Doc(s'.db, p) || ChangedIn(s', s.phase.since, |s'.events|, p)
  {
    hide Committed, Affects, Queued, Doc, Permitted, TablesOk, AliasInv, HandsInv, Mentions, Owes, Marked, MarkedPhase, MarkedJobs;
    if Doc(Committed(s.db, tx), p) != Doc(s.db, p) {
      ChangeIsNamed(s, tx, p);
      NamedIsOwed(s, tx, p);
    } else if ChangedIn(s, s.phase.since, |s.events|, p) {
      WriteKeepsChangedIn(s, tx, s.phase.since, |s.events|, p);
    }
  }

  lemma ChangedScanIsNamed(s: Sys, tx: Tx, p: nat)
    requires Inv(s) && Permitted(s.db, tx) && s.phase.Scanning?
    requires var w := Apply(s, Write(tx)).phase.work; Holds(w, p) && w.changed
    ensures ChangedIn(Apply(s, Write(tx)), s.phase.since, |Apply(s, Write(tx)).events|, p)
  {
    hide Committed, Affects, Queued, Doc, Permitted, TablesOk, AliasInv, HandsInv, Mentions, Owes, Marked, MarkedJobs;
    MarkedIds(s.phase.work, Committed(s.db, tx), Queued(s.db, tx));
    if s.phase.work.changed {
      WriteKeepsChangedIn(s, tx, s.phase.since, |s.events|, p);
    } else {
      NamedIsOwed(s, tx, p);
    }
  }

  // ---- Indexer ------------------------------------------------------------------------------

  predicate OfIndexer(a: Action)
  {
    a.Take? || a.Open? || a.Rebuild? || a.Finish? || a.Lose?
  }

  lemma PutAt(index: Index, p: nat, doc: Option<Document>)
    ensures Look(Put(index, p, doc), p) == doc
    ensures forall q: nat :: q != p ==> Look(Put(index, p, doc), q) == Look(index, q)
  {
  }

  lemma SameChangedIn(s: Sys, s': Sys, from: nat, to: nat, p: nat)
    requires s'.db == s.db && s'.events == s.events && ChangedIn(s, from, to, p)
    ensures ChangedIn(s', from, to, p)
  {
    hide Affects;
    var i :| from <= i < to && Mentions(s, i, p);
    assert Mentions(s', i, p);
  }

  lemma SameReplay(s: Sys, s': Sys, p: nat)
    requires s'.db == s.db && s'.events == s.events && s'.phase == s.phase && WillReplay(s, p)
    ensures WillReplay(s', p)
  {
    hide Affects;
    if s.phase.Swapped? {
      SameChangedIn(s, s', s.phase.since, |s.events|, p);
    } else if p !in s.phase.todo.ids {
      SameChangedIn(s, s', s.phase.next, s.phase.end, p);
    }
  }

  lemma SameScan(s: Sys, s': Sys)
    requires s'.db == s.db && s'.events == s.events && s'.phase == s.phase && ScanInv(s)
    ensures ScanInv(s')
  {
    hide Doc, Affects, ChangedIn;
    if s.phase.Scanning? {
      forall p: nat | ChangedIn(s, s.phase.since, |s.events|, p)
        ensures ChangedIn(s', s.phase.since, |s.events|, p)
      {
        SameChangedIn(s, s', s.phase.since, |s.events|, p);
      }
    }
  }

  lemma IndexerFrame(s: Sys, a: Action)
    requires Enabled(s, a) && OfIndexer(a) && JobsInv(s)
    ensures var s' := Apply(s, a);
      && s'.db == s.db && s'.events == s.events && s'.phase == s.phase && s'.complete == s.complete
      && JobsInv(s')
  {
    hide Doc, Affects, Put;
  }

  // An event goes on owing a product unless it is the one that writes it now.
  lemma OwesOn(s: Sys, a: Action, j: nat, p: nat)
    requires JobsInv(s) && Enabled(s, a) && OfIndexer(a) && Owes(s, j, p)
    requires a.Rebuild? && j == a.event ==> s.jobs[j].ids[0] != p
    ensures Owes(Apply(s, a), j, p)
  {
    hide Doc, Affects, Put;
  }

  lemma IndexerKeeps(s: Sys, a: Action)
    requires Inv(s) && Enabled(s, a) && OfIndexer(a)
    ensures Inv(Apply(s, a))
    ensures Sound(s) && OneHand(Apply(s, a)) ==> Sound(Apply(s, a))
  {
    hide Enabled, Apply, ScanInv, JobsInv, AliasInv, HandsInv, TablesOk, OneHand;
    IndexerFrame(s, a);
    SameScan(s, Apply(s, a));
    if Sound(s) {
      IndexerKeepsHands(s, a);
      if Vouched(s) {
        forall p: nat
          ensures Right(Apply(s, a), p) || Owed(Apply(s, a), p) || WillReplay(Apply(s, a), p)
        {
          IndexerKeepsAlias(s, a, p);
        }
      }
      AliasFrom(Apply(s, a));
    }
  }

  // Who has a product in hand after an indexer step: whoever had it before, or who opened it.
  lemma HandsAfter(s: Sys, a: Action, i: nat, p: nat)
    requires Enabled(s, a) && OfIndexer(a) && i in Apply(s, a).jobs && Holds(Apply(s, a).jobs[i], p)
    ensures if a.Open? && i == a.event then s.jobs[i].ids != [] && s.jobs[i].ids[0] == p && !Apply(s, a).jobs[i].changed
            else i in s.jobs && s.jobs[i] == Apply(s, a).jobs[i] && !(a.Rebuild? && i == a.event)
  {
    hide Doc, Affects, Put;
  }

  lemma IndexerKeepsHands(s: Sys, a: Action)
    requires JobsInv(s) && OneHand(s) && HandsInv(s) && Enabled(s, a) && OfIndexer(a)
    ensures HandsInv(Apply(s, a))
  {
    hide Enabled, Apply, OwedBeside, Owed, JobsInv, Holds, OneHand;
    IndexerFrame(s, a);
    var s' := Apply(s, a);
    forall i, p: nat | i in s'.jobs && Holds(s'.jobs[i], p) && s'.jobs[i].changed
      ensures OwedBeside(s', i, p)
    {
      HandsAfter(s, a, i, p);
      BesideOn(s, a, i, p);
    }
    if s.phase.Replaying? {
      forall p: nat | Holds(s'.phase.todo, p) && s'.phase.todo.changed
        ensures Owed(s', p)
      {
        ReplayOwedOn(s, a, p);
      }
    }
  }

  lemma BesideOn(s: Sys, a: Action, i: nat, p: nat)
    requires JobsInv(s) && OneHand(s) && HandsInv(s) && Enabled(s, a) && OfIndexer(a)
    requires i in s.jobs && Holds(s.jobs[i], p) && s.jobs[i].changed && !(a.Rebuild? && i == a.event)
    ensures OwedBeside(Apply(s, a), i, p)
  {
    hide Apply, Owes, JobsInv, Doc;
    var j: nat :| j != i && Owes(s, j, p);
    if a.Rebuild? && j == a.event {
      assert Holds(s.jobs[j], s.jobs[j].ids[0]);
    }
    OwesOn(s, a, j, p);
  }

  lemma ReplayOwedOn(s: Sys, a: Action, p: nat)
    requires JobsInv(s) && OneHand(s) && HandsInv(s) && Enabled(s, a) && OfIndexer(a)
    requires s.phase.Replaying? && Holds(s.phase.todo, p) && s.phase.todo.changed
    ensures Owed(Apply(s, a), p)
  {
    hide Apply, Owes, JobsInv, Doc;
    var j: nat :| Owes(s, j, p);
    if a.Rebuild? && j == a.event {
      assert Holds(s.jobs[j], s.jobs[j].ids[0]);
    }
    OwesOn(s, a, j, p);
  }

  lemma IndexerKeepsAlias(s: Sys, a: Action, p: nat)
    requires Sound(s) && Vouched(s) && Enabled(s, a) && OfIndexer(a)
    ensures var s' := Apply(s, a); Right(s', p) || Owed(s', p) || WillReplay(s', p)
  {
    hide Doc, Affects, ScanInv, HandsInv, TablesOk, JobsInv, Apply, Owes, Put, Look;
    IndexerFrame(s, a);
    if a.Rebuild? && s.jobs[a.event].ids[0] == p {
      RebuiltIsFine(s, a.event, a.doc);
    } else if Owed(s, p) {
      var i: nat :| Owes(s, i, p);
      OwesOn(s, a, i, p);
    } else if WillReplay(s, p) {
      SameReplay(s, Apply(s, a), p);
    } else {
      SameEntry(s, a, p);
    }
  }

  lemma SameEntry(s: Sys, a: Action, p: nat)
    requires Enabled(s, a) && OfIndexer(a) && (a.Rebuild? ==> s.jobs[a.event].ids[0] != p)
    ensures Look(Apply(s, a).alias, p) == Look(s.alias, p)
  {
    hide Doc, Look, Put;
    if a.Rebuild? {
      PutAt(s.alias, s.jobs[a.event].ids[0], a.doc);
    }
  }

  // A product written from rows that have not changed is right; one written from older rows is
  // still owed by the event that changed them.
  lemma RebuiltIsFine(s: Sys, i: nat, doc: Option<Document>)
    requires Sound(s) && Enabled(s, Rebuild(i, doc))
    ensures var s', p := Apply(s, Rebuild(i, doc)), s.jobs[i].ids[0]; Right(s', p) || Owed(s', p)
  {
    hide Doc, Affects, ScanInv, AliasInv, TablesOk, JobsInv, Owes, Put, Look;
    var p := s.jobs[i].ids[0];
    PutAt(s.alias, p, doc);
    if doc != Doc(s.db, p) {
      assert Holds(s.jobs[i], p) && OwedBeside(s, i, p);
      var j: nat :| j != i && Owes(s, j, p);
      OwesOn(s, Rebuild(i, doc), j, p);
    }
  }

  // ---- Reindex ------------------------------------------------------------------------------

  predicate OfScan(a: Action)
  {
    a.StartScan? || a.NextPage? || a.ScanOpen? || a.ScanOne? || a.EndScan?
  }

  lemma SameOwed(s: Sys, s': Sys, p: nat)
    requires s'.db == s.db && s'.events == s.events && s'.consumed == s.consumed && s'.jobs == s.jobs
    ensures Owed(s, p) ==> Owed(s', p)
    ensures forall i: nat :: OwedBeside(s, i, p) ==> OwedBeside(s', i, p)
  {
    hide Affects;
    assert forall i: nat :: Owes(s, i, p) ==> Owes(s', i, p);
  }

  // Steps of the reindex that leave the live index alone leave every hand as it is.
  lemma SameHands(s: Sys, s': Sys)
    requires HandsInv(s) && s'.db == s.db && s'.events == s.events && s'.consumed == s.consumed && s'.jobs == s.jobs
    requires s'.phase.Replaying? && s'.phase.todo.inHand ==> s.phase.Replaying? && s'.phase.todo == s.phase.todo
    ensures HandsInv(s')
  {
    hide Owed, OwedBeside;
    forall i, p: nat | i in s'.jobs && Holds(s'.jobs[i], p) && s'.jobs[i].changed
      ensures OwedBeside(s', i, p)
    {
      SameOwed(s, s', p);
    }
    if s'.phase.Replaying? {
      forall p: nat | Holds(s'.phase.todo, p) && s'.phase.todo.changed
        ensures Owed(s', p)
      {
        SameOwed(s, s', p);
      }
    }
  }

  lemma ScanFrame(s: Sys, a: Action)
    requires Enabled(s, a) && OfScan(a)
    ensures var s' := Apply(s, a); s' == s.(phase := s'.phase) && s'.phase.Scanning? && (s.phase.Idle? || s.phase.Scanning?)
  {
    hide Doc;
  }

  lemma ScanKeeps(s: Sys, a: Action)
    requires Inv(s) && Enabled(s, a) && OfScan(a)
    ensures Inv(Apply(s, a))
    ensures Sound(s) && OneHand(Apply(s, a)) ==> Sound(Apply(s, a))
  {
    hide Doc, Affects, ScanInv, HandsInv, Enabled, Apply, TablesOk, OneHand;
    ScanFrame(s, a);
    var s' := Apply(s, a);
    if Sound(s) {
      SameHands(s, s');
      if Vouched(s') {
        forall p: nat
          ensures Right(s', p) || Owed(s', p)
        {
          assert Right(s, p) || Owed(s, p);
          SameOwed(s, s', p);
        }
      }
    }
    match a {
      case StartScan => StartKeepsScan(s);
      case NextPage(ids) => PageKeepsScan(s, ids);
      case ScanOpen => OpenKeepsScan(s);
      case ScanOne(doc) => ScanOneKeepsScan(s, doc);
      case EndScan => EndKeepsScan(s);
    }
  }

  lemma StartKeepsScan(s: Sys)
    requires Inv(s) && Enabled(s, StartScan)
    ensures ScanInv(Apply(s, StartScan))
  {
    hide Affects, AliasInv, HandsInv;
  }

  lemma PageKeepsScan(s: Sys, ids: seq<nat>)
    requires Inv(s) && Enabled(s, NextPage(ids))
    ensures ScanInv(Apply(s, NextPage(ids)))
  {
    hide Affects, AliasInv, HandsInv, VariantsOf, RatingsOf;
    var s' := Apply(s, NextPage(ids));
    forall p: nat | !Ahead(s'.phase, p)
      ensures Look(s'.phase.built, p) == Doc(s'.db, p) || ChangedIn(s', s'.phase.since, |s'.events|, p)
    {
      if Ahead(s.phase, p) {
        // Not in the page although its id falls inside: there is no such product.
        assert p !in s.db.products;
      } else if ChangedIn(s, s.phase.since, |s.events|, p) {
        SameChangedIn(s, s', s.phase.since, |s.events|, p);
      }
    }
  }

  lemma OpenKeepsScan(s: Sys)
    requires Inv(s) && Enabled(s, ScanOpen)
    ensures ScanInv(Apply(s, ScanOpen))
  {
    hide Affects, AliasInv, HandsInv, Doc, ChangedIn;
    var s' := Apply(s, ScanOpen);
    forall p: nat | ChangedIn(s, s.phase.since, |s.events|, p)
      ensures ChangedIn(s', s.phase.since, |s.events|, p)
    {
      SameChangedIn(s, s', s.phase.since, |s.events|, p);
    }
  }

  lemma ScanOneKeepsScan(s: Sys, doc: Option<Document>)
    requires Inv(s) && Enabled(s, ScanOne(doc))
    ensures ScanInv(Apply(s, ScanOne(doc)))
  {
    hide Affects, AliasInv, HandsInv, Doc, ChangedIn;
    var s' := Apply(s, ScanOne(doc));
    var x := s.phase.work.ids[0];
    forall p: nat | !Ahead(s'.phase, p)
      ensures Look(s'.phase.built, p) == Doc(s'.db, p) || ChangedIn(s', s'.phase.since, |s'.events|, p)
    {
      if p == x {
        assert Ahead(s.phase, x) && Holds(s.phase.work, x);
        if s.phase.work.changed {
          SameChangedIn(s, s', s.phase.since, |s.events|, p);
        }
      } else {
        assert p !in s.phase.work.ids;
        if ChangedIn(s, s.phase.since, |s.events|, p) {
          SameChangedIn(s, s', s.phase.since, |s.events|, p);
        }
      }
    }
    forall p: nat | Ahead(s'.phase, p)
      ensures p !in s'.phase.built
    {
      if p in s'.phase.work.ids {
        assert p in s.phase.work.ids && p != x;
      }
    }
  }

  // What is created behind an empty page is named by an event.
  lemma EndKeepsScan(s: Sys)
    requires Inv(s) && Enabled(s, EndScan)
    ensures ScanInv(Apply(s, EndScan))
  {
    hide Affects, AliasInv, HandsInv, VariantsOf, RatingsOf;
    var s' := Apply(s, EndScan);
    forall p: nat
      ensures Look(s'.phase.built, p) == Doc(s'.db, p) || ChangedIn(s', s'.phase.since, |s'.events|, p)
    {
      if Ahead(s.phase, p) {
        assert p !in s.db.products;
      } else if ChangedIn(s, s.phase.since, |s.events|, p) {
        SameChangedIn(s, s', s.phase.since, |s.events|, p);
      }
    }
  }

  lemma SwitchKeeps(s: Sys)
    requires Inv(s) && Enabled(s, SwitchAlias)
    ensures Inv(Apply(s, SwitchAlias))
    ensures Sound(s) && OneHand(Apply(s, SwitchAlias)) ==> Sound(Apply(s, SwitchAlias))
  {
    hide Affects, Doc, HandsInv, TablesOk, ChangedIn, OneHand;
    var s' := Apply(s, SwitchAlias);
    forall p: nat
      ensures Right(s', p) || WillReplay(s', p)
    {
      assert !Ahead(s.phase, p);
      if ChangedIn(s, s.phase.since, |s.events|, p) {
        SameChangedIn(s, s', s.phase.since, |s.events|, p);
      }
    }
    if Sound(s) {
      SameHands(s, s');
    }
  }

  predicate OfReplay(a: Action)
  {
    a.ReadOutbox? || a.ReplayEvent? || a.ReplayOpen? || a.ReplayOne? || a.EndReplay?
  }

  lemma ReplayKeeps(s: Sys, a: Action)
    requires Inv(s) && Enabled(s, a) && OfReplay(a)
    ensures Inv(Apply(s, a))
    ensures Sound(s) && OneHand(Apply(s, a)) ==> Sound(Apply(s, a))
  {
    hide Doc, Affects, Put, HandsInv, Right, Owed, WillReplay, Enabled, Apply, TablesOk, ScanInv, JobsInv, OneHand;
    ReplayFrame(s, a);
    NotScanning(Apply(s, a));
    if Sound(s) {
      ReplayKeepsHands(s, a);
      forall p: nat
        ensures Right(Apply(s, a), p) || Owed(Apply(s, a), p) || WillReplay(Apply(s, a), p)
      {
        ReplayKeepsAlias(s, a, p);
      }
    }
  }

  lemma ReplayFrame(s: Sys, a: Action)
    requires Inv(s) && Enabled(s, a) && OfReplay(a)
    ensures var s' := Apply(s, a);
      && s'.db == s.db && s'.events == s.events && s'.jobs == s.jobs && s'.consumed == s.consumed
      && !s'.phase.Scanning? && ReplayInv(s') && JobsInv(s')
  {
    hide Doc, Affects, Put, AliasInv, HandsInv;
  }

  lemma ReplayKeepsHands(s: Sys, a: Action)
    requires HandsInv(s) && Enabled(s, a) && OfReplay(a)
    ensures HandsInv(Apply(s, a))
  {
    hide Doc, Affects, Put, Owed, OwedBeside;
    var s' := Apply(s, a);
    forall i, p: nat | i in s'.jobs && Holds(s'.jobs[i], p) && s'.jobs[i].changed
      ensures OwedBeside(s', i, p)
    {
      SameOwed(s, s', p);
    }
  }

  lemma ReplayKeepsAlias(s: Sys, a: Action, p: nat)
    requires Sound(s) && Enabled(s, a) && OfReplay(a)
    ensures var s' := Apply(s, a); Right(s', p) || Owed(s', p) || WillReplay(s', p)
  {
    hide Doc, Affects, Put, Look, ScanInv, JobsInv, TablesOk, Owed;
    var s' := Apply(s, a);
    SameOwed(s, s', p);
    if a.ReplayOne? {
      PutAt(s.alias, s.phase.todo.ids[0], a.doc);
      assert s.phase.todo.changed ==> Holds(s.phase.todo, s.phase.todo.ids[0]);
    }
    if !Owed(s, p) && !Right(s, p) && !(s.phase.Replaying? && p in s.phase.todo.ids) {
      var from, to := if s.phase.Swapped? then s.phase.since else s.phase.next, if s.phase.Swapped? then |s.events| else s.phase.end;
      assert ChangedIn(s, from, to, p);
      var i :| from <= i < to && Mentions(s, i, p);
      assert Mentions(s', i, p);
    }
  }

  lemma AbortKeeps(s: Sys)
    requires Inv(s)
    ensures Inv(Apply(s, Abort))
    ensures Sound(s) && OneHand(Apply(s, Abort)) ==> Sound(Apply(s, Abort))
  {
    hide Doc, Affects, HandsInv, OneHand;
    var s' := Apply(s, Abort);
    if Sound(s) {
      SameHands(s, s');
      if Vouched(s') {
        forall p: nat
          ensures Right(s', p) || Owed(s', p)
        {
          assert Right(s, p) || Owed(s, p);
          SameOwed(s, s', p);
        }
      }
    }
  }

  lemma NextKeeps(s: Sys, a: Action)
    requires Inv(s) && Enabled(s, a)
    ensures Inv(Apply(s, a))
    ensures Sound(s) && OneHand(Apply(s, a)) ==> Sound(Apply(s, a))
  {
    hide Inv, Sound, OneHand, Apply, Enabled;
    if a.Write? {
      WriteIsPermitted(s, a.tx);
      WriteKeeps(s, a.tx);
    } else if OfIndexer(a) {
      IndexerKeeps(s, a);
    } else if OfScan(a) {
      ScanKeeps(s, a);
    } else if a.SwitchAlias? {
      SwitchKeeps(s);
    } else if OfReplay(a) {
      ReplayKeeps(s, a);
    } else {
      AbortKeeps(s);
    }
  }

  lemma WriteIsPermitted(s: Sys, tx: Tx)
    requires Enabled(s, Write(tx))
    ensures Permitted(s.db, tx)
  {
  }

  // ---- Runs ---------------------------------------------------------------------------------

  // Any tables and any index to start with: the alias may hold nonsense.
  predicate Initial(s: Sys)
  {
    && TablesOk(s.db) && NilUnused(s.db)
    && s.events == [] && s.consumed == {} && s.jobs == map[] && s.phase == Idle && !s.complete
  }

  predicate Next(s: Sys, a: Action, s': Sys)
  {
    Enabled(s, a) && s' == Apply(s, a)
  }

  // A step after which no product is in two hands.
  ghost predicate OneHandNext(s: Sys, a: Action, s': Sys)
  {
    Next(s, a, s') && OneHand(s')
  }

  predicate Run(states: seq<Sys>, actions: seq<Action>)
  {
    && |states| == |actions| + 1
    && Initial(states[0])
    && forall i :: 0 <= i < |actions| ==> Next(states[i], actions[i], states[i + 1])
  }

  lemma {:induction false} RunKeepsInv(states: seq<Sys>, actions: seq<Action>, n: nat)
    requires Run(states, actions) && n < |states|
    ensures Inv(states[n])
  {
    hide Inv, Enabled, Apply;
    if n == 0 {
      InitiallyInv(states[0]);
    } else {
      RunKeepsInv(states, actions, n - 1);
      assert Next(states[n - 1], actions[n - 1], states[n]);
      NextKeeps(states[n - 1], actions[n - 1]);
    }
  }

  lemma InitiallyInv(s: Sys)
    requires Initial(s)
    ensures Inv(s) && Sound(s)
  {
  }

  // A run in which no product has been in two hands, up to state n.
  ghost predicate OneHanded(states: seq<Sys>, n: nat)
    requires n < |states|
  {
    forall i :: 0 <= i <= n ==> OneHand(states[i])
  }

  lemma {:induction false} RunKeepsSound(states: seq<Sys>, actions: seq<Action>, n: nat)
    requires Run(states, actions) && n < |states| && OneHanded(states, n)
    ensures Sound(states[n])
  {
    hide Inv, Sound, OneHand, Enabled, Apply;
    RunKeepsInv(states, actions, n);
    if n == 0 {
      InitiallyInv(states[0]);
    } else {
      RunKeepsSound(states, actions, n - 1);
      RunKeepsInv(states, actions, n - 1);
      assert Next(states[n - 1], actions[n - 1], states[n]);
      NextKeeps(states[n - 1], actions[n - 1]);
    }
  }

  // Everything is settled: a reindex has finished and every event is consumed.
  predicate Settled(s: Sys)
  {
    s.complete && forall i :: 0 <= i < |s.events| ==> i in s.consumed
  }

  ghost predicate Faithful(s: Sys)
  {
    forall p: nat :: Right(s, p)
  }

  lemma SettledIsFaithful(s: Sys)
    requires Sound(s) && Settled(s)
    ensures Faithful(s)
  {
    hide Affects, ScanInv, JobsInv, HandsInv, OneHand, Doc, Look;
    forall p: nat
      ensures Right(s, p)
    {
      assert Right(s, p) || Owed(s, p) || WillReplay(s, p);
      assert !Owed(s, p);
    }
  }

  // Main theorem. In every run in which no product is in two hands at once, however catalogue
  // transactions, indexers, reindex and their failures interleave, and whatever changes between
  // the queries that read a product and the write of its document: once a reindex has finished
  // and all events are consumed, the alias holds exactly the document of every product, and none
  // for a product that is not to be found.
  lemma IndexConverges(states: seq<Sys>, actions: seq<Action>, n: nat)
    requires Run(states, actions) && n < |states| && OneHanded(states, n) && Settled(states[n])
    ensures forall p: nat :: Look(states[n].alias, p) == Doc(states[n].db, p)
    ensures forall p: nat :: p in states[n].alias <==> Visible(states[n].db, p)
  {
    hide Sound, VariantsOf, RatingsOf, Enabled, Apply, OneHanded;
    RunKeepsSound(states, actions, n);
    var s := states[n];
    SettledIsFaithful(s);
    forall p: nat
      ensures Look(s.alias, p) == Doc(s.db, p) && (p in s.alias <==> Visible(s.db, p))
    {
      assert Right(s, p);
    }
  }

  // Before that, whatever the alias has wrong is still owed by an unconsumed event.
  lemma StaleIsOwed(states: seq<Sys>, actions: seq<Action>, n: nat, p: nat)
    requires Run(states, actions) && n < |states| && OneHanded(states, n) && states[n].complete && !Right(states[n], p)
    ensures exists i: nat :: i < |states[n].events| && i !in states[n].consumed && Affects(states[n].db, states[n].events[i], p)
  {
    hide Doc, Affects, ScanInv, HandsInv, Right, Enabled, Apply, OneHand, OneHanded;
    RunKeepsSound(states, actions, n);
    var s := states[n];
    assert Right(s, p) || Owed(s, p) || WillReplay(s, p);
    var i: nat :| Owes(s, i, p);
    assert i in s.jobs ==> Concerns(s.db, s.events[i], s.jobs[i].ids);
  }
}
