/**
 * The loops of the reindex command and of the search indexer as they run, while everybody else
 * goes on between their steps and between the queries of one document. Each is proved to take only
 * steps of the index protocol.
 */
module SearchWorkers {
  import opened Common
  import opened Retries
  import opened SearchDocuments
  import opened SearchIndex
  import opened Traces

  lemma TraceKeepsInv(s: Sys, trace: seq<Action>, s': Sys)
    requires Inv(s) && Steps(Next, s, trace, s')
    ensures Inv(s')
  {
    hide Inv, Steps, Enabled, Apply;
    forall x, a, y | Inv(x) && Next(x, a, y)
      ensures Inv(y)
    {
      NextKeeps(x, a);
    }
    StepsKeep(Next, Inv, s, trace, s');
  }

  // What a whole trace does to the invariants: the first is kept in any case, the other one as long
  // as no product is in two hands.
  lemma TraceKeeps(s: Sys, trace: seq<Action>, s': Sys)
    requires Steps(Next, s, trace, s')
    ensures Inv(s) ==> Inv(s')
    ensures Sound(s) && Steps(OneHandNext, s, trace, s') ==> Sound(s')
    ensures Sound(s') && s'.phase.Idle? && s'.complete ==> forall p: nat :: Right(s', p) || Owed(s', p)
  {
    hide Inv, Sound, Steps, Enabled, Apply, OneHand, Right, Owed;
    if Inv(s) {
      TraceKeepsInv(s, trace, s');
    }
    if Sound(s) && Steps(OneHandNext, s, trace, s') {
      forall x, a, y | Sound(x) && OneHandNext(x, a, y)
        ensures Sound(y)
      {
        SoundPart(x);
        NextKeeps(x, a);
      }
      StepsKeep(OneHandNext, Sound, s, trace, s');
    }
    if Sound(s') && s'.phase.Idle? && s'.complete {
      IdleIsOwed(s');
    }
  }

  lemma SoundPart(s: Sys)
    requires Sound(s)
    ensures Inv(s)
  {
  }

  // Once the reindex is over, what is stale is owed by the indexer.
  lemma IdleIsOwed(s: Sys)
    requires Sound(s) && s.phase.Idle? && s.complete
    ensures forall p: nat :: Right(s, p) || Owed(s, p)
  {
    hide Doc, Affects, ScanInv, JobsInv, TablesOk, HandsInv, OneHand;
  }

  // One reindex runs at a time, and one consumer works on an event.
  datatype Role = Reindexer | Indexer(event: nat)

  predicate Mine(a: Action, role: Role)
  {
    match a
    case Write(_) => false
    case Take(e, _) => role == Indexer(e)
    case Open(e) => role == Indexer(e)
    case Rebuild(e, _) => role == Indexer(e)
    case Finish(e) => role == Indexer(e)
    case Lose(e) => role == Indexer(e)
    case _ => role == Reindexer
  }

  // The products a worker has before it.
  function Hand(s: Sys, role: Role): Work
  {
    match role
    case Indexer(e) => if e in s.jobs then s.jobs[e] else NOTHING
    case Reindexer => if s.phase.Scanning? then s.phase.work else if s.phase.Replaying? then s.phase.todo else NOTHING
  }

  function Bare(phase: Phase): Phase
  {
    match phase
    case Scanning(_, _, _, _, _) => phase.(work := NOTHING)
    case Replaying(_, _, _) => phase.(todo := NOTHING)
    case _ => phase
  }

  // A hand that others leave alone: if its product is not marked as changed, its rows are the same.
  predicate SameHand(s: Sys, s': Sys, role: Role)
  {
    var w, w' := Hand(s, role), Hand(s', role);
    && w'.ids == w.ids && w'.inHand == w.inHand && (w.changed ==> w'.changed) && (!w.inHand ==> w'.changed == w.changed)
    && (w.inHand && w.ids != [] && !w'.changed ==> SameSource(s.db, s'.db, w.ids[0]))
  }

  // What steps of others leave to a worker.
  predicate Undisturbed(s: Sys, s': Sys, role: Role)
  {
    && s.events <= s'.events && s.consumed <= s'.consumed && s.db.products.Keys <= s'.db.products.Keys && TablesOk(s'.db)
    && SameHand(s, s', role)
    && match role
       case Reindexer => Bare(s'.phase) == Bare(s.phase) && s'.complete == s.complete
       case Indexer(e) => e in s'.jobs <==> e in s.jobs
  }

  lemma StepUndisturbed(s: Sys, a: Action, role: Role)
    requires Enabled(s, a) && !Mine(a, role) && TablesOk(s.db)
    ensures Undisturbed(s, Apply(s, a), role)
  {
    hide SameSource, Affects, TablesOk, Doc;
    if a.Write? {
      TablesStayOk(s.db, a.tx);
      WriteUndisturbed(s, a.tx, role);
    } else {
      OtherUndisturbed(s, a, role);
    }
  }

  lemma OtherUndisturbed(s: Sys, a: Action, role: Role)
    requires Enabled(s, a) && !Mine(a, role) && !a.Write? && TablesOk(s.db)
    ensures Undisturbed(s, Apply(s, a), role)
  {
    hide SameSource, TablesOk, Enabled, Apply;
    OtherFrame(s, a);
    if role.Indexer? {
      OtherJob(s, a, role.event);
    }
    if Hand(s, role).ids != [] {
      SameSourceSelf(s.db, Hand(s, role).ids[0]);
    }
  }

  lemma OtherFrame(s: Sys, a: Action)
    requires Enabled(s, a) && !a.Write?
    ensures var s' := Apply(s, a);
      && s'.events == s.events && s.consumed <= s'.consumed && s'.db == s.db
      && (OfIndexer(a) ==> s'.phase == s.phase && s'.complete == s.complete)
  {
    hide Affects, Doc, Put, CanWrite, PageAfter, AffectedIds;
  }

  lemma OtherJob(s: Sys, a: Action, e: nat)
    requires Enabled(s, a) && !a.Write? && !Mine(a, Indexer(e))
    ensures var s' := Apply(s, a); (e in s'.jobs <==> e in s.jobs) && (e in s.jobs ==> s'.jobs[e] == s.jobs[e])
  {
    hide Affects, Doc, Put, CanWrite, PageAfter, AffectedIds;
  }

  lemma SameSourceSelf(db: Tables, p: nat)
    ensures SameSource(db, db, p)
  {
  }

  lemma WriteUndisturbed(s: Sys, tx: Tx, role: Role)
    requires Permitted(s.db, tx) && TablesOk(s.db)
    ensures var s' := Apply(s, Write(tx));
      && s.events <= s'.events && s'.consumed == s.consumed && s.db.products.Keys <= s'.db.products.Keys
      && s'.complete == s.complete && SameHand(s, s', role)
      && Bare(s'.phase) == Bare(s.phase) && s'.jobs.Keys == s.jobs.Keys
  {
    hide SameSource, Affects, TablesOk, Doc, Committed, Queued;
    var s', w := Apply(s, Write(tx)), Hand(s, role);
    KeepsProducts(s.db, tx);
    MarkedIds(w, s'.db, Queued(s.db, tx));
    assert Hand(s', role) == Marked(w, s'.db, Queued(s.db, tx));
    if w.inHand && w.ids != [] && !Hand(s', role).changed {
      UnnamedSource(s.db, tx, w.ids[0]);
    }
  }

  lemma KeepsProducts(db: Tables, tx: Tx)
    requires Permitted(db, tx)
    ensures db.products.Keys <= Committed(db, tx).products.Keys
  {
  }

  lemma UndisturbedOn(a: Sys, b: Sys, c: Sys, role: Role)
    requires Undisturbed(a, b, role) && Undisturbed(b, c, role)
    ensures Undisturbed(a, c, role)
  {
    hide SameSource, TablesOk;
    var w := Hand(a, role);
    if w.inHand && w.ids != [] && !Hand(c, role).changed {
      SameSourceOn(a.db, b.db, c.db, w.ids[0]);
    }
  }

  lemma UndisturbedNot(s: Sys, role: Role)
    requires TablesOk(s.db)
    ensures Undisturbed(s, s, role)
  {
    hide SameSource, TablesOk;
    if Hand(s, role).ids != [] {
      SameSourceSelf(s.db, Hand(s, role).ids[0]);
    }
  }

  // ---- One product --------------------------------------------------------------------------

  function OpenOf(s: Sys, role: Role): Action
  {
    match role
    case Indexer(e) => Open(e)
    case Reindexer => if s.phase.Scanning? then ScanOpen else ReplayOpen
  }

  function WriteOf(s: Sys, role: Role, doc: Option<Document>): Action
  {
    match role
    case Indexer(e) => Rebuild(e, doc)
    case Reindexer => if s.phase.Scanning? then ScanOne(doc) else ReplayOne(doc)
  }

  function Added(built: Index, p: nat, doc: Option<Document>): Index
  {
    if doc.Some? then built[p := doc.value] else built
  }

  // The state once the first product of the hand is written.
  function Landed(s: Sys, role: Role, doc: Option<Document>): Sys
    requires Hand(s, role).ids != []
  {
    var w := Hand(s, role);
    match role
    case Indexer(e) => s.(alias := Put(s.alias, w.ids[0], doc), jobs := s.jobs[e := Written(w)])
    case Reindexer =>
      if s.phase.Scanning? then s.(phase := s.phase.(work := Written(w), built := Added(s.phase.built, w.ids[0], doc)))
      else s.(alias := Put(s.alias, w.ids[0], doc), phase := s.phase.(todo := Written(w)))
  }

  function Taken(s: Sys, role: Role): Sys
    requires Hand(s, role).ids != []
  {
    var w := Opened(Hand(s, role));
    match role
    case Indexer(e) => s.(jobs := s.jobs[e := w])
    case Reindexer => if s.phase.Scanning? then s.(phase := s.phase.(work := w)) else s.(phase := s.phase.(todo := w))
  }

  lemma OpenStep(s: Sys, role: Role)
    requires CanOpen(Hand(s, role))
    ensures Enabled(s, OpenOf(s, role)) && Apply(s, OpenOf(s, role)) == Taken(s, role)
    ensures Hand(Taken(s, role), role) == Opened(Hand(s, role))
  {
  }

  lemma WriteStep(s: Sys, role: Role, doc: Option<Document>)
    requires CanWrite(s.db, Hand(s, role), doc)
    ensures Enabled(s, WriteOf(s, role, doc)) && Apply(s, WriteOf(s, role, doc)) == Landed(s, role, doc)
    ensures Hand(Landed(s, role, doc), role) == Written(Hand(s, role))
  {
    hide Doc, Put;
  }

  // A document that may be written may still be written after steps of others: either nothing has
  // changed for it, or the change is marked.
  lemma WriteLater(s: Sys, s': Sys, role: Role, doc: Option<Document>)
    requires Undisturbed(s, s', role) && CanWrite(s.db, Hand(s, role), doc)
    ensures CanWrite(s'.db, Hand(s', role), doc)
  {
    hide SameSource, Doc, TablesOk;
    if !Hand(s', role).changed {
      SameSourceSameDoc(s.db, s'.db, Hand(s, role).ids[0]);
    }
  }

  // What was read of a product stays true until a change of it is marked.
  lemma StillSame(s: Sys, s': Sys, role: Role)
    requires Undisturbed(s, s', role) && Hand(s, role).inHand && Hand(s, role).ids != []
    ensures Hand(s', role).changed || SameSource(s.db, s'.db, Hand(s, role).ids[0])
  {
    hide SameSource, TablesOk;
  }

  lemma SameRow(db: Tables, db': Tables, p: nat)
    requires SameSource(db, db', p)
    ensures p in db.products <==> p in db'.products
    ensures p in db.products ==> db'.products[p] == db.products[p] && SameShop(db, db', db.products[p].seller)
  {
  }

  lemma DocOf(db: Tables, p: nat, row: Product, shop: string)
    requires p in db.products && db.products[p] == row && row.status == ProductStatus.Published
    requires Trading(db, row.seller) && db.sellers[row.seller].name == shop
    ensures Doc(db, p) == Some(Assembled(row, shop, VariantsOf(db, p), Ordered(row.categories), Names(db, Ordered(row.categories)), RatingsOf(db, p)))
  {
    hide VariantsOf, RatingsOf, Ordered, Names, Assembled;
  }

  lemma NoDoc(db: Tables, p: nat)
    requires p in db.products && (db.products[p].status != ProductStatus.Published || !Trading(db, db.products[p].seller))
    ensures Doc(db, p) == None
  {
  }

  // A worker has dealt with its first product; doc is what it wrote.
  predicate OneDone(s: Sys, s': Sys, role: Role, doc: Option<Document>)
    requires Hand(s, role).ids != []
  {
    && s.events <= s'.events && s.consumed <= s'.consumed && TablesOk(s'.db)
    && match role
       case Indexer(e) => e in s'.jobs && s'.jobs[e] == Written(Hand(s, role))
       case Reindexer =>
         && s'.complete == s.complete
         && if s.phase.Scanning? then
              s'.phase == s.phase.(work := Written(s.phase.work), built := Added(s.phase.built, s.phase.work.ids[0], doc))
            else s.phase.Replaying? && s'.phase == s.phase.(todo := Written(s.phase.todo))
  }

  lemma LandedIsDone(s: Sys, taking: Sys, ready: Sys, role: Role, doc: Option<Document>)
    requires Undisturbed(s, taking, role) && Hand(taking, role).ids != [] && Undisturbed(Taken(taking, role), ready, role)
    requires Hand(Taken(taking, role), role) == Opened(Hand(taking, role))
    ensures Hand(s, role).ids != [] && Hand(ready, role).ids == Hand(s, role).ids && s.events <= ready.events
    ensures OneDone(s, Landed(ready, role, doc), role, doc)
  {
    hide SameSource, TablesOk, Put, Taken, Landed, OneDone;
    TakenTables(taking, role);
    TakenPhase(taking, role);
    match role
    case Indexer(e) => LandedJob(s, ready, e, doc);
    case Reindexer => LandedPhase(s, ready, doc);
  }

  lemma TakenTables(s: Sys, role: Role)
    requires Hand(s, role).ids != []
    ensures var s' := Taken(s, role);
      && s'.db == s.db && s'.events == s.events && s'.consumed == s.consumed && s'.complete == s.complete
  {
  }

  lemma TakenPhase(s: Sys, role: Role)
    requires Hand(s, role).ids != []
    ensures Bare(Taken(s, role).phase) == Bare(s.phase) && Taken(s, role).jobs.Keys == s.jobs.Keys
  {
  }

  lemma LandedJob(s: Sys, ready: Sys, e: nat, doc: Option<Document>)
    requires Hand(ready, Indexer(e)).ids != [] && Hand(ready, Indexer(e)).ids == Hand(s, Indexer(e)).ids
    requires s.events <= ready.events && s.consumed <= ready.consumed && TablesOk(ready.db)
    ensures OneDone(s, Landed(ready, Indexer(e), doc), Indexer(e), doc)
  {
    hide TablesOk, Put;
  }

  lemma LandedPhase(s: Sys, ready: Sys, doc: Option<Document>)
    requires Hand(ready, Reindexer).ids != [] && Hand(ready, Reindexer).ids == Hand(s, Reindexer).ids && Bare(ready.phase) == Bare(s.phase)
    requires s.events <= ready.events && s.consumed <= ready.consumed && TablesOk(ready.db) && ready.complete == s.complete
    ensures OneDone(s, Landed(ready, Reindexer, doc), Reindexer, doc)
  {
    hide TablesOk, Put, Added;
  }

  // With nobody else about, opening leaves no trace.
  lemma LandedAnyway(s: Sys, role: Role, doc: Option<Document>)
    requires Hand(s, role).ids != [] && Hand(Taken(s, role), role) == Opened(Hand(s, role))
    ensures Landed(Taken(s, role), role, doc) == Landed(s, role, doc)
  {
    hide Put;
  }

  // ---- Steps of the reindex -----------------------------------------------------------------

  // Nothing that is still ahead is in the new index.
  ghost predicate Unbuilt(phase: Phase)
    requires phase.Scanning?
  {
    forall p: nat :: Ahead(phase, p) ==> p !in phase.built
  }

  function Listed(ids: seq<nat>): Work
  {
    Work(ids, false, false)
  }

  lemma StartStep(s: Sys)
    requires s.phase.Idle?
    ensures Enabled(s, StartScan) && Apply(s, StartScan) == s.(phase := Scanning(|s.events|, map[], 0, NOTHING, false))
    ensures Unbuilt(Apply(s, StartScan).phase)
  {
  }

  lemma PageStep(s: Sys, ids: seq<nat>)
    requires s.phase.Scanning? && s.phase.work.ids == [] && !s.phase.done && PageAfter(s.db, s.phase.cursor, ids)
    ensures ids != [] && Enabled(s, NextPage(ids))
    ensures Apply(s, NextPage(ids)) == s.(phase := s.phase.(work := Listed(ids), cursor := ids[|ids| - 1]))
    ensures Unbuilt(s.phase) ==> Unbuilt(Apply(s, NextPage(ids)).phase)
    ensures (forall i, j :: 0 <= i < j < |ids| ==> ids[i] < ids[j]) && forall i :: 0 <= i < |ids| ==> s.phase.cursor < ids[i]
  {
  }

  // The product scanned next is not in the new index, and the ones after it stay out.
  lemma ScanUnbuilt(phase: Phase, ids: seq<nat>, i: nat, doc: Option<Document>)
    requires phase.Scanning? && i < |ids| && phase.work == Listed(ids[i..]) && phase.cursor == ids[|ids| - 1] && Unbuilt(phase)
    requires forall i, j :: 0 <= i < j < |ids| ==> ids[i] < ids[j]
    ensures ids[i] !in phase.built
    ensures Unbuilt(phase.(work := Listed(ids[i + 1..]), built := Added(phase.built, ids[i], doc)))
    ensures Written(phase.work) == Listed(ids[i + 1..]) && phase.work.ids[0] == ids[i]
  {
    assert ids[i..][0] == ids[i] && ids[i..][1..] == ids[i + 1..];
    assert Ahead(phase, ids[i]);
    var after := phase.(work := Listed(ids[i + 1..]));
    forall p: nat | Ahead(after, p)
      ensures Ahead(phase, p) && p != ids[i]
    {
      if p in ids[i + 1..] {
        assert p in ids[i..][1..];
      }
    }
  }

  lemma EndStep(s: Sys)
    requires s.phase.Scanning? && s.phase.work.ids == [] && !s.phase.done && forall p :: p in s.db.products ==> p <= s.phase.cursor
    ensures Enabled(s, EndScan) && Apply(s, EndScan) == s.(phase := s.phase.(done := true))
    ensures Unbuilt(s.phase) ==> Unbuilt(Apply(s, EndScan).phase)
  {
  }

  lemma SwitchStep(s: Sys)
    requires s.phase.Scanning? && s.phase.done
    ensures Enabled(s, SwitchAlias)
    ensures Apply(s, SwitchAlias) == s.(alias := s.phase.built, phase := Swapped(s.phase.since), complete := false)
  {
  }

  // What the new index has wrong when it goes live was changed since the scan began.
  lemma SwitchedIsFresh(s: Sys)
    requires Inv(s) && s.phase.Scanning? && s.phase.done
    ensures var s' := s.(alias := s.phase.built, phase := Swapped(s.phase.since), complete := false);
      forall p: nat :: Right(s', p) || ChangedIn(s', s'.phase.since, |s'.events|, p)
  {
    hide Doc, Affects, AliasInv, HandsInv, JobsInv, TablesOk;
    var s' := s.(alias := s.phase.built, phase := Swapped(s.phase.since), complete := false);
    forall p: nat
      ensures Right(s', p) || ChangedIn(s', s'.phase.since, |s'.events|, p)
    {
      assert !Ahead(s.phase, p);
      if ChangedIn(s, s.phase.since, |s.events|, p) {
        SameChangedIn(s, s', s.phase.since, |s.events|, p);
      }
    }
  }

  lemma OutboxStep(s: Sys)
    requires s.phase.Swapped?
    ensures Enabled(s, ReadOutbox) && Apply(s, ReadOutbox) == s.(phase := Replaying(s.phase.since, |s.events|, NOTHING))
  {
  }

  lemma EventStep(s: Sys, ids: seq<nat>)
    requires s.phase.Replaying? && s.phase.todo.ids == [] && s.phase.next < s.phase.end <= |s.events|
    requires AffectedIds(s.db, s.events[s.phase.next], ids)
    ensures Enabled(s, ReplayEvent(ids))
    ensures Apply(s, ReplayEvent(ids)) == s.(phase := s.phase.(next := s.phase.next + 1, todo := Listed(ids)))
  {
    hide AffectedIds;
  }

  lemma EndReplayStep(s: Sys)
    requires s.phase.Replaying? && s.phase.todo.ids == [] && s.phase.next == s.phase.end
    ensures Enabled(s, EndReplay) && Apply(s, EndReplay) == s.(phase := Idle, complete := true)
  {
  }

  // ---- Steps of the search indexer ----------------------------------------------------------

  lemma TakeStep(s: Sys, event: nat, ids: seq<nat>)
    requires event < |s.events| && event !in s.jobs && AffectedIds(s.db, s.events[event], ids)
    ensures Enabled(s, Take(event, ids)) && Apply(s, Take(event, ids)) == s.(jobs := s.jobs[event := Listed(ids)])
  {
    hide AffectedIds;
  }

  lemma FinishStep(s: Sys, event: nat)
    requires event in s.jobs && s.jobs[event].ids == []
    ensures Enabled(s, Finish(event)) && Apply(s, Finish(event)) == s.(consumed := s.consumed + {event}, jobs := s.jobs - {event})
  {
  }

  lemma LoseStep(s: Sys, event: nat)
    requires event in s.jobs
    ensures Enabled(s, Lose(event)) && Apply(s, Lose(event)) == s.(jobs := s.jobs - {event})
  {
  }

  // How one attempt of the search indexer ends: committed, broken off after some products, or with
  // a commit that reported an error and may have been applied.
  datatype Attempt = Applied | Broken(after: nat) | Uncommitted(applied: bool)

  // The moments that pass while one product is dealt with.
  const PAUSES: nat := 7

  // ---- Pages --------------------------------------------------------------------------------

  predicate InOrder(order: seq<nat>, db: Tables)
  {
    && (forall i, j :: 0 <= i < j < |order| ==> order[i] < order[j])
    && (forall i :: 0 <= i < |order| ==> order[i] in db.products)
    && (forall p :: p in db.products ==> p in order)
  }

  // One page query: the first ids after the cursor.
  method ReadPage(order: seq<nat>, cursor: nat, ghost db: Tables) returns (ids: seq<nat>)
    requires InOrder(order, db)
    ensures if ids == [] then forall p :: p in db.products ==> p <= cursor else PageAfter(db, cursor, ids)
  {
    var from := 0;
    while from < |order| && order[from] <= cursor
      invariant 0 <= from <= |order| && forall i :: 0 <= i < from ==> order[i] <= cursor
    {
      from := from + 1;
    }
    var to := if |order| - from > PAGE then from + PAGE else |order|;
    ids := order[from..to];
    SliceIsPage(order, cursor, from, to, db);
  }

  lemma SliceIsPage(order: seq<nat>, cursor: nat, from: nat, to: nat, db: Tables)
    requires InOrder(order, db) && from <= to <= |order| && (to == |order| || to == from + PAGE) && to - from <= PAGE
    requires (forall i :: 0 <= i < from ==> order[i] <= cursor) && (from < |order| ==> cursor < order[from])
    ensures if from == to then forall p :: p in db.products ==> p <= cursor else PageAfter(db, cursor, order[from..to])
  {
    hide InOrder;
    forall p | p in db.products && cursor < p && (to == |order| || p < order[to - 1])
      ensures p in order[from..to]
    {
      InSlice(order, cursor, from, to, db, p);
    }
    if from < to {
      SliceSorted(order, cursor, from, to, db);
    }
  }

  lemma InSlice(order: seq<nat>, cursor: nat, from: nat, to: nat, db: Tables, p: nat)
    requires InOrder(order, db) && from <= to <= |order| && p in db.products && cursor < p
    requires to == |order| || (to > 0 && p < order[to - 1])
    requires forall i :: 0 <= i < from ==> order[i] <= cursor
    ensures p in order[from..to]
  {
    var i :| 0 <= i < |order| && order[i] == p;
    assert from <= i < to && order[from..to][i - from] == p;
  }

  lemma SliceSorted(order: seq<nat>, cursor: nat, from: nat, to: nat, db: Tables)
    requires InOrder(order, db) && from < to <= |order| && cursor < order[from]
    ensures var ids := order[from..to];
      && ids[|ids| - 1] == order[to - 1]
      && (forall i, j :: 0 <= i < j < |ids| ==> ids[i] < ids[j])
      && (forall i :: 0 <= i < |ids| ==> cursor < ids[i] && ids[i] in db.products)
  {
  }

  class Site {
    var db: Tables
    var events: seq<Change>
    var consumed: set<nat>
    var jobs: map<nat, Work>
    var alias: Index
    var phase: Phase
    var complete: bool

    // The tables and the index of a site that starts to record its changes.
    constructor (db: Tables, alias: Index)
      ensures this.db == db && this.alias == alias && View() == Sys(db, [], {}, map[], alias, Idle, false)
    {
      this.db, this.alias := db, alias;
      events, consumed, jobs, phase, complete := [], {}, map[], Idle, false;
    }

    function View(): Sys
      reads this
    {
      Sys(db, events, consumed, jobs, alias, phase, complete)
    }

    // One step of anybody else, if it is possible now.
    method Other(a: Action, role: Role, ghost trace: seq<Action>, ghost start: Sys) returns (ghost trace': seq<Action>)
      requires Steps(Next, start, trace, View()) && !Mine(a, role) && TablesOk(db)
      modifies this
      ensures Steps(Next, start, trace', View()) && Undisturbed(old(View()), View(), role)
    {
      hide Steps, Enabled, Apply, TablesOk, Undisturbed;
      trace' := trace;
      UndisturbedNot(View(), role);
      if Enabled(View(), a) {
        StepUndisturbed(View(), a, role);
        OneMore(Next, start, trace, View(), a, Apply(View(), a));
        trace' := trace + [a];
        var s := Apply(View(), a);
        db, events, consumed, jobs := s.db, s.events, s.consumed, s.jobs;
        alias, phase, complete := s.alias, s.phase, s.complete;
        assert View() == s;
      }
    }

    // Everything others do at one moment.
    method Others(actions: seq<Action>, role: Role, ghost trace: seq<Action>, ghost start: Sys) returns (ghost trace': seq<Action>)
      requires Steps(Next, start, trace, View()) && TablesOk(db)
      modifies this
      ensures Steps(Next, start, trace', View()) && Undisturbed(old(View()), View(), role) && TablesOk(db)
      ensures old(events) <= events && old(consumed) <= consumed
      ensures !old(Hand(View(), role)).inHand && role.Reindexer? ==> phase == old(phase) && complete == old(complete)
      ensures !old(Hand(View(), role)).inHand && role.Indexer? ==> (role.event in jobs <==> role.event in old(jobs))
      ensures !old(Hand(View(), role)).inHand && role.Indexer? && role.event in jobs ==> jobs[role.event] == old(jobs)[role.event]
      ensures actions == [] ==> View() == old(View())
    {
      hide Steps, TablesOk, SameHand;
      trace' := trace;
      UndisturbedNot(View(), role);
      for i := 0 to |actions|
        invariant Steps(Next, start, trace', View()) && Undisturbed(old(View()), View(), role)
        invariant i == 0 ==> View() == old(View())
      {
        if !Mine(actions[i], role) {
          ghost var before := View();
          trace' := Other(actions[i], role, trace', start);
          UndisturbedOn(old(View()), before, View(), role);
        }
      }
      if !old(Hand(View(), role)).inHand {
        FreeHandStays(old(View()), View(), role);
      }
    }

    // ---- One product ------------------------------------------------------------------------

    // A moment between two queries for the product in hand.
    method Pause(actions: seq<Action>, role: Role, ghost first: Sys, ghost trace: seq<Action>, ghost start: Sys) returns (ghost trace': seq<Action>)
      requires Steps(Next, start, trace, View()) && TablesOk(db) && Undisturbed(first, View(), role)
      requires Hand(first, role).inHand && Hand(first, role).ids != []
      modifies this
      ensures Steps(Next, start, trace', View()) && TablesOk(db) && Undisturbed(first, View(), role)
      ensures old(Hand(View(), role)).changed ==> Hand(View(), role).changed
      ensures Hand(View(), role).changed || SameSource(first.db, db, Hand(first, role).ids[0])
      ensures actions == [] ==> View() == old(View())
    {
      hide Steps, TablesOk, SameSource;
      trace' := Others(actions, role, trace, start);
      UndisturbedOn(first, old(View()), View(), role);
      StillSame(first, View(), role);
    }

    // Reads the rows of the product in hand, one query after the other, and builds its document.
    method SearchDocument(role: Role, others: Meanwhile<Action>, t: nat, ghost trace: seq<Action>, ghost start: Sys)
      returns (doc: Option<Document>, ghost trace': seq<Action>)
      requires Hand(View(), role).inHand && Hand(View(), role).ids != [] && TablesOk(db) && Steps(Next, start, trace, View())
      modifies this
      ensures Steps(Next, start, trace', View()) && TablesOk(db) && Undisturbed(old(View()), View(), role)
      ensures Hand(View(), role).changed || doc == Doc(db, old(Hand(View(), role)).ids[0])
      ensures Quiet(others) || t >= |others| ==> View() == old(View())
    {
      hide Steps, TablesOk, SameSource, Undisturbed, Hand, Doc, VariantsOf, RatingsOf, Ordered, Names, Assembled;
      ghost var first := View();
      var p := Hand(View(), role).ids[0];
      UndisturbedNot(View(), role);
      trace' := trace;
      if p !in db.products {
        NotThere(db, p);
        return None, trace';
      }
      var row := db.products[p];
      trace' := Pause(Moment(others, t), role, first, trace', start);
      ghost var second := db;
      var open := row.seller in db.sellers && db.sellers[row.seller].status == Approved;
      SellerRead(first.db, db, p, Hand(View(), role).changed);
      if !open {
        return None, trace';
      }
      var shop := db.sellers[row.seller].name;
      if row.status != ProductStatus.Published {
        return None, trace';
      }
      doc, trace' := SearchRows(role, p, row, shop, others, t + 1, first, trace', start);
    }

    // The rest of the queries, for a product that is to be found.
    method SearchRows(role: Role, p: nat, row: Product, shop: string, others: Meanwhile<Action>, t: nat,
                      ghost first: Sys, ghost trace: seq<Action>, ghost start: Sys)
      returns (doc: Option<Document>, ghost trace': seq<Action>)
      requires Hand(first, role).inHand && Hand(first, role).ids != [] && Hand(first, role).ids[0] == p && Undisturbed(first, View(), role)
      requires Hand(View(), role).changed || SameSource(first.db, db, p)
      requires p in first.db.products && first.db.products[p] == row && row.status == ProductStatus.Published
      requires Hand(View(), role).changed || (Trading(first.db, row.seller) && first.db.sellers[row.seller].name == shop)
      requires TablesOk(db) && Steps(Next, start, trace, View())
      modifies this
      ensures Steps(Next, start, trace', View()) && TablesOk(db) && Undisturbed(first, View(), role)
      ensures Hand(View(), role).changed || doc == Doc(db, p)
      ensures Quiet(others) || t >= |others| ==> View() == old(View())
    {
      hide Steps, TablesOk, SameSource, Undisturbed, Hand, Doc, VariantsOf, RatingsOf, Ordered, Names, Assembled;
      trace' := Pause(Moment(others, t), role, first, trace, start);
      var variants := VariantsOf(db, p);
      RowsRead(first.db, db, p, Hand(View(), role).changed);
      trace' := Pause(Moment(others, t + 1), role, first, trace', start);
      var ids := CategoryIds(p);
      RowsRead(first.db, db, p, Hand(View(), role).changed);
      trace' := Pause(Moment(others, t + 2), role, first, trace', start);
      var names := CategoryNames(p);
      RowsRead(first.db, db, p, Hand(View(), role).changed);
      trace' := Pause(Moment(others, t + 3), role, first, trace', start);
      var ratings := RatingsOf(db, p);
      RowsRead(first.db, db, p, Hand(View(), role).changed);
      var whole := Assemble(row, shop, variants, ids, names, ratings);
      doc := Some(whole);
      if !Hand(View(), role).changed {
        DocOf(first.db, p, row, shop);
        SameSourceSameDoc(first.db, db, p);
      }
    }

    method CategoryIds(p: nat) returns (ids: seq<nat>)
      ensures p in db.products ==> ids == Ordered(db.products[p].categories)
    {
      ids := if p in db.products then Ordered(db.products[p].categories) else [];
    }

    method CategoryNames(p: nat) returns (names: seq<string>)
      ensures p in db.products ==> names == Names(db, Ordered(db.products[p].categories))
    {
      names := if p in db.products then Names(db, Ordered(db.products[p].categories)) else [];
    }

    method TakeUp(role: Role)
      requires Hand(View(), role).ids != []
      modifies `jobs, `phase
      ensures View() == old(Taken(View(), role))
    {
      var w := Hand(View(), role).(inHand := true, changed := false);
      match role {
        case Indexer(e) => jobs := jobs[e := w];
        case Reindexer =>
          if phase.Scanning? {
            phase := phase.(work := w);
          } else {
            phase := phase.(todo := w);
          }
      }
    }

    // Writes the document of the product in hand, or removes the entry of one that has none.
    method IndexOrDelete(role: Role, doc: Option<Document>)
      requires Hand(View(), role).ids != []
      modifies `jobs, `phase, `alias
      ensures View() == old(Landed(View(), role, doc))
    {
      var w := Hand(View(), role);
      var p := w.ids[0];
      if role.Reindexer? && phase.Scanning? {
        if doc.Some? {
          phase := phase.(built := phase.built[p := doc.value]);
        }
        phase := phase.(work := Written(w));
        return;
      }
      if doc == None {
        alias := alias - {p};
      } else {
        alias := alias[p := doc.value];
      }
      match role {
        case Indexer(e) => jobs := jobs[e := Written(w)];
        case Reindexer => phase := phase.(todo := Written(w));
      }
    }

    // Takes the next product in hand, reads it and writes its document.
    method IndexProduct(role: Role, others: Meanwhile<Action>, t: nat, ghost trace: seq<Action>, ghost start: Sys)
      returns (doc: Option<Document>, ghost trace': seq<Action>)
      requires CanOpen(Hand(View(), role)) && TablesOk(db) && Steps(Next, start, trace, View())
      modifies this
      ensures Steps(Next, start, trace', View()) && TablesOk(db) && old(events) <= events
      ensures OneDone(old(View()), View(), role, doc)
      ensures t >= |others| ==> db == old(db)
      ensures Quiet(others) ==> doc == old(Doc(db, Hand(View(), role).ids[0])) && View() == old(Landed(View(), role, doc))
    {
      hide Steps, TablesOk, SameSource, Enabled, Apply, Doc, Landed, Taken, Undisturbed, OneDone;
      trace' := Others(Moment(others, t), role, trace, start);
      StillOpen(old(View()), View(), role);
      ghost var taking := View();
      OpenStep(View(), role);
      OneMore(Next, start, trace', View(), OpenOf(View(), role), Apply(View(), OpenOf(View(), role)));
      trace' := trace' + [OpenOf(View(), role)];
      TakenTables(View(), role);
      TakeUp(role);
      doc, trace' := SearchDocument(role, others, t + 1, trace', start);
      ghost var read := View();
      StillWriting(Taken(taking, role), read, role, doc);
      trace' := Others(Moment(others, t + 6), role, trace', start);
      WriteLater(read, View(), role, doc);
      UndisturbedOn(Taken(taking, role), read, View(), role);
      LandedIsDone(old(View()), taking, View(), role, doc);
      WriteStep(View(), role, doc);
      OneMore(Next, start, trace', View(), WriteOf(View(), role, doc), Apply(View(), WriteOf(View(), role, doc)));
      trace' := trace' + [WriteOf(View(), role, doc)];
      LandedTables(View(), role, doc);
      LandedAnyway(taking, role, doc);
      IndexOrDelete(role, doc);
    }

    // ---- Reindex ----------------------------------------------------------------------------

    // The query for the products an event concerns.
    method Affected(e: Change) returns (ids: seq<nat>)
      ensures AffectedIds(db, e, ids)
    {
      ids := Ordered(AffectedSet(db, e));
    }

    // Scans every product into a new index, page by page, and switches the alias to it.
    method Scan(others: Meanwhile<Action>) returns (count: nat, t: nat, ghost trace: seq<Action>)
      requires phase.Idle? && TablesOk(db)
      modifies this
      ensures Steps(Next, old(View()), trace, View()) && TablesOk(db)
      ensures phase == Swapped(|old(events)|) && old(events) <= events && !complete && count == |alias|
      ensures old(Inv(View())) ==> Inv(View()) && forall p: nat :: Right(View(), p) || ChangedIn(View(), phase.since, |events|, p)
      ensures Quiet(others) ==> View() == old(View()).(alias := alias, phase := phase, complete := false)
      ensures Quiet(others) && NilUnused(old(db)) ==> forall p: nat :: Look(alias, p) == Doc(db, p)
    {
      hide Steps, Doc, PageAfter, Enabled, Apply, Inv, Unbuilt, ScannedTo, Ordered, Right, ChangedIn, TablesOk;
      NoSteps(Next, View());
      StartStep(View());
      OneMore(Next, View(), [], View(), StartScan, Apply(View(), StartScan));
      trace := [] + [StartScan];
      phase := Scanning(|events|, map[], 0, NOTHING, false);
      NothingScanned(db);
      var cursor: nat, more := 0, true;
      count, t := 0, 0;
      while more
        invariant Steps(Next, old(View()), trace, View()) && old(events) <= events && TablesOk(db)
        invariant phase.Scanning? && phase.since == |old(events)| && phase.work == NOTHING && phase.cursor == cursor && phase.done == !more
        invariant count == |phase.built| && Unbuilt(phase)
        invariant Quiet(others) ==> View() == old(View()).(phase := phase)
        invariant Quiet(others) && NilUnused(old(db)) ==> ScannedTo(db, phase.built, cursor)
        invariant Quiet(others) && !more ==> forall p :: p in db.products ==> p <= cursor
        decreases MomentsLeft(others, t), Highest(Ordered(db.products.Keys)) - cursor, more
      {
        more, cursor, count, t, trace := ScanBatch(cursor, count, others, t, trace, old(View()));
      }
      trace := GoLive(Moment(others, t), trace, old(View()));
      t := t + 1;
      if Quiet(others) && NilUnused(old(db)) {
        AllInIndex(db, alias, cursor);
      }
    }

    // The alias goes over to the new index.
    method GoLive(others: seq<Action>, ghost trace: seq<Action>, ghost start: Sys) returns (ghost trace': seq<Action>)
      requires phase.Scanning? && phase.done && phase.work == NOTHING && Steps(Next, start, trace, View()) && TablesOk(db)
      modifies this
      ensures Steps(Next, start, trace', View()) && old(events) <= events && TablesOk(db)
      ensures alias == old(phase).built && phase == Swapped(old(phase).since) && !complete
      ensures Inv(start) ==> Inv(View()) && forall p: nat :: Right(View(), p) || ChangedIn(View(), phase.since, |events|, p)
      ensures others == [] ==> View() == old(View()).(alias := alias, phase := phase, complete := false)
    {
      hide Steps, Enabled, Apply, Inv, Right, ChangedIn, TablesOk, Undisturbed;
      trace' := Others(others, Reindexer, trace, start);
      if Inv(start) {
        TraceKeepsInv(start, trace', View());
        SwitchedIsFresh(View());
      }
      SwitchStep(View());
      OneMore(Next, start, trace', View(), SwitchAlias, Apply(View(), SwitchAlias));
      trace' := trace' + [SwitchAlias];
      alias, phase, complete := phase.built, Swapped(phase.since), false;
      if Inv(start) {
        TraceKeepsInv(start, trace', View());
      }
    }

    // One turn of the scan: the next page and its products, or the end.
    method ScanBatch(cursor: nat, before: nat, others: Meanwhile<Action>, t: nat, ghost trace: seq<Action>, ghost start: Sys)
      returns (more: bool, cursor': nat, count: nat, t': nat, ghost trace': seq<Action>)
      requires phase.Scanning? && phase.work == NOTHING && phase.cursor == cursor && !phase.done && before == |phase.built| && Unbuilt(phase)
      requires Steps(Next, start, trace, View()) && TablesOk(db)
      modifies this
      ensures Steps(Next, start, trace', View()) && old(events) <= events && TablesOk(db) && t < t'
      ensures phase.Scanning? && phase == old(phase).(built := phase.built, cursor := cursor', done := !more) && count == |phase.built| && Unbuilt(phase)
      ensures Quiet(others) ==> View() == old(View()).(phase := phase)
      ensures Quiet(others) && ScannedTo(old(db), old(phase.built), cursor) ==> ScannedTo(db, phase.built, cursor')
      ensures Quiet(others) && !more ==> forall p :: p in db.products ==> p <= cursor'
      ensures t >= |others| ==> db == old(db)
      ensures t >= |others| && more ==> cursor < cursor' <= Highest(Ordered(db.products.Keys))
      ensures !more ==> cursor' == cursor
    {
      hide Steps, Doc, PageAfter, Enabled, Apply, Unbuilt, ScannedTo, Ordered, TablesOk, Undisturbed;
      trace' := Others(Moment(others, t), Reindexer, trace, start);
      more, cursor', count, t' := true, cursor, before, t + 1;
      var ids := ReadPage(Ordered(db.products.Keys), cursor, db);
      if ids == [] {
        EndStep(View());
        OneMore(Next, start, trace', View(), EndScan, Apply(View(), EndScan));
        trace' := trace' + [EndScan];
        phase := phase.(done := true);
        return false, cursor, before, t + 1, trace';
      }
      PageBelow(Ordered(db.products.Keys), db, cursor, ids);
      PageStep(View(), ids);
      OneMore(Next, start, trace', View(), NextPage(ids), Apply(View(), NextPage(ids)));
      trace' := trace' + [NextPage(ids)];
      phase := phase.(work := Listed(ids), cursor := ids[|ids| - 1]);
      count, trace' := ScanPage(ids, count, cursor, others, t + 1, trace', start);
      cursor', t' := ids[|ids| - 1], t + 1 + PAUSES * |ids|;
    }

    // The products of one page, each looked up when its turn comes.
    method ScanPage(ids: seq<nat>, before: nat, ghost cursor: nat, others: Meanwhile<Action>, t: nat, ghost trace: seq<Action>, ghost start: Sys)
      returns (count: nat, ghost trace': seq<Action>)
      requires phase.Scanning? && !phase.done && phase.work == Listed(ids) && Unbuilt(phase) && before == |phase.built|
      requires ids != [] && phase.cursor == ids[|ids| - 1] && (forall i, j :: 0 <= i < j < |ids| ==> ids[i] < ids[j])
      requires (forall i :: 0 <= i < |ids| ==> cursor < ids[i]) && Steps(Next, start, trace, View()) && TablesOk(db)
      modifies this
      ensures Steps(Next, start, trace', View()) && old(events) <= events && TablesOk(db) && (t >= |others| ==> db == old(db))
      ensures phase.Scanning? && phase == old(phase).(built := phase.built, work := NOTHING) && count == |phase.built| && Unbuilt(phase)
      ensures Quiet(others) ==> View() == old(View()).(phase := phase)
      ensures Quiet(others) && PageAfter(db, cursor, ids) && ScannedTo(old(db), old(phase.built), cursor) ==>
                ScannedTo(db, phase.built, ids[|ids| - 1])
    {
      hide Steps, Doc, PageAfter, Enabled, Apply, ScannedTo, Unbuilt, PartScanned, TablesOk, Added, Undisturbed;
      count, trace' := before, trace;
      ghost var calm := Quiet(others) && ScannedTo(db, phase.built, cursor);
      if calm {
        NoneScanned(db, phase.built, ids, cursor);
      }
      for i := 0 to |ids|
        invariant Steps(Next, start, trace', View()) && old(events) <= events && TablesOk(db)
        invariant t >= |others| ==> db == old(db)
        invariant phase.Scanning? && phase == old(phase).(built := phase.built, work := Listed(ids[i..])) && count == |phase.built| && Unbuilt(phase)
        invariant Quiet(others) ==> View() == old(View()).(phase := phase)
        invariant calm ==> PartScanned(db, phase.built, cursor, ids, i)
      {
        ghost var was := phase;
        ScanUnbuilt(phase, ids, i, None);
        var doc;
        doc, trace' := IndexProduct(Reindexer, others, t + PAUSES * i, trace', start);
        ScanUnbuilt(was, ids, i, doc);
        AddedSize(was.built, ids[i], doc);
        if calm {
          OneScanned(db, was.built, cursor, ids, i);
          AddedIs(was.built, ids[i], doc);
        }
        if doc.Some? {
          count := count + 1;
        }
      }
      assert ids[|ids|..] == [];
      if calm && PageAfter(db, cursor, ids) {
        AllScanned(db, phase.built, cursor, ids);
      }
    }

    // Replays what the outbox recorded since the scan began, until the read of it.
    method Replay(others: Meanwhile<Action>, t: nat) returns (ghost trace: seq<Action>)
      requires phase.Swapped? && phase.since <= |events| && TablesOk(db)
      modifies this
      ensures Steps(Next, old(View()), trace, View()) && phase == Idle && complete && old(events) <= events
      ensures old(Inv(View())) ==> Inv(View())
      ensures old(Sound(View())) && Steps(OneHandNext, old(View()), trace, View()) ==>
                Sound(View()) && forall p: nat :: Right(View(), p) || Owed(View(), p)
      ensures Quiet(others) ==> View() == old(View()).(alias := alias, phase := Idle, complete := true)
      ensures Quiet(others) ==> forall p: nat :: ChangedIn(old(View()), old(phase.since), |events|, p) ==> Look(alias, p) == Doc(db, p)
      ensures Quiet(others) ==> forall p: nat :: Look(alias, p) == Look(old(alias), p) || Look(alias, p) == Doc(db, p)
    {
      hide Steps, Doc, Affects, AffectedIds, Put, Enabled, Apply, Inv, Sound, Look, Repaired, Mixed, Right, Owed, ChangedIn, TablesOk, Undisturbed;
      NothingRepaired(db, events, alias, phase.since);
      NoSteps(Next, View());
      trace := Others(Moment(others, t), Reindexer, [], View());
      OutboxStep(View());
      OneMore(Next, old(View()), trace, View(), ReadOutbox, Apply(View(), ReadOutbox));
      trace := trace + [ReadOutbox];
      var since, end, now: nat := phase.since, |events|, t + 1;
      phase := Replaying(since, end, NOTHING);
      for k := since to end
        invariant Steps(Next, old(View()), trace, View()) && old(events) <= events && end <= |events| && TablesOk(db)
        invariant phase == Replaying(k, end, NOTHING)
        invariant Quiet(others) ==> View() == old(View()).(alias := alias, phase := phase)
        invariant Quiet(others) ==> Repaired(db, events, alias, since, k) && Mixed(db, old(alias), alias)
      {
        now, trace := ReplayRow(others, now, old(alias), since, trace, old(View()));
      }
      trace := EndOfReplay(Moment(others, now), trace, old(View()));
      TraceKeeps(old(View()), trace, View());
      if Quiet(others) {
        AllRepaired(old(View()), alias, since);
        MixedMeans(db, old(alias), alias);
      }
    }

    method EndOfReplay(others: seq<Action>, ghost trace: seq<Action>, ghost start: Sys) returns (ghost trace': seq<Action>)
      requires phase.Replaying? && phase.todo == NOTHING && phase.next == phase.end && Steps(Next, start, trace, View()) && TablesOk(db)
      modifies this
      ensures Steps(Next, start, trace', View()) && old(events) <= events && phase == Idle && complete
      ensures others == [] ==> View() == old(View()).(phase := Idle, complete := true)
    {
      hide Steps, Enabled, Apply, TablesOk, Undisturbed;
      trace' := Others(others, Reindexer, trace, start);
      EndReplayStep(View());
      OneMore(Next, start, trace', View(), EndReplay, Apply(View(), EndReplay));
      trace' := trace' + [EndReplay];
      phase, complete := Idle, true;
    }

    // One recorded event: the products it concerns now, one after the other.
    method ReplayRow(others: Meanwhile<Action>, t: nat, ghost first: Index, ghost since: nat, ghost trace: seq<Action>, ghost start: Sys)
      returns (t': nat, ghost trace': seq<Action>)
      requires phase.Replaying? && phase.todo == NOTHING && phase.next < phase.end <= |events| && Steps(Next, start, trace, View()) && TablesOk(db)
      modifies this
      ensures Steps(Next, start, trace', View()) && old(events) <= events && TablesOk(db) && phase == old(phase).(next := old(phase).next + 1)
      ensures Quiet(others) ==> View() == old(View()).(alias := alias, phase := phase)
      ensures Quiet(others) && since <= old(phase).next && Repaired(db, old(events), old(alias), since, old(phase).next) ==>
                Repaired(db, events, alias, since, phase.next)
      ensures Quiet(others) && Mixed(db, first, old(alias)) ==> Mixed(db, first, alias)
    {
      hide Steps, Doc, Affects, AffectedIds, Put, Enabled, Apply, Look, Repaired, Mixed, Rewritten, TablesOk, Undisturbed;
      trace' := Others(Moment(others, t), Reindexer, trace, start);
      var k := phase.next;
      var ids := Affected(events[k]);
      EventStep(View(), ids);
      OneMore(Next, start, trace', View(), ReplayEvent(ids), Apply(View(), ReplayEvent(ids)));
      trace' := trace' + [ReplayEvent(ids)];
      phase := Replaying(k + 1, phase.end, Work(ids, false, false));
      trace' := ReplayIds(ids, others, t + 1, trace', start);
      if Quiet(others) {
        if since <= k && Repaired(db, events, old(alias), since, k) {
          RepairedOn(db, events, old(alias), alias, since, k, ids);
        }
        if Mixed(db, first, old(alias)) {
          MixedOn(db, first, old(alias), alias, ids);
        }
      }
      t' := t + 1 + PAUSES * |ids|;
    }

    method ReplayIds(ids: seq<nat>, others: Meanwhile<Action>, t: nat, ghost trace: seq<Action>, ghost start: Sys)
      returns (ghost trace': seq<Action>)
      requires phase.Replaying? && phase.todo == Listed(ids) && Steps(Next, start, trace, View()) && TablesOk(db)
      modifies this
      ensures Steps(Next, start, trace', View()) && old(events) <= events && TablesOk(db) && phase == old(phase).(todo := NOTHING)
      ensures Quiet(others) ==> View() == old(View()).(alias := alias, phase := phase) && Rewritten(db, old(alias), alias, ids)
    {
      hide Steps, Doc, Put, Enabled, Apply, Look, TablesOk, Undisturbed, Rewritten;
      trace' := trace;
      NothingRewritten(db, alias);
      for i := 0 to |ids|
        invariant Steps(Next, start, trace', View()) && old(events) <= events && TablesOk(db)
        invariant phase.Replaying? && phase == old(phase).(todo := Listed(ids[i..]))
        invariant Quiet(others) ==> View() == old(View()).(alias := alias, phase := phase) && Rewritten(db, old(alias), alias, ids[..i])
      {
        ghost var was := View();
        assert ids[i..][0] == ids[i] && ids[i..][1..] == ids[i + 1..];
        var doc;
        doc, trace' := IndexProduct(Reindexer, others, t + PAUSES * i, trace', start);
        if Quiet(others) {
          OneRewritten(db, old(alias), was.alias, ids, i, doc);
        }
      }
      assert ids[..|ids|] == ids && ids[|ids|..] == [];
    }

    // The whole command. If no product has been in two hands, what the alias then has wrong is owed
    // by an event nobody has consumed.
    method Reindex(others: Meanwhile<Action>) returns (count: nat, ghost trace: seq<Action>)
      requires phase.Idle? && TablesOk(db)
      modifies this
      ensures Steps(Next, old(View()), trace, View()) && phase == Idle && complete
      ensures old(Inv(View())) ==> Inv(View())
      ensures old(Sound(View())) && Steps(OneHandNext, old(View()), trace, View()) ==>
                Sound(View()) && forall p: nat :: Right(View(), p) || Owed(View(), p)
      ensures Quiet(others) && NilUnused(old(db)) ==> forall p: nat :: Look(alias, p) == Doc(db, p)
    {
      hide Steps, Doc, Inv, Sound, Look, Right, Owed, ChangedIn, NilUnused, TablesOk;
      var t;
      count, t, trace := Scan(others);
      ghost var middle := View();
      ghost var more := Replay(others, t);
      StepsOn(Next, old(View()), trace, middle, more, View());
      trace := trace + more;
      TraceKeeps(old(View()), trace, View());
    }

    // ---- Search indexer ---------------------------------------------------------------------

    // Handles one event: rebuilds every product it concerns and then commits its offset, again and
    // again until both succeed. Running out of tries is the shutdown of the process.
    method Process(event: nat, tries: seq<Attempt>, others: Meanwhile<Action>) returns (ok: bool, waits: seq<nat>, ghost trace: seq<Action>)
      requires event < |events| && event !in jobs && TablesOk(db)
      modifies this
      ensures Steps(Next, old(View()), trace, View()) && old(events) <= events && event !in jobs
      ensures old(Inv(View())) ==> Inv(View())
      ensures old(Sound(View())) && Steps(OneHandNext, old(View()), trace, View()) ==> Sound(View())
      ensures ok <==> exists i :: 0 <= i < |tries| && tries[i].Applied?
      ensures ok ==> event in consumed
      ensures ok && Quiet(others) ==> View() == old(View()).(alias := alias, consumed := old(consumed) + {event})
      ensures ok && Quiet(others) ==> forall p: nat :: Look(alias, p) == if Affects(db, events[event], p) then Doc(db, p) else Look(old(alias), p)
      ensures |waits| <= |tries| && forall i :: 0 <= i < |waits| ==> waits[i] == Backoff(i)
    {
      hide Steps, Doc, Affects, Inv, Sound, Look, Backoff, NextBackoff, Touched, Finished, TablesOk;
      BackoffStep();
      NoSteps(Next, View());
      NotTouched(db, events[event], alias);
      trace, ok, waits := [], false, [];
      var backoff, t: nat := MIN_BACKOFF, 0;
      for i := 0 to |tries|
        invariant Steps(Next, old(View()), trace, View()) && old(events) <= events && event !in jobs && TablesOk(db)
        invariant Quiet(others) ==> View() == old(View()).(alias := alias, consumed := consumed) && old(consumed) <= consumed <= old(consumed) + {event}
        invariant Quiet(others) ==> Touched(db, events[event], old(alias), alias)
        invariant !ok && forall j :: 0 <= j < i ==> !tries[j].Applied?
        invariant |waits| == i && backoff == Backoff(i) && forall j :: 0 <= j < i ==> waits[j] == Backoff(j)
      {
        ghost var before := alias;
        t, trace := Try(event, tries[i], others, t, trace, old(View()));
        if Quiet(others) {
          TouchedOn(db, events[event], old(alias), before, alias);
        }
        if tries[i].Applied? {
          ok := true;
          break;
        }
        waits := waits + [backoff];
        backoff := NextBackoff(backoff, MAX_BACKOFF);
      }
      TraceKeeps(old(View()), trace, View());
      if ok && Quiet(others) {
        TouchedAll(db, events[event], old(alias), alias);
      }
    }

    method Try(event: nat, how: Attempt, others: Meanwhile<Action>, t: nat, ghost trace: seq<Action>, ghost start: Sys)
      returns (t': nat, ghost trace': seq<Action>)
      requires event < |events| && event !in jobs && Steps(Next, start, trace, View()) && TablesOk(db)
      modifies this
      ensures Steps(Next, start, trace', View()) && old(events) <= events && event !in jobs && TablesOk(db)
      ensures how.Applied? ==> event in consumed
      ensures Quiet(others) ==> View() == old(View()).(alias := alias, consumed := consumed) && old(consumed) <= consumed <= old(consumed) + {event}
      ensures Quiet(others) ==> Touched(db, events[event], old(alias), alias) && (how.Applied? ==> Finished(db, events[event], alias))
    {
      hide Steps, Doc, Affects, AffectedIds, Put, Enabled, Apply, Look, Touched, Finished, Rewritten, TablesOk, Undisturbed;
      var n, ids;
      n, ids, t', trace' := Taking(event, how, others, t, trace, start);
      trace' := RebuildIds(event, ids, n, others, t', trace', start);
      if Quiet(others) {
        RewrittenTouches(db, events[event], old(alias), alias, ids, n);
      }
      t' := t' + PAUSES * n;
      trace' := End(event, how, Moment(others, t'), trace', start);
      t' := t' + 1;
    }

    // The query for the products of the event; n is how many of them this attempt gets to.
    method Taking(event: nat, how: Attempt, others: Meanwhile<Action>, t: nat, ghost trace: seq<Action>, ghost start: Sys)
      returns (n: nat, ids: seq<nat>, t': nat, ghost trace': seq<Action>)
      requires event < |events| && event !in jobs && Steps(Next, start, trace, View()) && TablesOk(db)
      modifies this
      ensures Steps(Next, start, trace', View()) && old(events) <= events && TablesOk(db)
      ensures event in jobs && jobs[event] == Listed(ids) && n <= |ids| && (!how.Broken? ==> n == |ids|)
      ensures AffectedIds(db, events[event], ids)
      ensures Quiet(others) ==> View() == old(View()).(jobs := old(jobs)[event := Listed(ids)])
    {
      hide Steps, AffectedIds, Enabled, Apply, TablesOk, Undisturbed;
      trace' := Others(Moment(others, t), Indexer(event), trace, start);
      ids := Affected(events[event]);
      TakeStep(View(), event, ids);
      OneMore(Next, start, trace', View(), Take(event, ids), Apply(View(), Take(event, ids)));
      trace' := trace' + [Take(event, ids)];
      jobs := jobs[event := Work(ids, false, false)];
      n := if how.Broken? && how.after < |ids| then how.after else |ids|;
      t' := t + 1;
    }

    // The end of an attempt: the offset is committed, or the work is to be done again.
    method End(event: nat, how: Attempt, others: seq<Action>, ghost trace: seq<Action>, ghost start: Sys) returns (ghost trace': seq<Action>)
      requires event in jobs && !jobs[event].inHand && (how.Broken? || jobs[event].ids == []) && Steps(Next, start, trace, View()) && TablesOk(db)
      modifies this
      ensures Steps(Next, start, trace', View()) && old(events) <= events && event !in jobs && TablesOk(db)
      ensures how.Applied? ==> event in consumed
      ensures others == [] ==> View() == old(View()).(jobs := old(jobs) - {event}, consumed := consumed)
      ensures others == [] ==> consumed == if how.Applied? || how == Uncommitted(true) then old(consumed) + {event} else old(consumed)
    {
      hide Steps, Enabled, Apply, TablesOk, Undisturbed;
      trace' := Others(others, Indexer(event), trace, start);
      if how.Applied? || how == Uncommitted(true) {
        FinishStep(View(), event);
        OneMore(Next, start, trace', View(), Finish(event), Apply(View(), Finish(event)));
        trace' := trace' + [Finish(event)];
        consumed := consumed + {event};
      } else {
        LoseStep(View(), event);
        OneMore(Next, start, trace', View(), Lose(event), Apply(View(), Lose(event)));
        trace' := trace' + [Lose(event)];
      }
      jobs := jobs - {event};
    }

    // The first n of the products of an event.
    method RebuildIds(event: nat, ids: seq<nat>, n: nat, others: Meanwhile<Action>, t: nat, ghost trace: seq<Action>, ghost start: Sys)
      returns (ghost trace': seq<Action>)
      requires event in jobs && jobs[event] == Listed(ids) && n <= |ids| && Steps(Next, start, trace, View()) && TablesOk(db)
      modifies this
      ensures Steps(Next, start, trace', View()) && old(events) <= events && TablesOk(db)
      ensures event in jobs && jobs[event] == Listed(ids[n..])
      ensures Quiet(others) ==> View() == old(View()).(alias := alias, jobs := old(jobs)[event := Listed(ids[n..])]) && Rewritten(db, old(alias), alias, ids[..n])
    {
      hide Steps, Doc, Put, Enabled, Apply, Look, TablesOk, Undisturbed, Rewritten;
      trace' := trace;
      NothingRewritten(db, alias);
      assert ids[0..] == ids && old(jobs)[event := Listed(ids)] == old(jobs);
      for k := 0 to n
        invariant Steps(Next, start, trace', View()) && old(events) <= events && TablesOk(db)
        invariant event in jobs && jobs[event] == Listed(ids[k..])
        invariant Quiet(others) ==> View() == old(View()).(alias := alias, jobs := old(jobs)[event := Listed(ids[k..])]) && Rewritten(db, old(alias), alias, ids[..k])
      {
        ghost var was := View();
        assert ids[k..][0] == ids[k] && ids[k..][1..] == ids[k + 1..];
        var doc;
        doc, trace' := IndexProduct(Indexer(event), others, t + PAUSES * k, trace', start);
        if Quiet(others) {
          OneRewritten(db, old(alias), was.alias, ids, k, doc);
        }
      }
    }
  }

  lemma NotThere(db: Tables, p: nat)
    requires p !in db.products
    ensures Doc(db, p) == None
  {
  }

  // What the query for the seller says about the product as it was read first.
  lemma SellerRead(first: Tables, db: Tables, p: nat, changed: bool)
    requires changed || SameSource(first, db, p)
    requires p in first.products
    ensures changed || (p in db.products && db.products[p] == first.products[p])
    ensures var seller := first.products[p].seller;
      && (changed || (Trading(db, seller) <==> Trading(first, seller)))
      && (changed || (Trading(db, seller) ==> db.sellers[seller] == first.sellers[seller]))
      && (changed || (Trading(db, seller) && first.products[p].status == ProductStatus.Published) || Doc(db, p) == None)
  {
    hide Doc;
    if !changed {
      SameRow(first, db, p);
      if !Trading(db, first.products[p].seller) || first.products[p].status != ProductStatus.Published {
        NoDoc(db, p);
      }
    }
  }

  lemma RowsRead(first: Tables, db: Tables, p: nat, changed: bool)
    requires changed || SameSource(first, db, p)
    requires p in first.products
    ensures changed || (VariantsOf(db, p) == VariantsOf(first, p) && RatingsOf(db, p) == RatingsOf(first, p))
    ensures changed || (p in db.products && db.products[p] == first.products[p])
    ensures changed || Names(db, Ordered(first.products[p].categories)) == Names(first, Ordered(first.products[p].categories))
  {
    hide VariantsOf, RatingsOf, Ordered, Names;
    if !changed {
      SameRow(first, db, p);
      SameSourceSameRows(first, db, p);
    }
  }

  lemma StillOpen(s: Sys, s': Sys, role: Role)
    requires Undisturbed(s, s', role) && CanOpen(Hand(s, role))
    ensures CanOpen(Hand(s', role)) && s.events <= s'.events
  {
    hide SameSource, TablesOk;
  }

  lemma StillWriting(s: Sys, s': Sys, role: Role, doc: Option<Document>)
    requires Undisturbed(s, s', role) && Hand(s, role).ids != [] && Hand(s, role).inHand
    requires Hand(s', role).changed || doc == Doc(s'.db, Hand(s, role).ids[0])
    ensures CanWrite(s'.db, Hand(s', role), doc)
  {
    hide SameSource, TablesOk, Doc;
  }

  lemma LandedTables(s: Sys, role: Role, doc: Option<Document>)
    requires Hand(s, role).ids != []
    ensures Landed(s, role, doc).db == s.db && Landed(s, role, doc).events == s.events
  {
    hide Put;
  }

  lemma FreeHandStays(s: Sys, s': Sys, role: Role)
    requires Undisturbed(s, s', role) && !Hand(s, role).inHand
    ensures role.Reindexer? ==> s'.phase == s.phase && s'.complete == s.complete
    ensures role.Indexer? ==> (role.event in s'.jobs <==> role.event in s.jobs) && (role.event in s.jobs ==> s'.jobs[role.event] == s.jobs[role.event])
    ensures s.events <= s'.events && s.consumed <= s'.consumed
  {
    hide SameSource, TablesOk;
  }

  lemma AddedSize(built: Index, p: nat, doc: Option<Document>)
    requires p !in built
    ensures |Added(built, p, doc)| == |built| + if doc.Some? then 1 else 0
  {
    if doc.Some? {
      assert built[p := doc.value].Keys == built.Keys + {p} && |built.Keys| == |built| && |built[p := doc.value].Keys| == |built[p := doc.value]|;
    }
  }

  lemma AddedIs(built: Index, p: nat, doc: Option<Document>)
    ensures Added(built, p, doc) == if doc.Some? then built[p := doc.value] else built
  {
  }

  // ---- With nobody else about ---------------------------------------------------------------

  lemma NothingScanned(db: Tables)
    ensures NilUnused(db) ==> ScannedTo(db, map[], 0)
  {
    if NilUnused(db) {
      NothingAtZero(db);
    }
  }

  lemma AllInIndex(db: Tables, built: Index, cursor: nat)
    requires ScannedTo(db, built, cursor) && forall p :: p in db.products ==> p <= cursor
    ensures forall p: nat :: Look(built, p) == Doc(db, p)
  {
    hide Doc;
    AbsentBeyond(db, cursor);
  }

  // Each of the ids has its document, and all other entries are as before.
  ghost predicate Rewritten(db: Tables, index: Index, index': Index, ids: seq<nat>)
  {
    && (forall i :: 0 <= i < |ids| ==> Look(index', ids[i]) == Doc(db, ids[i]))
    && (forall p: nat :: p !in ids ==> Look(index', p) == Look(index, p))
  }

  lemma NothingRewritten(db: Tables, index: Index)
    ensures Rewritten(db, index, index, [])
  {
    hide Doc, Look;
  }

  lemma OneRewritten(db: Tables, first: Index, index: Index, ids: seq<nat>, i: nat, doc: Option<Document>)
    requires i < |ids| && Rewritten(db, first, index, ids[..i]) && doc == Doc(db, ids[i])
    ensures Rewritten(db, first, Put(index, ids[i], doc), ids[..i + 1])
  {
    hide Doc, Look, Put;
    PutAt(index, ids[i], doc);
    assert ids[..i + 1] == ids[..i] + [ids[i]];
  }

  // What events from..to concern has its document.
  ghost predicate Repaired(db: Tables, events: seq<Change>, index: Index, from: nat, to: nat)
    requires to <= |events|
  {
    forall i, p: nat :: from <= i < to && Affects(db, events[i], p) ==> Look(index, p) == Doc(db, p)
  }

  ghost predicate Mixed(db: Tables, index: Index, index': Index)
  {
    forall p: nat :: Look(index', p) == Look(index, p) || Look(index', p) == Doc(db, p)
  }

  // Only products of the event have changed, and those have their documents.
  ghost predicate Touched(db: Tables, e: Change, index: Index, index': Index)
  {
    forall p: nat :: Look(index', p) == Look(index, p) || (Affects(db, e, p) && Look(index', p) == Doc(db, p))
  }

  ghost predicate Finished(db: Tables, e: Change, index: Index)
  {
    forall p: nat :: Affects(db, e, p) ==> Look(index, p) == Doc(db, p)
  }

  lemma NotTouched(db: Tables, e: Change, index: Index)
    ensures Touched(db, e, index, index)
  {
    hide Doc, Affects, Look;
  }

  lemma TouchedOn(db: Tables, e: Change, a: Index, b: Index, c: Index)
    requires Touched(db, e, a, b) && Touched(db, e, b, c)
    ensures Touched(db, e, a, c)
  {
    hide Doc, Affects, Look;
    forall p: nat
      ensures Look(c, p) == Look(a, p) || (Affects(db, e, p) && Look(c, p) == Doc(db, p))
    {
      assert Look(c, p) == Look(b, p) || (Affects(db, e, p) && Look(c, p) == Doc(db, p));
      assert Look(b, p) == Look(a, p) || (Affects(db, e, p) && Look(b, p) == Doc(db, p));
    }
  }

  lemma TouchedAll(db: Tables, e: Change, index: Index, index': Index)
    requires Touched(db, e, index, index') && Finished(db, e, index')
    ensures forall p: nat :: Look(index', p) == if Affects(db, e, p) then Doc(db, p) else Look(index, p)
  {
    hide Doc, Affects, Look;
  }

  lemma RewrittenTouches(db: Tables, e: Change, index: Index, index': Index, ids: seq<nat>, n: nat)
    requires n <= |ids| && AffectedIds(db, e, ids) && Rewritten(db, index, index', ids[..n])
    ensures Touched(db, e, index, index') && (n == |ids| ==> Finished(db, e, index'))
  {
    hide Doc, Affects, Look;
    assert ids[..|ids|] == ids;
    forall p: nat
      ensures Look(index', p) == Look(index, p) || (Affects(db, e, p) && Look(index', p) == Doc(db, p))
      ensures n == |ids| && Affects(db, e, p) ==> Look(index', p) == Doc(db, p)
    {
      if p in ids[..n] {
        var j :| 0 <= j < n && ids[..n][j] == p;
        assert p in ids;
      }
    }
  }

  lemma NothingRepaired(db: Tables, events: seq<Change>, index: Index, from: nat)
    requires from <= |events|
    ensures Repaired(db, events, index, from, from) && Mixed(db, index, index)
  {
    hide Doc, Affects, Look;
  }

  lemma RepairedOn(db: Tables, events: seq<Change>, index: Index, index': Index, from: nat, k: nat, ids: seq<nat>)
    requires from <= k < |events| && Repaired(db, events, index, from, k) && AffectedIds(db, events[k], ids)
    requires Rewritten(db, index, index', ids)
    ensures Repaired(db, events, index', from, k + 1)
  {
    hide Doc, Affects, Look;
    forall i, p: nat | from <= i < k + 1 && Affects(db, events[i], p)
      ensures Look(index', p) == Doc(db, p)
    {
      if p in ids {
        var j :| 0 <= j < |ids| && ids[j] == p;
      } else {
        assert i < k;
      }
    }
  }

  lemma MixedOn(db: Tables, a: Index, b: Index, c: Index, ids: seq<nat>)
    requires Mixed(db, a, b) && Rewritten(db, b, c, ids)
    ensures Mixed(db, a, c)
  {
    hide Doc, Look;
    forall p: nat
      ensures Look(c, p) == Look(a, p) || Look(c, p) == Doc(db, p)
    {
      if p in ids {
        var j :| 0 <= j < |ids| && ids[j] == p;
      } else {
        assert Look(c, p) == Look(b, p);
      }
    }
  }

  lemma MixedMeans(db: Tables, index: Index, index': Index)
    requires Mixed(db, index, index')
    ensures forall p: nat :: Look(index', p) == Look(index, p) || Look(index', p) == Doc(db, p)
  {
    hide Doc, Look;
  }

  lemma AllRepaired(s: Sys, index: Index, since: nat)
    requires Repaired(s.db, s.events, index, since, |s.events|)
    ensures forall p: nat :: ChangedIn(s, since, |s.events|, p) ==> Look(index, p) == Doc(s.db, p)
  {
    hide Doc, Look, Affects;
    forall p: nat | ChangedIn(s, since, |s.events|, p)
      ensures Look(index, p) == Doc(s.db, p)
    {
      var i :| since <= i < |s.events| && Mentions(s, i, p);
      assert Affects(s.db, s.events[i], p);
    }
  }

  ghost predicate ScannedTo(db: Tables, built: Index, cursor: nat)
  {
    forall p: nat :: if p <= cursor then Look(built, p) == Doc(db, p) else p !in built
  }

  // The pages before, and the first n ids of this page, are in the index; nothing else is.
  ghost predicate PartScanned(db: Tables, built: Index, cursor: nat, ids: seq<nat>, n: nat)
    requires n <= |ids|
  {
    && (forall p: nat :: p <= cursor ==> Look(built, p) == Doc(db, p))
    && (forall j :: 0 <= j < n ==> Look(built, ids[j]) == Doc(db, ids[j]))
    && (forall p: nat :: cursor < p && p !in ids[..n] ==> p !in built)
  }

  lemma NoneScanned(db: Tables, built: Index, ids: seq<nat>, cursor: nat)
    requires ScannedTo(db, built, cursor)
    ensures PartScanned(db, built, cursor, ids, 0)
  {
    hide Doc;
  }

  lemma OneScanned(db: Tables, built: Index, cursor: nat, ids: seq<nat>, i: nat)
    requires i < |ids| && cursor < ids[i] && PartScanned(db, built, cursor, ids, i)
    requires forall i, j :: 0 <= i < j < |ids| ==> ids[i] < ids[j]
    ensures ids[i] !in built
    ensures Doc(db, ids[i]) == None ==> PartScanned(db, built, cursor, ids, i + 1)
    ensures Doc(db, ids[i]).Some? ==> PartScanned(db, built[ids[i] := Doc(db, ids[i]).value], cursor, ids, i + 1)
  {
    hide Doc;
    assert ids[i] !in ids[..i];
    assert ids[..i + 1] == ids[..i] + [ids[i]];
  }

  lemma AllScanned(db: Tables, built: Index, cursor: nat, ids: seq<nat>)
    requires PageAfter(db, cursor, ids) && PartScanned(db, built, cursor, ids, |ids|)
    ensures ScannedTo(db, built, ids[|ids| - 1])
  {
    hide Doc;
    assert ids[..|ids|] == ids;
    forall p: nat
      ensures if p <= ids[|ids| - 1] then Look(built, p) == Doc(db, p) else p !in built
    {
      if cursor < p <= ids[|ids| - 1] && p !in ids {
        AbsentHasNoDoc(db, p);
      }
    }
  }

  lemma AbsentHasNoDoc(db: Tables, p: nat)
    requires p !in db.products
    ensures Doc(db, p) == None
  {
  }

  lemma NothingAtZero(db: Tables)
    requires NilUnused(db)
    ensures Doc(db, 0) == None
  {
  }

  lemma AbsentBeyond(db: Tables, cursor: nat)
    requires forall p :: p in db.products ==> p <= cursor
    ensures forall p: nat :: cursor < p ==> Doc(db, p) == None
  {
  }

  function Highest(order: seq<nat>): nat
  {
    if order == [] then 0 else order[|order| - 1]
  }

  lemma PageBelow(order: seq<nat>, db: Tables, cursor: nat, ids: seq<nat>)
    requires InOrder(order, db) && PageAfter(db, cursor, ids)
    ensures cursor < ids[|ids| - 1] <= Highest(order)
  {
    var last := ids[|ids| - 1];
    assert last in order;
    var i :| 0 <= i < |order| && order[i] == last;
  }
}
