/**
 * Which deployments keep the search index faithful. Events are keyed by what they are about, each
 * key belongs to one member of the indexer's group, and a member works on one event at a time; a
 * reindex may replay beside the indexers or only while they pause. One live writer is enough, and
 * with any second one an old document can stay for good.
 */
module SearchRaces {
  import opened Common
  import opened SearchDocuments
  import opened SearchIndex

  // ---- Deployments --------------------------------------------------------------------------

  // The aggregate an event is queued for, whose identifier is the key of its message.
  datatype Key = OfProduct(id: nat) | OfVariant(id: nat) | OfSeller(id: nat) | OfOrder(id: nat)

  function KeyOf(e: Change): Key
  {
    match e
    case ProductChanged(p) => OfProduct(p)
    case VariantChanged(v) => OfVariant(v)
    case ReviewChanged(p) => OfProduct(p)
    case SellerChanged(s) => OfSeller(s)
    case ItemsDelivered(o, _) => OfOrder(o)
  }

  // The keys there can be: no product has the nil identifier.
  predicate Real(k: Key)
  {
    k != OfProduct(0)
  }

  // The member that gets the messages of a key.
  type Owner = Key -> nat

  ghost predicate OneMember(owner: Owner)
  {
    forall k, l :: Real(k) && Real(l) ==> owner(k) == owner(l)
  }

  function MemberOf(owner: Owner, s: Sys, e: nat): nat
  {
    if e < |s.events| then owner(KeyOf(s.events[e])) else 0
  }

  // What an operator sets up: who gets which key, whether a replay may run beside the indexers, and
  // whether the relays keep the events of a key in order.
  datatype Deployment = Deployment(owner: Owner, beside: bool, ordered: bool)

  // Each member works on one event, and without a replay beside them the indexers pause for it.
  predicate Deployed(d: Deployment, s: Sys)
  {
    && (forall e, f :: e in s.jobs && f in s.jobs && e != f ==> MemberOf(d.owner, s, e) != MemberOf(d.owner, s, f))
    && (s.phase.Replaying? && s.jobs != map[] ==> d.beside)
  }

  // A member takes its events in their order.
  predicate InOrder(d: Deployment, s: Sys, a: Action)
  {
    a.Take? ==> forall e :: 0 <= e < a.event && MemberOf(d.owner, s, e) == MemberOf(d.owner, s, a.event) ==> e in s.consumed
  }

  predicate DeployedRun(d: Deployment, states: seq<Sys>, actions: seq<Action>)
  {
    && Run(states, actions)
    && (forall i :: 0 <= i < |states| ==> Deployed(d, states[i]))
    && (d.ordered ==> forall i :: 0 <= i < |actions| && i < |states| ==> InOrder(d, states[i], actions[i]))
  }

  ghost predicate OneWriter(d: Deployment)
  {
    OneMember(d.owner) && !d.beside
  }

  // ---- One live writer ----------------------------------------------------------------------

  ghost predicate RealEvents(s: Sys)
  {
    forall i :: 0 <= i < |s.events| ==> Real(KeyOf(s.events[i]))
  }

  lemma StepKeepsReal(s: Sys, a: Action)
    requires Inv(s) && RealEvents(s) && Enabled(s, a)
    ensures RealEvents(Apply(s, a))
  {
    hide ScanInv, ReplayInv, JobsInv, Committed, Doc, Put, Affects, MarkedPhase, MarkedJobs, AffectedIds, PageAfter;
  }

  lemma {:induction false} RunKeepsReal(states: seq<Sys>, actions: seq<Action>, n: nat)
    requires Run(states, actions) && n < |states|
    ensures RealEvents(states[n])
  {
    hide Inv, Enabled, Apply, RealEvents;
    if n == 0 {
      NoEvents(states[0]);
    } else {
      RunKeepsReal(states, actions, n - 1);
      RunKeepsInv(states, actions, n - 1);
      assert Next(states[n - 1], actions[n - 1], states[n]);
      StepKeepsReal(states[n - 1], actions[n - 1]);
    }
  }

  lemma NoEvents(s: Sys)
    requires Initial(s)
    ensures RealEvents(s)
  {
  }

  // A single member holds at most one event, and nobody replays beside it.
  lemma OneWriterIsOneHand(d: Deployment, s: Sys)
    requires OneWriter(d) && Deployed(d, s) && JobsInv(s) && RealEvents(s)
    ensures OneHand(s)
  {
    hide Holds, Concerns;
    forall e, f | e in s.jobs && f in s.jobs
      ensures e == f
    {
      assert Real(KeyOf(s.events[e])) && Real(KeyOf(s.events[f]));
    }
  }

  lemma OneWriterConverges(d: Deployment, states: seq<Sys>, actions: seq<Action>, n: nat)
    requires OneWriter(d) && DeployedRun(d, states, actions) && n < |states| && Settled(states[n])
    ensures Faithful(states[n])
  {
    hide Run, Deployed, OneWriter, RealEvents, InOrder, Settled, Sound;
    forall i | 0 <= i <= n
      ensures OneHand(states[i])
    {
      RunKeepsInv(states, actions, i);
      RunKeepsReal(states, actions, i);
      OneWriterIsOneHand(d, states[i]);
    }
    RunKeepsSound(states, actions, n);
    SettledIsFaithful(states[n]);
  }

  // ---- Building runs ------------------------------------------------------------------------

  lemma Extend(d: Deployment, states: seq<Sys>, actions: seq<Action>, a: Action)
    returns (states': seq<Sys>, actions': seq<Action>)
    requires DeployedRun(d, states, actions) && |states| == |actions| + 1
    requires var s := states[|actions|]; Enabled(s, a) && InOrder(d, s, a) && Deployed(d, Apply(s, a))
    ensures DeployedRun(d, states', actions') && |states'| == |actions'| + 1
    ensures states'[|actions'|] == Apply(states[|actions|], a)
  {
    hide Enabled, Apply, Initial, Deployed, InOrder;
    states', actions' := states + [Apply(states[|actions|], a)], actions + [a];
  }

  // Tables with one product, which is to be found.
  predicate Shop(db: Tables, p: nat)
  {
    p != 0 && db.products.Keys == {p} && TablesOk(db) && Visible(db, p)
  }

  function Renaming(db: Tables, p: nat, name: string): Tx
    requires p in db.products
  {
    UpdateProduct(p, name, db.products[p].description, db.products[p].status, None)
  }

  lemma Renamed(db: Tables, p: nat, name: string)
    requires Shop(db, p)
    ensures Permitted(db, Renaming(db, p, name)) && Shop(Committed(db, Renaming(db, p, name)), p)
    ensures Queued(db, Renaming(db, p, name)) == Some(ProductChanged(p))
    ensures var db' := Committed(db, Renaming(db, p, name)); Doc(db', p).Some? && Doc(db', p).value.name == name
  {
    hide VariantsOf, RatingsOf, Ordered, Names, Lines, Skus, LeastPrice;
  }

  lemma Listed(db: Tables, p: nat)
    requires Shop(db, p)
    ensures NilUnused(db) && PageAfter(db, 0, [p]) && Doc(db, p).Some?
    ensures AffectedIds(db, ProductChanged(p), [p])
  {
    hide VariantsOf, RatingsOf, Ordered, Names, Lines, Skus, LeastPrice;
  }

  // A scan of the one product, up to the switch of the alias.
  lemma Scanned(d: Deployment, db: Tables, p: nat) returns (states: seq<Sys>, actions: seq<Action>)
    requires Shop(db, p)
    ensures DeployedRun(d, states, actions) && |states| == |actions| + 1
    ensures Doc(db, p).Some? && states[|actions|] == Sys(db, [], {}, map[], map[p := Doc(db, p).value], Swapped(0), false)
  {
    hide Doc, DeployedRun, PageAfter, Shop, AffectedIds;
    Listed(db, p);
    ShopIsOk(db, p);
    var doc := Doc(db, p);
    states, actions := [Sys(db, [], {}, map[], map[], Idle, false)], [];
    StartsThere(d, states);
    states, actions := Extend(d, states, actions, StartScan);
    states, actions := Extend(d, states, actions, NextPage([p]));
    states, actions := Extend(d, states, actions, ScanOpen);
    states, actions := Extend(d, states, actions, ScanOne(doc));
    assert [p][1..] == [];
    assert states[|actions|] == Sys(db, [], {}, map[], map[], Scanning(0, map[p := doc.value], p, NOTHING, false), false);
    states, actions := Extend(d, states, actions, EndScan);
    states, actions := Extend(d, states, actions, SwitchAlias);
  }

  lemma ShopIsOk(db: Tables, p: nat)
    requires Shop(db, p)
    ensures TablesOk(db) && db.products.Keys == {p}
  {
  }

  lemma StartsThere(d: Deployment, states: seq<Sys>)
    requires |states| == 1 && Initial(states[0])
    ensures DeployedRun(d, states, [])
  {
  }

  // ---- Two live writers ---------------------------------------------------------------------

  // A finished reindex of the one product.
  lemma Reindexed(d: Deployment, db: Tables, p: nat) returns (states: seq<Sys>, actions: seq<Action>)
    requires Shop(db, p)
    ensures DeployedRun(d, states, actions) && |states| == |actions| + 1
    ensures Doc(db, p).Some? && states[|actions|] == Sys(db, [], {}, map[], map[p := Doc(db, p).value], Idle, true)
  {
    hide Doc, DeployedRun, Shop;
    states, actions := Scanned(d, db, p);
    states, actions := Extend(d, states, actions, ReadOutbox);
    states, actions := Extend(d, states, actions, EndReplay);
  }

  // A member takes an event of the product and has read its rows when the product is renamed.
  lemma ReadTooEarly(d: Deployment, states: seq<Sys>, actions: seq<Action>, db: Tables, db': Tables, tx: Tx, e: Change, p: nat, name: string, alias: Index)
    returns (states': seq<Sys>, actions': seq<Action>)
    requires DeployedRun(d, states, actions) && |states| == |actions| + 1
    requires states[|actions|] == Sys(db, [], {}, map[], alias, Idle, true)
    requires Permitted(db, tx) && Queued(db, tx) == Some(e) && Committed(db, tx) == db' && Shop(db', p) && AffectedIds(db', e, [p])
    ensures DeployedRun(d, states', actions') && |states'| == |actions'| + 1
    ensures states'[|actions'|] == Sys(Committed(db', Renaming(db', p, name)), [e, ProductChanged(p)], {},
                                       map[0 := Work([p], true, true)], alias, Idle, true)
  {
    hide Doc, DeployedRun, Permitted, Committed, Queued, Shop, AffectedIds, Visible;
    Renamed(db', p, name);
    ShopIsOk(db', p);
    states', actions' := Extend(d, states, actions, Write(tx));
    assert states'[|actions'|].jobs == map[];
    states', actions' := Extend(d, states', actions', Take(0, [p]));
    states', actions' := Extend(d, states', actions', Open(0));
    assert states'[|actions'|].jobs == map[0 := Work([p], true, false)];
    states', actions' := Extend(d, states', actions', Write(Renaming(db', p, name)));
    assert states'[|actions'|].jobs == map[0 := Work([p], true, true)];
  }

  // Meanwhile another member takes the renaming,
  lemma Overtaken(d: Deployment, states: seq<Sys>, actions: seq<Action>, db: Tables, e: Change, p: nat, alias: Index)
    returns (states': seq<Sys>, actions': seq<Action>)
    requires DeployedRun(d, states, actions) && |states| == |actions| + 1 && Shop(db, p)
    requires states[|actions|] == Sys(db, [e, ProductChanged(p)], {}, map[0 := Work([p], true, true)], alias, Idle, true)
    requires d.owner(KeyOf(e)) != d.owner(OfProduct(p))
    ensures DeployedRun(d, states', actions') && |states'| == |actions'| + 1
    ensures states'[|actions'|] == Sys(db, [e, ProductChanged(p)], {}, map[0 := Work([p], true, true), 1 := Work([p], true, false)],
                                       alias, Idle, true)
  {
    hide Doc, DeployedRun, Shop, AffectedIds, Visible;
    Listed(db, p);
    states', actions' := Extend(d, states, actions, Take(1, [p]));
    states', actions' := Extend(d, states', actions', Open(1));
    assert states'[|actions'|].jobs == map[0 := Work([p], true, true), 1 := Work([p], true, false)];
  }

  // and handles it to the end.
  lemma Overtaking(d: Deployment, states: seq<Sys>, actions: seq<Action>, db: Tables, e: Change, p: nat, alias: Index)
    returns (states': seq<Sys>, actions': seq<Action>)
    requires DeployedRun(d, states, actions) && |states| == |actions| + 1 && Shop(db, p)
    requires states[|actions|] == Sys(db, [e, ProductChanged(p)], {}, map[0 := Work([p], true, true)], alias, Idle, true)
    requires d.owner(KeyOf(e)) != d.owner(OfProduct(p))
    ensures DeployedRun(d, states', actions') && |states'| == |actions'| + 1
    ensures states'[|actions'|] == Sys(db, [e, ProductChanged(p)], {1}, map[0 := Work([p], true, true)], Put(alias, p, Doc(db, p)), Idle, true)
  {
    hide Doc, DeployedRun, Put, Shop;
    states', actions' := Overtaken(d, states, actions, db, e, p, alias);
    states', actions' := Extend(d, states', actions', Rebuild(1, Doc(db, p)));
    assert [p][1..] == [];
    assert states'[|actions'|].jobs == map[0 := Work([p], true, true), 1 := NOTHING];
    states', actions' := Extend(d, states', actions', Finish(1));
    assert states'[|actions'|].jobs == map[0 := Work([p], true, true)];
  }

  // The first member writes what it read.
  lemma LandingLate(d: Deployment, states: seq<Sys>, actions: seq<Action>, db: Tables, e: Change, p: nat, doc: Option<Document>, alias: Index)
    returns (states': seq<Sys>, actions': seq<Action>)
    requires DeployedRun(d, states, actions) && |states| == |actions| + 1
    requires states[|actions|] == Sys(db, [e, ProductChanged(p)], {1}, map[0 := Work([p], true, true)], alias, Idle, true)
    ensures DeployedRun(d, states', actions') && |states'| == |actions'| + 1
    ensures states'[|actions'|] == Sys(db, [e, ProductChanged(p)], {0, 1}, map[], Put(alias, p, doc), Idle, true)
  {
    hide Doc, DeployedRun, Put;
    states', actions' := Extend(d, states, actions, Rebuild(0, doc));
    states', actions' := Extend(d, states', actions', Finish(0));
    assert states'[|actions'|].jobs == map[] && states'[|actions'|].consumed == {0, 1};
  }

  // Two members, an event of the product under another key, and a renaming: the old name stays.
  lemma OldDocumentStays(d: Deployment, db: Tables, tx: Tx, e: Change, p: nat) returns (states: seq<Sys>, actions: seq<Action>)
    requires Shop(db, p) && Permitted(db, tx) && Queued(db, tx) == Some(e)
    requires Shop(Committed(db, tx), p) && AffectedIds(Committed(db, tx), e, [p]) && d.owner(KeyOf(e)) != d.owner(OfProduct(p))
    ensures DeployedRun(d, states, actions) && |states| == |actions| + 1
    ensures var s := states[|actions|];
      Settled(s) && s.jobs == map[] && s.phase == Idle && p in s.alias && p in s.db.products && s.alias[p].name != s.db.products[p].name && !Faithful(s)
  {
    hide Doc, DeployedRun, Permitted, Committed, Queued, Shop, AffectedIds, Visible, Put;
    var db' := Committed(db, tx);
    Listed(db', p);
    var name := Doc(db', p).value.name + "!";
    ShopIsOk(db', p);
    Renamed(db', p, name);
    var last := Committed(db', Renaming(db', p, name));
    states, actions := Reindexed(d, db, p);
    var alias := states[|actions|].alias;
    states, actions := ReadTooEarly(d, states, actions, db, db', tx, e, p, name, alias);
    states, actions := Overtaking(d, states, actions, last, e, p, alias);
    states, actions := LandingLate(d, states, actions, last, e, p, Doc(db', p), Put(alias, p, Doc(last, p)));
    StillOld(states[|actions|], db', p, Put(alias, p, Doc(last, p)));
  }

  lemma StillOld(s: Sys, old': Tables, p: nat, alias: Index)
    requires Doc(old', p).Some? && s.alias == Put(alias, p, Doc(old', p))
    requires Shop(s.db, p) && Doc(s.db, p).Some? && Doc(s.db, p).value.name != Doc(old', p).value.name
    ensures p in s.alias && s.alias[p].name == Doc(old', p).value.name
    ensures p in s.db.products && s.db.products[p].name == Doc(s.db, p).value.name && !Faithful(s)
  {
    hide VariantsOf, RatingsOf, Ordered, Names, Lines, Skus, LeastPrice;
    assert !Right(s, p);
  }

  // ---- A replay beside the indexer ----------------------------------------------------------

  // The replay has read the product when it is renamed again.
  lemma ReplayReads(d: Deployment, db: Tables, p: nat, first: string, second: string)
    returns (states: seq<Sys>, actions: seq<Action>, alias: Index)
    requires Shop(db, p)
    ensures DeployedRun(d, states, actions) && |states| == |actions| + 1
    ensures var db' := Committed(db, Renaming(db, p, first));
      && Permitted(db, Renaming(db, p, first)) && p in db'.products && Permitted(db', Renaming(db', p, second))
      && states[|actions|] == Sys(Committed(db', Renaming(db', p, second)), [ProductChanged(p), ProductChanged(p)], {}, map[], alias,
                                  Replaying(1, 1, Work([p], true, true)), false)
  {
    hide Doc, DeployedRun, Permitted, Committed, Queued, Shop, AffectedIds, Visible, Affects;
    ShopIsOk(db, p);
    Renamed(db, p, first);
    var db' := Committed(db, Renaming(db, p, first));
    ShopIsOk(db', p);
    Listed(db', p);
    Renamed(db', p, second);
    states, actions := Scanned(d, db, p);
    alias := states[|actions|].alias;
    states, actions := Extend(d, states, actions, Write(Renaming(db, p, first)));
    assert states[|actions|].jobs == map[];
    states, actions := Extend(d, states, actions, ReadOutbox);
    states, actions := Extend(d, states, actions, ReplayEvent([p]));
    states, actions := Extend(d, states, actions, ReplayOpen);
    assert states[|actions|].phase == Replaying(1, 1, Work([p], true, false));
    Itself(Committed(db', Renaming(db', p, second)), p);
    states, actions := Extend(d, states, actions, Write(Renaming(db', p, second)));
    assert states[|actions|].jobs == map[];
  }

  lemma Itself(db: Tables, p: nat)
    ensures Affects(db, ProductChanged(p), p)
  {
  }

  // The first n of two events.
  function Done(n: nat): set<nat>
  {
    if n == 0 then {} else if n == 1 then {0} else {0, 1}
  }

  // The one indexer handles event e of the two from start to end.
  lemma IndexerActs(d: Deployment, states: seq<Sys>, actions: seq<Action>, e: nat, p: nat, db: Tables, alias: Index)
    returns (states': seq<Sys>, actions': seq<Action>)
    requires DeployedRun(d, states, actions) && |states| == |actions| + 1 && d.beside && Shop(db, p) && e < 2
    requires states[|actions|] == Sys(db, [ProductChanged(p), ProductChanged(p)], Done(e), map[], alias,
                                      Replaying(1, 1, Work([p], true, true)), false)
    ensures DeployedRun(d, states', actions') && |states'| == |actions'| + 1
    ensures states'[|actions'|] == Sys(db, [ProductChanged(p), ProductChanged(p)], Done(e + 1), map[], Put(alias, p, Doc(db, p)),
                                       Replaying(1, 1, Work([p], true, true)), false)
  {
    hide Doc, DeployedRun, Put, Shop, AffectedIds, Visible;
    Listed(db, p);
    states', actions' := Extend(d, states, actions, Take(e, [p]));
    states', actions' := Extend(d, states', actions', Open(e));
    states', actions' := Extend(d, states', actions', Rebuild(e, Doc(db, p)));
    states', actions' := Extend(d, states', actions', Finish(e));
    assert states'[|actions'|].jobs == map[] && states'[|actions'|].consumed == Done(e + 1);
  }

  // The replay writes last what it read first.
  lemma ReplayLandsLate(d: Deployment, states: seq<Sys>, actions: seq<Action>, db: Tables, p: nat, doc: Option<Document>, alias: Index)
    returns (states': seq<Sys>, actions': seq<Action>)
    requires DeployedRun(d, states, actions) && |states| == |actions| + 1
    requires states[|actions|] == Sys(db, [ProductChanged(p), ProductChanged(p)], Done(2), map[], alias,
                                      Replaying(1, 1, Work([p], true, true)), false)
    ensures DeployedRun(d, states', actions') && |states'| == |actions'| + 1
    ensures states'[|actions'|] == Sys(db, [ProductChanged(p), ProductChanged(p)], Done(2), map[], Put(alias, p, doc), Idle, true)
  {
    hide Doc, DeployedRun, Put;
    states', actions' := Extend(d, states, actions, ReplayOne(doc));
    assert [p][1..] == [];
    states', actions' := Extend(d, states', actions', EndReplay);
  }

  // A single indexer with a replay beside it: the old name stays.
  lemma OldReplayStays(d: Deployment) returns (states: seq<Sys>, actions: seq<Action>)
    requires d.beside
    ensures DeployedRun(d, states, actions) && |states| == |actions| + 1
    ensures var s := states[|actions|];
      Settled(s) && s.jobs == map[] && s.phase == Idle && 1 in s.alias && 1 in s.db.products && s.alias[1].name == "b" && s.db.products[1].name == "c" && !Faithful(s)
  {
    hide Doc, DeployedRun, Permitted, Committed, Queued, Shop, AffectedIds, Visible, Put, Offer;
    var db := Offer(1, 1, 1);
    OfferIsShop(1, 1, 1);
    ShopIsOk(db, 1);
    Renamed(db, 1, "b");
    var db' := Committed(db, Renaming(db, 1, "b"));
    ShopIsOk(db', 1);
    Renamed(db', 1, "c");
    var last := Committed(db', Renaming(db', 1, "c"));
    var alias;
    states, actions, alias := ReplayReads(d, db, 1, "b", "c");
    states, actions := IndexerActs(d, states, actions, 0, 1, last, alias);
    states, actions := IndexerActs(d, states, actions, 1, 1, last, Put(alias, 1, Doc(last, 1)));
    alias := Put(Put(alias, 1, Doc(last, 1)), 1, Doc(last, 1));
    states, actions := ReplayLandsLate(d, states, actions, last, 1, Doc(db', 1), alias);
    StillOld(states[|actions|], db', 1, alias);
  }

  // ---- Every deployment ---------------------------------------------------------------------

  function Offer(p: nat, seller: nat, v: nat): Tables
  {
    Tables(map[p := Product(seller, "a", "", Published, 0, {})], map[seller := Seller("shop", SellerStatus.Approved)],
           map[v := Variant(p, "sku", "only", 1)], map[], map[])
  }

  lemma OfferIsShop(p: nat, seller: nat, v: nat)
    requires p != 0
    ensures Shop(Offer(p, seller, v), p)
  {
  }

  // For every key but a product's there is a transaction that queues an event of product p under it.
  lemma UnderAnyKey(p: nat, k: Key) returns (db: Tables, tx: Tx, e: Change)
    requires p != 0 && !k.OfProduct?
    ensures Shop(db, p) && Permitted(db, tx) && Queued(db, tx) == Some(e) && KeyOf(e) == k
    ensures Shop(Committed(db, tx), p) && AffectedIds(Committed(db, tx), e, [p])
  {
    match k {
      case OfVariant(v) =>
        db, tx, e := Offer(p, 1, v), MoveStock(v), VariantChanged(v);
        OfferIsShop(p, 1, v);
      case OfSeller(s) =>
        db, tx, e := Offer(p, s, 1), RenameSeller(s, "new"), SellerChanged(s);
        OfferIsShop(p, s, 1);
      case OfOrder(o) =>
        db, tx, e := Offer(p, 1, 1), Tx.Deliver(o, [1]), ItemsDelivered(o, [1]);
        OfferIsShop(p, 1, 1);
        assert [1][0] in db.variants;
    }
  }

  // If not all keys have one owner, some product and some other key have two.
  lemma TwoOwners(owner: Owner) returns (p: nat, k: Key)
    requires !OneMember(owner)
    ensures p != 0 && !k.OfProduct? && owner(k) != owner(OfProduct(p))
  {
    var c := owner(OfSeller(1));
    if q: nat :| q != 0 && owner(OfProduct(q)) != c {
      p, k := q, OfSeller(1);
    } else {
      assert owner(OfProduct(1)) == c;
      var a, b :| Real(a) && Real(b) && owner(a) != owner(b);
      p, k := 1, if owner(a) != c then a else b;
    }
  }

  // Main theorem: whichever keys go to whichever members, and whether or not events arrive in order,
  // every settled state of every run has a faithful index if and only if a single member gets all
  // keys and no replay runs beside it.
  lemma FaithfulIffOneWriter(d: Deployment)
    ensures (forall states: seq<Sys>, actions: seq<Action>, n: nat ::
               DeployedRun(d, states, actions) && n < |states| && Settled(states[n]) ==> Faithful(states[n]))
            <==> OneWriter(d)
  {
    hide DeployedRun, Settled, Faithful, OneMember, Shop, Permitted, AffectedIds;
    if OneWriter(d) {
      forall states: seq<Sys>, actions: seq<Action>, n: nat | DeployedRun(d, states, actions) && n < |states| && Settled(states[n])
        ensures Faithful(states[n])
      {
        OneWriterConverges(d, states, actions, n);
      }
    } else if d.beside {
      var states, actions := OldReplayStays(d);
      assert !Faithful(states[|actions|]);
    } else {
      var p, k := TwoOwners(d.owner);
      var db, tx, e := UnderAnyKey(p, k);
      var states, actions := OldDocumentStays(d, db, tx, e, p);
      assert !Faithful(states[|actions|]);
    }
  }
}
