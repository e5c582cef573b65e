# Marketplace protocols

A Dafny model of the protocols of an e-commerce backend: how orders, payments, deliveries, stock,
events, search, recommendation profiles, chat and realtime sockets stay consistent while
independent services change them, fail and retry. `dafny verify dfyconfig.toml` checks all of it.

## What is modelled

Each database transaction is one atomic step over an abstract database; a failed one changes
nothing. Schema constraints are part of the steps: a second shipment for a seller order, an outside
shipment that claims the internal carrier, a stock column out of range and a second redemption of a
coupon abort their transaction. Identifiers are naturals, money is int64 with every operation proved
in range, roles, memberships and approvals are boolean inputs.

- `Voucher`, `Checkout`, `CheckoutSteps`, `Selection`: coupon arithmetic, the split of a cart into
  seller orders, and the key by which a repeated checkout is recognised.
- `Orders`, `Lifecycle`: one order with its seller orders, shipments and payment as pure
  transactions, and the joint invariant they keep.
- `Market`, `MarketInvariant`, `MarketRuns`, `MarketStore`: the whole database, its invariant over
  every run, statements about runs, and the same transactions written statement by statement over
  mutable tables and loops, proved to have exactly the same outcome.
- `OrderLock`, `Interleavings`: transactions that read, wait for the lock of their order, read again
  and commit, in any interleaving; the outcome is that of one serial history in lock order, so what
  holds of serial runs holds of interleaved ones.
- `Notifications`, `Pipeline`, `PipelineDrain`, `PipelineWorkers`: outbox rows, relays, the log,
  consumers and notifications with crashes, ambiguous writes, duplicates and redelivery; safety in
  every reachable state, draining by a decreasing measure once failures stop, and the loops.
- `EventFlow`: what the marketplace queues is what the notification service expects.
- `SearchDocuments`, `SearchIndex`, `SearchSettles`, `SearchRaces`, `SearchWorkers`: the document of
  a product, the index that consumers and a reindex keep while rows change between their queries and
  writes, that it settles, which deployments make it converge, and the loops.
- `ProfileWindow`, `ProfileRuns`, `ProfileLimits`, `ProfileWorkers`: replay protection of profiles.
- `Hub`, `HubServer`: the realtime socket hub. `Chat`: one conversation. `Browse`: catalogue pages.
- `Traces`, `Retries`: lists of protocol steps with what others do in between, and waits between
  attempts, shared by all loops.

The pure transitions are the specifications of the imperative methods; what the system promises is
proved about them as invariants and theorems over runs.

## Results that limit the code

- **Profile window.** For every enriched log, an event counts twice if and only if a copy of it
  arrives after 256 newer events of that user (`ProfileWindow.CountsOnceIffNeverStale`). With batches
  that land from their front and lookups that repeat their answer this cannot happen
  (`ProfileRuns.EventsCountOnce`), and 200 ids would be enough. Both conditions are needed: two
  concrete runs break the promise without the one or the other (`ProfileLimits`). The comment on the
  enricher promises deduplication without them.
- **Dead letters.** A failure-free continuation drains if and only if there is a dead letter topic,
  or the state it begins in holds no malformed row and no record that does not decode
  (`PipelineDrain.FailureFreeContinuationDrains`); for what the marketplace itself queues, only
  records of other writers remain (`EventFlow.MarketEventsDrain`). Without the topic one malformed
  record blocks its partition in every later state (`PipelineDrain.JamIsForever`), and
  `PipelineDrain.MalformedEventJams` is such a run. The shipped service gives the topic a default and
  refuses to start without one (`cmd/notification/main.go:125` and `:135-137`), so this concerns only
  a consumer that is built otherwise.
- **Search index.** A document is read with several queries and written without a version. In every
  run in which no two writers have one product in hand at once, a settled index is faithful
  (`SearchIndex.IndexConverges`). Messages are keyed by aggregate, a key belongs to one member of the
  group, and a member handles one event at a time; but an event of a seller, a variant or an order
  concerns products whose own events have another key. For every assignment of keys, every settled
  state of every run is faithful if and only if a single member gets all keys and no replay runs
  beside it (`SearchRaces.FaithfulIffOneWriter`). The two ways to fail are two members with such keys
  (`SearchRaces.OldDocumentStays`) and a replay beside a single indexer
  (`SearchRaces.OldReplayStays`); the old document then stays until the product changes again. The
  scan into a fresh index needs no such care.
- **Chat bodies.** The limit of 20000 bytes refuses nothing that the limit of 5000 characters
  accepts (`Chat.CharactersBoundBytes`).
- Cash collected by outside carriers marks a payment paid without queueing a payment event, so the
  statement about payment events counts at most one per order.

## Model

| member | source | states |
|---|---|---|
| Voucher.Calculate | internal/modules/voucher/service.go:146-194 | answers the discount and line discounts of the mathematical formula, or exactly the error of the first check that fails; every int64 step stays in range |
| Voucher.EligibleBase | internal/modules/voucher/service.go:154-162 | adds the amounts of eligible lines without overflow, and fails exactly when some amount is out of range |
| Voucher.CappedDiscount | internal/modules/voucher/service.go:166-180 | the percentage computed in two parts equals floor(base*value/100), then both caps apply; fails exactly for an invalid coupon value |
| Voucher.PercentExact | internal/modules/voucher/service.go:171 | the two-part percentage equals the plain floor for every base and value |
| Voucher.Allocate | internal/modules/voucher/service.go:182-193 | each line gets the floored proportion of what is left over the base that is left |
| Voucher.ShareBounds | internal/modules/voucher/service.go:182-193 | a share lies between 0 and its line, at least the floor of the exact proportion and less than that plus the number of sharing lines |
| Voucher.SharesSumToDiscount | internal/modules/voucher/service.go:182-193 | the line shares add up to the discount exactly |
| Voucher.QuoteIsExact | internal/modules/voucher/service.go:146-194 | of every accepted cart: the line discounts sum to the discount, stay within their lines, are 0 for ineligible lines and near the exact proportion for the others |
| Lifecycle.ConfirmKeeps | internal/modules/order/fulfillment.go:56-143 | a confirmation keeps the joint invariant of order, seller orders, shipments and payment, and only moves the order forward |
| Lifecycle.ShipKeeps | internal/modules/order/fulfillment.go:76-109 | handing over to an outside carrier keeps the joint invariant; an order never mixes internal and outside shipments |
| Lifecycle.DeliverKeeps | internal/modules/order/fulfillment.go:110-142 | an outside delivery keeps the joint invariant and marks cash as paid exactly when the whole order is delivered without internal shipments |
| Lifecycle.RequestKeeps | internal/modules/shipping/service.go:134-204 | requesting an internal delivery keeps the joint invariant, with the cash amount of the seller order |
| Lifecycle.AssignKeeps | internal/modules/shipping/service.go:205-236 | assigning a driver keeps the joint invariant and never changes the driver after pick-up |
| Lifecycle.AdvanceKeeps | internal/modules/shipping/service.go:237-293 | a driver's update keeps the joint invariant: the log grows by a permitted step and seller order and order follow |
| Lifecycle.SettleKeeps | internal/modules/shipping/service.go:294-319 | a settlement keeps the joint invariant and pays the order exactly when all its shipments are settled |
| Lifecycle.CancelKeeps | internal/modules/order/repository.go:213-263 | a cancellation keeps the joint invariant and cancels every seller order and the payment |
| Lifecycle.ApplyKeeps | internal/modules/payment/service.go:84-98 | applying a bank transfer keeps the joint invariant |
| Lifecycle.FulfilAnnounces | internal/modules/order/fulfillment.go:122-142 | a fulfilment queues no payment event |
| Lifecycle.SettleAnnounces | internal/modules/shipping/repository.go:164-180 | a settlement queues one payment event if and only if it completes the payment |
| Lifecycle.CashConserved | internal/modules/shipping/repository.go:164-179 | cash asked for at the door never exceeds the payment, and equals it once the payment is settled through internal delivery |
| Lifecycle.ReplayIsInert | internal/modules/shipping/service.go:248-268 | once a request key is in the log of a shipment, no call with it changes the order, however many transactions came between |
| Checkout.PartitionSum | internal/modules/order/repository.go:141-151 | splitting rows by seller keeps every total: money, discount and units |
| Checkout.PartInRange | internal/modules/order/repository.go:83-110 | no sum over any part of an accepted cart leaves int64 |
| Checkout.CommissionExact | internal/modules/order/repository.go:164-166 | the two-part commission is floor(total*rate/10000) and lies between 0 and the total |
| Checkout.MoneyConserved | internal/modules/order/repository.go:119-171 | seller order subtotals, discounts and totals add up to the order's, the payment is the total, commissions are exact and bounded |
| Checkout.PlacedIsConsistent | internal/modules/order/repository.go:119-181 | a placed order starts its life in the joint invariant |
| CheckoutSteps.CheckLines | internal/modules/order/repository.go:80-110 | the line loop answers the first failing check of the cart, or the exact subtotal without overflow |
| CheckoutSteps.CouponLines | internal/modules/order/repository.go:124-128 | the lines a coupon is computed on, amount by amount |
| CheckoutSteps.AddRow | internal/modules/order/repository.go:142-154 | one row goes to the group of its seller, opened if need be, and every group stays exact |
| CheckoutSteps.FormGroups | internal/modules/order/repository.go:140-162 | one group per seller with exactly its rows and sums; stock lowered by the units sold; one sale movement per row |
| CheckoutSteps.Commissions | internal/modules/order/repository.go:163-170 | every group gets its exact commission and nothing else changes |
| MarketStore.Store.Redeem | internal/modules/voucher/service.go:197-213 | redeems a coupon for the order, or fails with exactly the error of its checks |
| MarketStore.Store.Gather | internal/modules/order/repository.go:62-110 | collects the selected cart lines, or answers the first obstacle |
| MarketStore.Store.Build | internal/modules/order/repository.go:119-181 | builds the order row, its groups, commissions and payment from accepted rows |
| MarketStore.Store.Place | internal/modules/order/repository.go:171-189 | places the order with all its writes, or refuses an unpayable online order with none |
| MarketStore.Store.Checkout | internal/modules/order/repository.go:37-191 | the whole checkout: a repeat is answered from the stored order, a refusal changes nothing, otherwise exactly one order with all its writes appears |
| Selection.SelectionKey | internal/modules/order/service.go:30-46 | the key of a valid selection, or a refusal of exactly the invalid ones |
| Selection.TextInjective | internal/modules/order/service.go:30-46 | different identifiers have different texts |
| Selection.KeyIsCanonical | internal/modules/order/service.go:30-46 | two valid selections have the same key if and only if they hold the same variants |
| Selection.CheckoutVoucher | internal/modules/order/service.go:50-66 | the service's checks in their order, then the checkout transaction under the canonical key |
| Selection.RepeatedRequest | internal/modules/order/repository.go:45-61 | over any run: a repeated request changes nothing and is answered with the first order exactly when method, address, coupon and variant set agree |
| MarketStore.Store.Fulfil | internal/modules/order/fulfillment.go:44-143 | the statements of a fulfilment leave exactly the database and answer of its transition |
| MarketStore.Store.RequestDelivery | internal/modules/shipping/service.go:134-204 | the statements of a delivery request leave exactly the database and answer of its transition |
| MarketStore.Store.Assign | internal/modules/shipping/service.go:205-236 | the statements of an assignment, the refusal of a nil driver included, leave exactly the database and answer of its transition |
| MarketStore.Store.Advance | internal/modules/shipping/service.go:237-293 | the statements of a driver's update, replays included, leave exactly the database and answer of its transition |
| MarketStore.Store.SyncOrder | internal/modules/shipping/repository.go:149-163 | seller order and order take the statuses that follow from the delivery |
| MarketStore.Store.Settle | internal/modules/shipping/service.go:294-319 | the statements of a settlement leave exactly the database and answer of its transition |
| MarketStore.Store.Cancel | internal/modules/order/repository.go:213-263 | the statements of a cancellation leave exactly the database and answer of its transition |
| MarketStore.Store.Restock | internal/modules/order/repository.go:240-251 | the restocking loop adds up all rows and logs each of them |
| MarketStore.Store.Adjust | internal/modules/catalog/inventory.go:14-40 | the statements of a stock adjustment leave exactly the database and answer of its transition |
| MarketStore.Store.Receive | internal/modules/payment/service.go:55-123 | the statements of a webhook leave exactly the database and answer of its transition |
| MarketStore.CountExternal | internal/modules/shipping/repository.go:16-21 | counts above zero exactly if some shipment of the order is with an outside carrier |
| MarketStore.CountInternal | internal/modules/order/fulfillment.go:69-84 | counts above zero exactly if some shipment of the order is internal |
| MarketStore.CountUndelivered | internal/modules/shipping/repository.go:153-157 | counts zero exactly if every seller order is delivered |
| MarketStore.CountUnsettled | internal/modules/shipping/repository.go:164-171 | counts zero exactly if every seller order has a delivered and settled internal shipment |
| MarketStore.FindEvent | internal/modules/shipping/repository.go:127-131 | finds the event of a request key, if there is one |
| MarketInvariant.ActKeeps | internal/modules/shipping/service.go:106-133 | fulfilment and every delivery step keep the invariant of the whole database |
| MarketInvariant.CancelKeepsAll | internal/modules/order/repository.go:213-263 | a cancellation keeps the invariant of the whole database, stock and ledger included |
| MarketInvariant.AdjustKeeps | internal/modules/catalog/inventory.go:14-31 | a stock adjustment keeps stock equal to its movements and in range |
| MarketInvariant.ReceiveKeeps | internal/modules/payment/service.go:55-111 | a webhook keeps receipts, payments and payment events in step |
| MarketInvariant.PlacesKeeps | internal/modules/order/repository.go:62-190 | a checkout keeps the invariant of the whole database: key index, stock, ledger, coupon counters, carts |
| MarketInvariant.StepKeeps | internal/modules/order/repository.go:37-263 | every transaction keeps the invariant of the whole database |
| MarketInvariant.RunKeepsInvariant | internal/modules/order/repository.go:37-263 | the invariant holds in every state of every run |
| MarketRuns.ReachableOrder | internal/modules/order/fulfillment.go:100-143 | in every reachable state statuses agree, payment status is exact for both methods, and cash on delivery is conserved |
| MarketRuns.ReachableShipment | internal/modules/shipping/repository.go:117-126 | in every reachable state a shipment's status is that of its last event, its log took only permitted steps, settled implies collected implies delivered, and the log ends in one settlement entry exactly when it is settled |
| MarketRuns.ReachableLedger | internal/modules/catalog/inventory.go:14-31 | in every reachable state stock is the non-negative sum of its movements, and the movements of an order net to minus its units while it lives and to zero once cancelled |
| MarketRuns.OrdersMoveForward | internal/modules/shipping/service.go:25-40 | between any two states of a run: paid stays paid, delivered and returned are final, drivers are fixed from pick-up, logs only grow; money, items with their titles, and the destination never change |
| MarketRuns.RequestKeyTakesEffectOnce | internal/modules/shipping/service.go:248-268 | over any run a delivery request key changes the database at most once |
| MarketRuns.CheckoutIsIdempotent | internal/modules/order/repository.go:45-61 | over any run at most one order per user and key; a repeat changes nothing and is answered by the comparison with the first call |
| MarketRuns.RedeliveryIsInert | internal/modules/payment/service.go:68-77 | over any run a webhook delivered again changes nothing, and one that reuses its number for another transfer is rejected with no change |
| MarketRuns.ReachableHistory | internal/modules/payment/service.go:78-103 | in every reachable state the payment history is exactly the receipts that name a payment, as they were decided, and an online payment is paid exactly when one row of it is applied with its amount |
| OrderLock.DecideIsSerial | internal/modules/order/fulfillment.go:56-76 | what a transaction decides on the order re-read under the lock is what it would do alone |
| OrderLock.BeginIsSerial | internal/modules/payment/repository.go:49-62 | a transaction that ends before its lock has its serial outcome; otherwise what it read is still true |
| OrderLock.NextKeeps | internal/modules/shipping/service.go:106-133 | every interleaved step keeps a serial history with the same database |
| OrderLock.InterleavingIsSerial | internal/modules/payment/repository.go:54-62 | every interleaving of reads, locks and commits has the database and the answers of one serial history |
| OrderLock.LockOrderIsSerialOrder | internal/modules/shipping/repository.go:80-84 | the serial history lists transactions on one order as they took its lock |
| Interleavings.InterleavedIsRun | internal/modules/shipping/service.go:106-133 | the database after any interleaving is a state of a serial run, an earlier one an earlier state of the same run; so the invariant of the whole database holds throughout |
| Interleavings.InterleavedOrders | internal/modules/order/fulfillment.go:56-143 | whatever interleaves, statuses agree, payment status is exact, and between any two moments each order has only moved forward |
| Interleavings.InterleavedKeys | internal/modules/shipping/service.go:248-268 | of calls in flight at once a delivery request key changes the database at most once |
| Notifications.InsertOnce | internal/modules/notification/service.go:54-60 | inserting unless the event has a row keeps one row per event and loses none |
| Pipeline.NextKeeps | cmd/outbox-relay/main.go:53-87 | every step of relays and consumers, failures included, keeps the invariant of the pipeline |
| Pipeline.ReachableIsSafe | cmd/outbox-relay/main.go:53-87 | in every run: published rows are in the log, offsets below the committed one are dealt with, no event has two notifications, only undeliverable records are dead letters |
| Pipeline.DrainedIsExact | internal/modules/notification/service.go:41-61 | once rows are published and offsets committed, each event has exactly the one notification it asks for, none if it asks for none, and a malformed one is a dead letter |
| PipelineDrain.SmoothProgress | cmd/outbox-relay/main.go:53-87 | every step without failure lowers the work that is left |
| PipelineDrain.FailureFreeContinuationDrains | internal/modules/notification/consumer.go:80-147 | from any reachable state, once failures stop, every continuation is finite, and one that cannot go on has drained if and only if there is a dead letter topic or the state it began in holds no malformed row and no record that does not decode |
| PipelineDrain.SomeContinuationDrains | internal/modules/notification/consumer.go:57-78 | from every state that meets the condition a draining continuation exists |
| PipelineDrain.JamIsForever | internal/modules/notification/consumer.go:111-114 | over every run without a dead letter topic, failures and rebalances included: no dead letter is ever written, no offset is ever committed past a malformed record, and nothing drains once there is one |
| PipelineDrain.MalformedEventJams | internal/modules/notification/consumer.go:111-114 | a run without a dead letter topic in which one event of an unknown version reaches the log, all rows are published, and the consumer is stuck before it |
| PipelineWorkers.Cluster.ClaimBatch | cmd/outbox-relay/main.go:55-65 | one transaction recovers old claims and claims the picked rows |
| PipelineWorkers.Cluster.RelayBatch | cmd/outbox-relay/main.go:53-87 | with others acting between its steps the batch takes only protocol steps and keeps the invariant; it succeeds exactly when every row was written and marked, and then each is in the log; with nobody else about all are published |
| PipelineWorkers.Cluster.WriteRefused | cmd/outbox-relay/main.go:78-81 | a reported write error puts the row back, if that update succeeds, and drops the rest of the batch |
| PipelineWorkers.Cluster.MarkRefused | cmd/outbox-relay/main.go:82-84 | a failed mark ends the batch and leaves the claims in the table |
| PipelineWorkers.Cluster.Process | internal/modules/notification/consumer.go:80-109 | with others acting between its steps: handles a record, then commits its offset, and keeps the invariant; it ends early only for a missing dead letter topic or at shutdown |
| PipelineWorkers.Cluster.Settle | internal/modules/notification/consumer.go:86-108 | repeats the handling until it is seen to succeed, with the effect of one handling |
| PipelineWorkers.Cluster.Deliver | internal/modules/notification/service.go:41-61 | one handling: a row unless the event has one, a dead letter, or nothing |
| PipelineWorkers.Cluster.CommitOffset | internal/modules/notification/consumer.go:134-147 | repeats the commit until it is seen to succeed, with the effect of one commit |
| Retries.BackoffDoubles | internal/modules/notification/consumer.go:149-155 | waits double from one second up to a ceiling of thirty |
| EventFlow.StepKeepsEvents | internal/outbox/enqueue.go:13-27 | every transaction queues only events about existing orders, with their buyer and no negative amount |
| EventFlow.EventsReachBuyers | internal/modules/notification/service.go:63-118 | over any run no queued event is malformed to the notification service; order events go to the buyer, all others concern nobody |
| EventFlow.MarketEventsDrain | internal/modules/notification/consumer.go:80-147 | when the pipeline carries what the marketplace queued, a failure-free continuation drains if and only if there is a dead letter topic or no other writer has left a record that does not decode |
| SearchDocuments.Assemble | internal/modules/catalog/search.go:145-176 | the loop over the variants gives exactly the specified lines, SKUs and least price |
| SearchDocuments.EventNamesWhatChanged | internal/modules/catalog/service.go:113-141 | a catalogue, seller or review transaction changes no document but those its event concerns |
| SearchDocuments.AffectsGrows | cmd/search-reindex/main.go:111-143 | what an event concerns never shrinks afterwards |
| SearchIndex.WriteKeeps | internal/modules/catalog/service.go:76-143 | a catalogue transaction keeps what the scan has built right or named, and, while products are in one hand, every stale document owed by an event, the ones being read included |
| SearchIndex.IndexerKeeps | internal/searchindexer/consumer.go:55-152 | taking an event, reading a product, writing its document, committing and losing the event keep every stale document owed, while products are in one hand |
| SearchIndex.RebuiltIsFine | internal/modules/catalog/search.go:180-192 | with one writer per product a document written from rows that have not changed is right, and one written from older or mixed rows is still owed by the event that changed them |
| SearchIndex.PageKeepsScan | cmd/search-reindex/main.go:51-63 | moving the cursor past a page leaves no product behind that no later event names |
| SearchIndex.EndKeepsScan | cmd/search-reindex/main.go:60-62 | products created behind an empty page are named by an event of the replay |
| SearchIndex.SwitchKeeps | cmd/search-reindex/main.go:80-83 | after the alias switch every stale document is named by an event since the scan began |
| SearchIndex.ReplayKeeps | cmd/search-reindex/main.go:91-109 | the replay repairs what it reads and leaves the rest owed to the indexer |
| SearchIndex.IndexConverges | cmd/search-reindex/main.go:43-89 | in every run in which no two writers have one product in hand at once: once a reindex is complete and all events are consumed, the alias holds exactly the document of every product and none for hidden ones |
| SearchIndex.StaleIsOwed | internal/searchindexer/consumer.go:55-76 | in such a run every stale document after a complete reindex is named by an unconsumed event |
| SearchSettles.SmoothProgress | internal/searchindexer/consumer.go:37-77 | every step without failure and without a write to the catalogue lowers the work that is left |
| SearchSettles.QuietContinuationSettles | cmd/search-reindex/main.go:43-109 | from any reachable state, once the catalogue rests and failures stop, every continuation is finite, and one that cannot go on has finished a reindex and consumed every event; if no product was ever in two hands its index is faithful |
| SearchSettles.SomeContinuationSettles | cmd/search-reindex/main.go:43-109 | from every state that meets the invariant with products in one hand there is such a continuation that keeps them so |
| SearchRaces.OldDocumentStays | cmd/outbox-relay/main.go:74-79 | two members whose keys both concern one product: one has read it when the other handles a renaming from start to end, and writes last; everything is consumed and the old name stays |
| SearchRaces.OldReplayStays | cmd/search-reindex/main.go:91-109 | a single indexer with a replay beside it: the replay has read a product when the indexer handles its renaming, and writes last; everything is consumed and the old name stays |
| SearchRaces.OneWriterConverges | internal/searchindexer/consumer.go:37-77 | with all keys at one member and no replay beside it every settled state of every run is faithful, in whatever order events arrive |
| SearchRaces.FaithfulIffOneWriter | cmd/outbox-relay/main.go:74-79 | for every assignment of keys to members, with or without a replay beside them: every settled state of every run is faithful if and only if one member gets all keys and no replay runs beside it |
| SearchWorkers.ReadPage | cmd/search-reindex/main.go:52-63 | the next page of ids after the cursor, or none if there are no more |
| SearchWorkers.Site.SearchDocument | internal/modules/catalog/search.go:121-178 | read query by query while others commit: the document is that of the product now, or a change of the product since the first query is on record; none for a product that is not to be found |
| SearchWorkers.Site.IndexOrDelete | internal/modules/catalog/search.go:180-192 | writes the document, or deletes the entry of a product that has none |
| SearchWorkers.Site.IndexProduct | internal/modules/catalog/search.go:180-192 | reads and writes one product with others acting in between, in protocol steps; with nobody else about the entry is the current document |
| SearchWorkers.Site.Scan | cmd/search-reindex/main.go:43-83 | with others acting between all its steps the scan ends, takes only protocol steps and switches the alias; what the new index has wrong was changed since the scan began, and with nobody else about it is exact |
| SearchWorkers.Site.Replay | cmd/search-reindex/main.go:91-109 | with others acting between all its steps the replay takes only protocol steps; if no product was in two hands what is stale afterwards is owed; with nobody else about it rebuilds what was named and touches no other |
| SearchWorkers.Site.Reindex | cmd/search-reindex/main.go:43-89 | the whole command keeps the invariant; if no product was in two hands, whatever the alias then has wrong is owed by an unconsumed event |
| SearchWorkers.Site.Process | internal/searchindexer/consumer.go:55-77 | with others acting and attempts failing in between: rebuilds the products of one event, then commits its offset, again and again with doubling waits until both succeed; with nobody else about exactly those products are rebuilt |
| ProfileWindow.CountsOnceIffNeverStale | internal/modules/recommendation/profile.go:36-65 | for every log: no event counts twice if and only if no copy arrives after 256 newer events |
| ProfileWindow.RedeliveryIsInert | internal/modules/recommendation/profile.go:41 | delivering any record again changes nothing |
| ProfileRuns.NextKeeps | internal/modules/recommendation/enricher.go:30-56 | every step of enricher and projector keeps the invariants of log and profiles |
| ProfileRuns.WindowSuffices | internal/modules/recommendation/profile.go:42 | batches of at most 200, published in order before they commit, never outrun the window |
| ProfileRuns.EventsCountOnce | internal/modules/recommendation/enricher.go:30-102 | in every run with orderly batches and repeatable lookups: no event counts twice, limits of 256 ids and 20 categories hold, and once all is read each committed event that carries weight and categories has counted |
| ProfileLimits.LookupsMustRepeat | internal/modules/recommendation/enricher.go:104-153 | a run, read by the projector to its end, in which a batch is repeated, a lookup changes its answer, and the profile has counted an event twice |
| ProfileLimits.BatchesMustLandInOrder | internal/modules/recommendation/enricher.go:86-100 | a run, read by the projector to its end, in which batches land without their first half and the profile has counted an event twice |
| ProfileWorkers.ProcessBatch | internal/modules/recommendation/enricher.go:58-100 | sorts a batch into copies in order and dead letters; each topic of a valid event is looked up exactly once, and the first lookup that fails ends the batch |
| ProfileWorkers.Enrich | internal/modules/recommendation/enricher.go:30-56 | the batch loop takes only orderly steps with batches of 1 to 200; it fails exactly at a failing lookup, with nothing published, or at a broken send |
| ProfileWorkers.Rank | internal/modules/recommendation/profile.go:52-60 | keeps the 20 best-scored categories, decayed to now, and no worse one |
| ProfileWorkers.UserProfile.Update | internal/modules/recommendation/profile.go:36-65 | the script changes offset, recent ids and history exactly as specified, other partitions not at all, and scores only for a new event |
| Hub.NextKeeps | internal/http/realtime/server.go:103-227 | every atomic step of the hub keeps limits, greeting and addressing |
| Hub.HubIsSafe | internal/http/realtime/server.go:103-205 | in every interleaving: at most 256 pending and registered, 8 per user, 32 queued; the first frame is auth:ok; news reach only peers of the named users, each peer at most once |
| Hub.PublicationReachesAll | internal/http/realtime/server.go:325-347 | once a publication is through, each peer it found has the frame or is disconnected |
| Hub.NothingAfterClose | internal/http/realtime/server.go:348-361 | after Close nobody is admitted, registered or authenticated |
| HubServer.Server.Enter | internal/http/realtime/server.go:116-124 | admits within the limit of pending and registered connections |
| HubServer.Server.Register | internal/http/realtime/server.go:132-146 | registers an upgraded connection unless the server has closed |
| HubServer.Server.CountOf | internal/http/realtime/server.go:181-186 | counts the registered peers of a user |
| HubServer.Server.SignIn | internal/http/realtime/server.go:180-195 | queues auth:ok before the peer becomes visible, within the limit per user and not after Close |
| HubServer.Server.Enqueue | internal/http/realtime/server.go:276-291 | an offer never blocks; a full queue stops the peer |
| HubServer.Server.Snapshot | internal/http/realtime/server.go:330-343 | the targets are exactly the registered peers of the named users, each once |
| HubServer.Server.Publish | internal/http/realtime/server.go:325-347 | with other handlers acting in between, every peer found has the frame or is stopped when the publication returns |
| HubServer.Server.Shut | internal/http/realtime/server.go:348-360 | closing marks the server closed and stops every peer it finds, others acting in between; with nobody else about nothing else changes |
| Chat.CharactersBoundBytes | internal/modules/chat/service.go:123-128 | the byte limit refuses nothing that the character limit accepts |
| Chat.StepKeeps | internal/modules/chat/service.go:129-191 | sends and reads keep sequences 1..last, one message per client id, and markers within range that never move back |
| Chat.RunKeeps | internal/modules/chat/service.go:129-191 | the same in every state of every run, and nothing is lost or renumbered between two of them |
| Chat.SendIsIdempotent | internal/modules/chat/service.go:140-156 | a send repeated at any later time answers the stored message, or a conflict for another text, and changes nothing |
| Chat.ForwardContinues | internal/modules/chat/repository.go:50-51 | the next page after a sequence continues without gap or repeat, and a short page means the end |
| Chat.BackContinues | internal/modules/chat/repository.go:52-57 | the page before a sequence joins on without gap or repeat, and a short page means the beginning |
| Chat.PagesFitTogether | internal/modules/chat/repository.go:47-67 | a client that starts with nothing or with the latest page and pages forward and back, whatever sends come between, holds one unbroken stretch, each message once and in order |
| Chat.ShortPagesMeanAll | internal/modules/chat/repository.go:47-67 | a client that began at the first message or had a short page back, and a short page forward or the latest page with nothing stored since, holds the whole conversation |
| Chat.ReverseInPlace | internal/modules/chat/repository.go:61-65 | the swap loop reverses the page in place |
| Chat.Conversation.SendMessage | internal/modules/chat/service.go:129-166 | the statements of a send leave exactly the room and answer of its transition, with the guard at the largest sequence |
| Chat.Conversation.ReadTo | internal/modules/chat/service.go:167-192 | the statements of a read leave exactly the room and answer of its transition |
| Chat.Conversation.History | internal/modules/chat/repository.go:47-67 | answers the requested page oldest first, or exactly the request errors |
| Browse.Unknown | internal/modules/catalog/browse.go:124-131 | the sellers not known yet, each once |
| Browse.Collect | internal/modules/catalog/browse.go:140-152 | counts approved candidates and fills the page, stopping when it is full |
| Browse.Scan | internal/modules/catalog/browse.go:107-153 | the batched scan answers filter then slice; each lookup has 1 to 100 distinct sellers and none is asked for twice; the loop ends |
| Browse.Search | internal/modules/catalog/browse.go:23-153 | refuses exactly the invalid filters and page numbers; otherwise, with or without a seller, it answers one page of the approved matches |
| Browse.PagesConcatenate | internal/modules/catalog/browse.go:107-153 | consecutive pages put together are the filtered list |
| Browse.PagesAreDisjoint | internal/modules/catalog/browse.go:107-153 | two pages share no product |
| Browse.SearchIsLiteral | internal/modules/catalog/browse.go:62-64 | after escaping, the pattern finds exactly the names that contain the text searched for, whatever characters it holds |
| Browse.OneAnswer | internal/modules/catalog/browse.go:81-91 | the sort orders leave nothing open: every query has exactly one answer, so its offsets are stable |
| Browse.PagesAreTheSearch | internal/modules/catalog/browse.go:60-153 | enough pages put together list every published product of an approved seller that the filter asks for, each once, in the order asked for, and nothing else |

## Left out

- Stored text identifiers: the payment code of an order is its identifier in another notation, so receipts name orders directly; extracting a code from the text of a transfer is not modelled.
- OrderLock.BeginIsSerial: a transfer that matches no payment at its first read takes effect at that read; it locks no order.
- MarketStore.Store.Restock: rows are restocked in the order of the seller orders rather than by variant; the result does not depend on it.
- MarketStore.Store.Checkout: catalogue rows, the text of the address, the seller directory and the payment configuration are inputs of the call.
- Common text functions: case folding and trimming know ASCII letters and the common white space only.
- Deadlines and clocks: coupon validity is an integer time; other clocks decide nothing but which retries happen, and any choice of retries is allowed.
- Pipeline.NextKeeps: recovery may pick any claimed row, which covers the one-minute rule; partition choice by key is left open, so per-aggregate order is not claimed.
- PipelineWorkers.Cluster.RelayBatch: the rows the two queries return, and the answers of log and database, are inputs; the outer fetch loops of relay and consumer are the runs of the pipeline.
- Notification texts beyond title and body, marking as read and listing: single statements.
- Realtime publication from the notification consumer: best effort after the insert, with no effect on the table.
- SearchIndex.IndexConverges: the creation time of an event is its commit; a member that loses a key to another one has stopped working on its event, so a write that is still under way after a rebalance is not modelled; sales figures are not part of the document, because internal deliveries queue no event that would refresh them.
- SearchWorkers.Site.SearchDocument: category identifiers are listed in order although one of the two queries leaves their order open; ratings are exact rationals rather than doubles.
- SearchWorkers.Site.Process: events are well formed, as the services queue them; an envelope that is not is retried without end, and a record that does not decode stops the search consumer.
- SearchWorkers.Site.Reindex: a query or a write that fails ends the command, which is the abort step of the protocol.
- SearchIndex.NextKeeps: catalogue transactions may write any content, so the validation of inputs is not modelled.
- ProfileRuns.EventsCountOnce: one partition and one enricher at a time, with distinct event ids; expiry of profiles after thirty days is not modelled.
- ProfileWorkers.UserProfile.Update: decay factors are given by a function of age, and ties in the ranking may fall either way.
- The commit batching and dead lettering of the profile worker: its redelivery from any committed offset is covered by the runs.
- Hub.NextKeeps: handshake checks, token parsing, heartbeats and expiry end in the step that stops a peer.
- Chat typing notices, opening and listing conversations: no state that the properties speak of.
- Browse.Scan: the tables do not change while one search runs; units sold and ratings are columns of the rows. Searching with the search engine, whose ranking is foreign code, is left out.
- Coupon creation and preview, carts and their validation, reviews, wishlists, users and administration: they would only add simple members.
- HTTP and gRPC routing, tokens, password hashing, rate limits, mail, configuration, schema migration and calls to language models: plumbing and foreign code.
- Deadlock freedom: it depends on foreign-key locks of the database that the code does not show.
