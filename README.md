# order-service, modelled in Dafny

A model of the core of `order-service`. The service reads order messages from
a Kafka topic. It validates each order, saves it to PostgreSQL in one
transaction, and caches it in memory. It serves orders by UID, from the cache
first.

The project has one module per Go package:

- `Models` (`models.dfy`): the order, delivery, payment and item records.
  The nil/empty distinction of Go slices is kept as `Slice<T> = Nil | Slice(elems)`.
  The module also holds the flat join row `OrderDB`, the validity rules of the
  `validate:` tags, and the validator's per-field error report.
- `Mapper` (`mapper.dfy`): join row to order, one row and a slice of rows.
- `Cache` (`cache.dfy`): the cache, a class over a `map`.
- `Repository` (`repository.dfy`): the store, as four tables of rows in
  insertion order. `OrderRepository` is a class whose `SaveOrder` runs the
  transaction step by step on a staged copy. Which statement fails is an
  input: a fault oracle over the steps `Begin`, `InsertOrder`, `InsertPayment`,
  `InsertItem(k)`, `InsertDelivery`, `CommitTx`. The reads are the inner joins
  and the items query, written as functions on the tables.
- `Service` (`service.dfy`): the cache-aside service. `Submit` and
  `ReadThrough` are pure specifications. The `OrderService` class is proved
  against them; its `SaveOrder` also overwrites the caller's order.
- `Consumer` (`consumer.dfy`): the consumer goroutine's loop. The fetch
  results are a finite sequence. Each result carries the outcomes of the I/O
  done for it: save faults, a read-back failure, commit success, dead-letter
  write success. `Consume` is proved equal to the fold `Apply` over the
  results before the first cancellation. The lemmas about the consumer are
  stated on `Apply`.

The JSON decoder is a parameter `decode: Bytes -> Option<Order>`. The email
syntax of the validator is a parameter `isEmail`. Fields tagged `json:"-"`
(the back-reference `OrderUID` of delivery, payment and item) are never set
by decoding. `DecoderLeavesKeysEmpty` states this, and the lemmas that depend
on it require it.

Behaviour of the code worth knowing:

- A payload that does not decode is committed and logged. It is not sent to
  the dead-letter topic. Only decoded orders that fail validation are sent there.
- `Items` carries `required,dive,required`. `required` on a slice rejects
  only nil, so an empty JSON array `[]` is valid and only a missing or `null`
  array is rejected. Requiring at least one item would need `min=1`.
- The save is a plain `INSERT`, not an idempotent upsert. A redelivered
  message stores its rows again (see Findings).
- The cache has no capacity and no expiry. `NewCache()` takes no arguments.
  `internal/cache/cache_test.go` calls `NewCache(cap, ttl)` and expects LRU
  eviction and TTL expiry, which this cache does not have.
- `ValidateOrder` and `RestoreCacheFromDB` are called or tested, but the
  service file does not define them. Validation is modelled as the
  `validate:` tags say (`ValidOrder`). `RestoreCacheFromDB` is not part of
  this model.

## Model

| member | source | states |
|---|---|---|
| Models.ValidOrder | internal/models/order.go:3-58 | The order passes every `validate:` tag: required strings non-empty, required ints non-zero, `gte=0` fields non-negative, the email well formed, `Items` non-nil with every item valid. |
| Models.ValidIffNoViolations | internal/models/order.go:3-58 | An order satisfies every `validate:` tag exactly when the validator library's per-field error report for it is empty. The report is library behaviour; the shown code reads only whether it is empty. |
| Models.ItemsViolationsEmpty | internal/models/order.go:17 | In the validator library's report, `dive,required` over the items reports nothing exactly when every item is valid. |
| Models.ItemViolationLocatesItem | internal/models/order.go:45-58 | In the validator library's report, every item-level violation names an index inside the slice, and the item at that index is invalid. |
| Mapper.MapOrderDBToModel | internal/mapper/order_mapper.go:8-43 | The order projects back onto exactly the join row it came from. Its items are nil. The delivery's and payment's `OrderUID` stay empty. |
| Mapper.MapRowOfOrder | internal/mapper/order_mapper.go:8-43 | Mapping an order's own join row returns the order, less its items and the two back-references. |
| Mapper.MapOrdersDBToModels | internal/mapper/order_mapper.go:46-52 | The result has one order per row, in row order, and element k is row k mapped. |
| Cache.Cache.constructor | internal/cache/cache.go:15-19 | A new cache holds no orders. |
| Cache.Cache.Set | internal/cache/cache.go:22-26 | The order is stored under its UID and replaces any previous one. Every other entry is unchanged. |
| Cache.Cache.Get | internal/cache/cache.go:29-34 | Found exactly when the UID is a key. Then the stored order is returned, otherwise the zero order. The cache is unchanged. |
| Cache.SetThenGet | internal/cache/cache_test.go:11-21 | After `Set(o)`, `Get` of its UID finds `o`. |
| Cache.ThreeSetsAllRetained | internal/cache/cache_test.go:38-57 | After three sets with distinct UIDs, all three orders are found. Nothing is evicted. |
| Repository.FirstFault | internal/repository/order_repo.go:31-114 | The index of the first failing step. Every step before it succeeds. |
| Repository.SaveEffect | internal/repository/order_repo.go:45-106 | The rows a successful save appends: the order row, the payment, each item in slice order, the delivery, each sub-row with its own `order_uid`. |
| Repository.SaveErrorIsFirstFault | internal/repository/order_repo.go:31-114 | A save succeeds exactly when no step fails. A failure reports a step that failed, and every step before it succeeded. |
| Repository.OrderRepository.constructor | internal/repository/order_repo.go:26-28 | The repository wraps the given tables. |
| Repository.OrderRepository.SaveOrder | internal/repository/order_repo.go:31-114 | Returns the error of the first failing step. On success it appends the order row, the payment row, one row per item in order, and the delivery row. On failure the tables are unchanged, as the rollback leaves them. |
| Repository.Select | internal/repository/order_repo.go:123-125 | The rows selected are exactly the table's rows whose `order_uid` is the UID. |
| Repository.SelectEmpty | internal/repository/order_repo.go:156-159 | Selecting by UID finds nothing exactly when no row carries the UID. |
| Repository.ItemsFor | internal/repository/order_repo.go:137-138 | The items query returns at most the table's rows, each without its `order_uid`, because that column is not selected. |
| Repository.ItemsForRows | internal/repository/order_repo.go:137-141 | The items query returns exactly the item rows keyed by the UID, each without its `order_uid`. |
| Repository.ItemsForEmpty | internal/repository/order_repo.go:137-141 | The items query finds nothing exactly when no item row is keyed by the UID. |
| Repository.Cross | internal/repository/order_repo.go:123-125 | An order row joins to nothing exactly when it lacks a delivery or a payment. Every joined row carries the order's UID. |
| Repository.CrossRows | internal/repository/order_repo.go:118-125 | The join rows of one order row are exactly its pairings with each given delivery and each given payment. |
| Repository.Join | internal/repository/order_repo.go:118-125 | `orders JOIN deliveries JOIN payments` on `order_uid`, with the selected columns of `OrderDB`. |
| Repository.JoinRows | internal/repository/order_repo.go:118-125 | The join holds exactly the rows pairing an order row with a delivery and a payment that carry its UID. |
| Repository.JoinFor | internal/repository/order_repo.go:151-159 | The join restricted to order rows with the given UID. |
| Repository.InnerJoin | internal/repository/order_repo.go:151-159 | The single-order join finds a row exactly when an order row, a delivery row and a payment row all carry the UID. Every row it finds belongs to the UID. |
| Repository.FindOrder | internal/repository/order_repo.go:150-175 | The single-order read: a failed join query, "no rows", a failed items query, or the first joined row mapped with the stored items. |
| Repository.FindOrderSpec | internal/repository/order_repo.go:150-175 | The read succeeds exactly when neither query fails and all three rows exist. A missing row reads as "no rows". The order found has the UID, the items query's items and empty back-references. Its scalar, delivery and payment fields are those of a stored order row, delivery row and payment row all keyed by the UID. |
| Repository.OrderRepository.GetItemByOrderUID | internal/repository/order_repo.go:136-147 | Fails exactly when the query fails. Otherwise it returns the stored items for the UID, nil when there are none. |
| Repository.OrderRepository.GetOrderByUID | internal/repository/order_repo.go:150-175 | Returns `FindOrder`: the first joined row mapped, with the items query's result as its items, or the error. |
| Repository.OrderRepository.GetAllOrders | internal/repository/order_repo.go:117-133 | Fails exactly when the query fails. Otherwise it returns one order per joined row, in join order, each projecting back onto its row, each with nil items and empty back-references. |
| Repository.SaveDecodedKeepsUnkeyed | internal/repository/order_repo.go:61-103 | Saving a decoded order adds delivery, payment and item rows only with an empty `order_uid`. |
| Repository.UnkeyedStoreUnreadable | internal/repository/order_repo.go:136-175 | In a store without keyed sub-rows, no non-empty UID can be read back, and no items are found for it. |
| Repository.DecodedOrderUnreadableAfterSave | internal/repository/order_repo.go:31-114 | As written: a decoded order saved into an empty store reads back as "no rows" and has no items. |
| Repository.KeyedSaveJoin | internal/repository/order_repo.go:151-159 | Corrected: after a keyed save of a fresh UID, the single-order join finds exactly that order's row. |
| Repository.KeyedSaveItems | internal/repository/order_repo.go:136-147 | Corrected: after a keyed save of a fresh UID, the items query returns the order's items without their `order_uid`. |
| Repository.KeyedSaveRoundTrip | internal/repository/order_repo.go:31-175 | Corrected: after a save that keys sub-rows by the order's UID, reading a fresh UID returns the order with its saved items. |
| Repository.ResaveDuplicatesRows | internal/repository/order_repo.go:45-58 | As written: saving the same order twice stores its order row twice more than before. |
| Repository.UpsertSaveIdempotent | internal/repository/order_repo.go:45-58 | Corrected: an insert-or-ignore save is idempotent. |
| Service.Submit | internal/service/order_service.go:23-40 | The save: the repository transaction, then the items query for the UID, whose result replaces the caller's items before the order is cached. |
| Service.ReadThrough | internal/service/order_service.go:43-66 | The read: a cache hit as is; on a miss the repository read, a second items query, and caching. |
| Service.SubmitFailure | internal/service/order_service.go:23-40 | A failed save leaves the cache and the caller's order unchanged and returns the repository's error. The store changes only when just the read-back failed. |
| Service.SubmitSuccess | internal/service/order_service.go:23-40 | A save succeeds exactly when the transaction and the read-back succeed. The caller's order then carries the read-back items and is cached under its UID. Other entries are kept. |
| Service.ReadHitIgnoresStore | internal/service/order_service.go:43-47 | A cache hit returns the cached order, whatever the store holds and however its queries fare. |
| Service.ReadMiss | internal/service/order_service.go:49-66 | On a miss the read succeeds exactly when the store read and the items query succeed. It then returns the stored order and caches it. A failed read leaves the cache unchanged. |
| Service.SubmitThenRead | internal/service/order_service.go:23-66 | After a successful save, reading its UID returns the saved order from the cache. |
| Service.KeyedSaveServesMiss | internal/service/order_service.go:49-66 | With the corrected save, a fresh order is served from the store on a cache miss, with its items, and then cached. |
| Service.OrderService.constructor | internal/service/order_service.go:15-20 | The service holds the given repository and cache. |
| Service.OrderService.SaveOrder | internal/service/order_service.go:23-40 | The store, the cache, the caller's order and the error are as `Submit` says. |
| Service.OrderService.GetOrderByUID | internal/service/order_service.go:43-66 | The result and the cache are as `ReadThrough` says. |
| Consumer.Reader.CommitMessages | internal/kafka/consumer.go:82-86 | A commit appends the message to the commit log exactly when the broker accepts it. |
| Consumer.DlqWriter.WriteMessages | internal/kafka/consumer.go:147-151 | A write appends the payload to the dead-letter topic exactly when it succeeds. |
| Consumer.SendToDLQ | internal/kafka/consumer.go:142-155 | Without a writer nothing happens. Otherwise the payload is published if the write succeeds. No error reaches the caller. |
| Consumer.Handle | internal/kafka/consumer.go:59-86 | One fetched message: undecodable, invalid, not saved, or saved, with the commit and dead-letter outcomes. |
| Consumer.Apply | internal/kafka/consumer.go:44-88 | The fetch results handled one after another, in fetch order. |
| Consumer.StopIndex | internal/kafka/consumer.go:45-54 | The loop stops at the first cancellation or expired deadline. Nothing before it stops the loop. |
| Consumer.Consume | internal/kafka/consumer.go:44-88 | The loop returns at `StopIndex`. It leaves the store, the cache, the commit log and the dead letters as `Apply` says for the results before that index. |
| Consumer.HandleUndecodable | internal/kafka/consumer.go:59-64 | An undecodable payload is committed exactly when the broker accepts, and is neither saved, cached nor dead-lettered. |
| Consumer.HandleInvalid | internal/kafka/consumer.go:66-72 | An invalid order is neither saved nor cached. It is dead-lettered exactly when a writer exists and the write succeeds, and committed exactly when the broker accepts. |
| Consumer.HandleAccepted | internal/kafka/consumer.go:74-86 | A valid order goes through the service's save and is never dead-lettered. It is committed exactly when the save succeeds and the broker accepts. |
| Consumer.StoredOrdersAreAccepted | internal/kafka/consumer.go:59-79 | The order table only grows, and every order row the loop adds belongs to a fetched message whose payload decodes to a valid order. |
| Consumer.CommitRequiresSave | internal/kafka/consumer.go:59-86 | The commit log and the order table only grow. Every newly committed message did not decode, failed validation, or has its order row in the store. |
| Consumer.DeadLettersAreRejected | internal/kafka/consumer.go:59-72 | The dead letters only grow, and each new one decodes to an order that fails validation. |
| Consumer.IngestKeepsStoreValid | internal/kafka/consumer.go:66-79 | If every stored row satisfies its record's validation rules, ingestion keeps it so. Which orders are saved at all is `StoredOrdersAreAccepted`. |
| Consumer.IngestedOrdersStayUnkeyed | internal/kafka/consumer.go:59-79 | As written: ingestion never stores a keyed sub-row and caches every order with nil items. |
| Consumer.RedeliveryAfterSaveFailure | internal/kafka/consumer.go:75-79 | If a message whose transaction failed is fetched again, the second handling stores the order once, commits once and dead-letters nothing. |
| Consumer.RedeliveryAfterReadBackFailure | internal/kafka/consumer.go:75-79 | As written: if only the read-back failed, the message is not committed. If it is fetched again, the order row is stored a second time. |

## Left out

- Logging (`log.Printf`), the error message texts, and the `fmt.Errorf` wrapping. Errors are modelled by kind (`TxFailed(step)`, `NoRows`, `QueryFailed`).
- Concurrency: the cache's `sync.RWMutex` and the consumer goroutine. Every operation is modelled as atomic.
- Kafka setup (`StartConsumer` dialing, `ensureTopic`, `InitDLQWriter`, `StopConsumer`). The model starts from a reader, an optional dead-letter writer and a service. The broker's redelivery order is the order of the fetch results.
- The JSON decoder and the validator's email syntax are parameters. The model does not define them.
- The database schema is not part of this model. No primary key, foreign key or uniqueness constraint is assumed, so an insert fails only through the fault oracle.
- Integer widths: `int` and `int64` fields are unbounded. Decoding is abstract, so overflow cannot arise in the model.
- `ValidateOrder` and `RestoreCacheFromDB` are not defined in the service file, so they are not part of this model. Validation follows the `validate:` tags instead.
- `cmd/`, `config/`, the HTTP handler, the router and the server are outside the modelled core.
- Consumer.Reader.CommitMessages: commits are modelled as a log of individual messages. A Kafka commit moves the partition's committed offset past the message and so also acknowledges every earlier message; the model does not capture that. Redelivery is an input, not derived: the fetch results may repeat a message, whereas within one session the reader does not fetch an uncommitted message again. `Consumer.CommitRequiresSave` therefore holds per message; a later commit can still acknowledge an earlier message whose save failed.
- Query result order: none of the queries has an `ORDER BY`, and `Get` keeps the first row the server returns. The model fixes both to table insertion order. `Repository.KeyedSaveRoundTrip` (items in saved order), `Repository.OrderRepository.GetAllOrders` (join order) and `Repository.FindOrder` (the first joined row) rest on that choice; SQL does not guarantee it.
- Consumer.Consume: the loop is modelled over a finite sequence of fetch results. The Go loop runs until cancellation and never ends by itself.

## Findings

| source | as written | input that shows it | evidently intended | confidence | as-written member | corrected member |
|---|---|---|---|---|---|---|
| internal/repository/order_repo.go:61-103 | The payment, item and delivery inserts bind `:order_uid` from the sub-record. That field is tagged `json:"-"`, so after decoding it is always empty. | Any valid decoded order with UID `"u1"`, saved into an empty store: `GetOrderByUID("u1")` finds no delivery or payment keyed `"u1"` and fails with "no rows", and the items query returns nothing. | Key every sub-row by the order's own `order_uid`, so a saved order can be read back with its items. | not executed | Repository.DecodedOrderUnreadableAfterSave | Repository.KeyedSaveRoundTrip |
| internal/repository/order_repo.go:45-58 | `SaveOrder` uses a plain `INSERT`. The consumer leaves a message uncommitted when the read-back after a successful save fails, so the message may be fetched again and saved again. Without a uniqueness constraint the rows are duplicated, as modelled; with a primary key on `orders.order_uid` the second save fails instead, the message is never committed, and each new fetch fails again. | Save order `o` twice: the orders table holds `Header(o)` twice more than before. | Insert-or-ignore keyed by `order_uid`, so saving again changes nothing. | not executed | Repository.ResaveDuplicatesRows | Repository.UpsertSaveIdempotent |

`Service` and `Consumer` model the program as written, with the as-written save.
The corrected definitions are proved next to the as-written ones. `Service.KeyedSaveServesMiss`
shows the service's read path serving an order saved with the corrected save.
