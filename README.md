# order-service core in Dafny

This project models the core of the order service (`order-service` in
stpnv0/WB-Tech-School-L0). The service takes orders off a Kafka topic, checks
them, stores them in a repository and keeps a bounded LRU cache of them for
reads. The model has four parts.

- **Validator** (`validator.dfy`). `Validate` runs four rule groups in a fixed
  order: order fields, delivery, payment, then every item. It collects every
  violated rule instead of stopping at the first one. It fails with kind
  `BadMessage` and the text `bad_message: ` followed by the violations joined
  with `"; "`. The methods follow the Go code step by step: one `if` per rule,
  appending to the error list. Each method is proved equal to a function
  (`Verdict`, `CheckDelivery`, …). Lemmas then state each rule group's meaning:
  - a violation is reported exactly when its rule is broken;
  - `Validate` passes exactly when the order `Conforms`.
- **Cache** (`cache.dfy`). `LRUCache` is a class with a map from UID to order
  and the recency list. The list is a sequence of keys, front first. `Set`,
  `Get` and `LoadBatch` are proved to leave exactly the state `AfterSet`,
  `AfterGet` and `Loaded` describe. Lemmas cover:
  - eviction of the least recently used key at capacity;
  - the size bound;
  - update in place;
  - a read following a write;
  - the contents after a batch load;
  - keeping the map and the list in step.
- **Order service** (`service.dfy`). `OrderService` combines the cache with an
  abstract repository, `OrderStore`. The store keeps its rows and a log of
  the calls it receives, as the tests' mocks do. Each method's effect on the
  whole `World` (cache, rows, calls) and its reply are proved equal to a
  function. Lemmas then state what cache-aside promises:
  - a failed save leaves the cache alone;
  - a saved order is read back from the cache without a store call;
  - a miss fills the cache;
  - a store error keeps its kind, so `NotFound` stays `NotFound`;
  - preloading loads the rows the store returned.
- **Consumer** (`kafka.dfy`). `Handle` is `processMessage` as a function:
  - an undecodable body is dead-lettered with reason `json_unmarshal_failed`;
  - an invalid order is dead-lettered with reason `validation_failed`;
  - a valid order goes to the service.

  The dead-letter headers carry `original_offset` as the decimal text of the
  offset. `Decimal.FormatInt` reads back through `Decimal.ParseInt`. The class
  `Consumer` runs the `Start` loop over a finite trace of fetch events. It is
  proved to follow `RunFrom`. The lemmas prove that:
  - a message is committed only when its processing returned no error;
  - nothing happens after cancellation.

The supporting modules are:
- `wrappers.dfy`: `Option`, `Result`, `Outcome`;
- `errors.dfy`: Go errors as a kind plus a text. The two wrapping verbs
  differ: `%w` keeps the kind (`Wrap`) and `%v` discards it (`Describe`);
- `text.dfy`: `strings.TrimSpace`, `strings.Join` and substring search;
- `decimal.dfy`: `strconv.FormatInt` and its inverse, in base 10, on 64-bit
  integers;
- `orders.dfy`: the order records.

`cache_examples.dfy` and `validator_examples.dfy` replay scenarios of the repository's unit tests as lemmas; `kafka_examples.dfy` is a hand-built trace of the consumer's loop.

Behaviour of the code worth knowing:
- `LoadBatch` pushes each order to the front of the list, so the batch's last
  loaded order ends up most recently used and its first least recently used.
  `Cache.LoadedContents` states the order the code produces, and
  `CacheExamples.LoadBatchScenario` shows it for `[A, B, C]`.
- `ProcessNewOrder` and `PreloadCache` wrap repository errors with `%v`, so the
  caller does not get back the repository's error identity.
  `Service.ProcessNewOrderSpec` returns `Describe(...)`, whose kind is `Other`.
  `GetOrderByUID` uses `%w`, and `Service.MissFailureCachesNothing` proves that
  its kind survives.
- The map/list bijection does not always hold. `LoadBatch` given two orders
  with the same UID keeps two list nodes for one map key.
  `Cache.LoadedShape` proves that the batch leaves a well-formed cache exactly
  when the loaded prefix has distinct UIDs. The model keeps such a state, and
  `Get` and `Set` work on any state whose map keys are all in the list
  (`Linked`).

## Model

| member | source | states |
|---|---|---|
| Validator.Validate | order-service/internal/validator/validate.go:14-31 | runs the four rule groups in order and returns the verdict: no error when nothing was collected, otherwise a `BadMessage` error whose text is `bad_message: ` and the joined violations |
| Validator.ValidateOrder | order-service/internal/validator/validate.go:33-49 | appends exactly the order-field violations, in rule order, to the list it is given |
| Validator.ValidateDelivery | order-service/internal/validator/validate.go:51-75 | appends exactly the delivery violations, in rule order, to the list it is given |
| Validator.ValidatePayment | order-service/internal/validator/validate.go:77-106 | appends exactly the payment violations, including the transaction/UID mismatch, in rule order |
| Validator.ValidateItem | order-service/internal/validator/validate.go:110-139 | appends exactly one item's violations, each prefixed with that item's index |
| Validator.ValidateItems | order-service/internal/validator/validate.go:108-141 | appends the violations of every item, item by item in index order |
| Validator.OrderReport | order-service/internal/validator/validate.go:33-49 | a rule's violation is reported iff that rule is broken (uid, track number, entry and delivery service given, creation time set) |
| Validator.DeliveryReport | order-service/internal/validator/validate.go:51-75 | a delivery violation is reported iff its field is blank or the email is rejected |
| Validator.PaymentReport | order-service/internal/validator/validate.go:77-106 | a payment violation is reported iff its rule is broken (transaction given and equal to the UID, currency and provider given, positive payment_dt, non-negative amount, delivery cost, goods total and custom fee) |
| Validator.ItemReport | order-service/internal/validator/validate.go:112-139 | an item violation is reported iff its rule is broken, including a track number that differs from the order's |
| Validator.ItemsReport | order-service/internal/validator/validate.go:108-141 | a violation is in the items report iff some item at that index breaks that rule |
| Validator.ItemsInIndexOrder | order-service/internal/validator/validate.go:109-140 | the reports of the items before item k, followed by item k's report, are a prefix of the whole items report |
| Validator.EmailOutcomes | order-service/internal/validator/validate.go:70-74 | the required message is reported iff the email is blank, the format message iff it is not blank and rejected, and never both |
| Validator.TransactionMismatchIndependent | order-service/internal/validator/validate.go:78-83 | the mismatch is reported iff transaction and UID differ, whether or not the transaction is blank |
| Validator.MissingIff | order-service/internal/validator/validate.go:34-36 | a field is missing iff it consists of white space only |
| Validator.BadMessageTextNames | order-service/internal/validator/validate.go:28 | the error text contains the message of every reported violation |
| Validator.ValidatePassesIff | order-service/internal/validator/validate.go:14-31 | `Validate` passes iff the order conforms to every rule; when it fails, the kind is `BadMessage` |
| Validator.ItemFaultNamed | order-service/internal/validator/validate.go:108-141 | a broken rule on item i puts `items[i]: ` and that rule's message into the error text |
| Text.TrimSpaceEmptyIff | order-service/internal/validator/validate.go:34 | `TrimSpace(s)` is empty iff every character of s is white space |
| Text.JoinContains | order-service/internal/validator/validate.go:28 | every element of a list occurs in the list joined with any separator |
| ValidatorExamples.SampleOrderPasses | order-service/internal/validator/validate_test.go:75-81 | the test's valid order passes validation |
| ValidatorExamples.FaultyItemReport | order-service/internal/validator/validate_test.go:427-447 | a second item with chrt_id 0 and a wrong track number reports exactly those two violations |
| ValidatorExamples.SecondItemReported | order-service/internal/validator/validate_test.go:427-447 | the error text names `items[1]` with both the chrt_id and the track-number message |
| Decimal.FormatInt | order-service/internal/kafka/consumer.go:129 | the decimal text of an offset starts with a minus sign exactly when it is negative, followed by at least one digit and no leading zero unless the offset is 0 |
| Decimal.FormatParseRoundTrip | order-service/internal/kafka/consumer.go:129 | parsing the decimal text of any 64-bit offset gives the offset back |
| Decimal.FormatIntInjective | order-service/internal/kafka/consumer.go:129 | different offsets have different decimal texts |
| Kafka.Consumer.constructor | order-service/internal/kafka/consumer.go:35-63 | a new consumer has sent nothing, handed nothing to the service and committed nothing |
| Kafka.Handle | order-service/internal/kafka/consumer.go:111-173 | a message is dead-lettered or handed to the service, never both; a dead letter goes to the dead-letter topic with the message's key and body; only the decoded order is handed over; an error comes only from a failed send or a failed service call |
| Kafka.Consumer.ProcessMessage | order-service/internal/kafka/consumer.go:111-173 | returns what `Handle` prescribes and records the dead letter or service call `Handle` prescribes; commits nothing |
| Kafka.Consumer.Poll | order-service/internal/kafka/consumer.go:75-106 | one loop turn does what the function `Kafka.Turn` (the body of the `for` loop at lines 74-107) prescribes for the fetch event |
| Kafka.Consumer.Start | order-service/internal/kafka/consumer.go:66-108 | the loop over a trace ends in the state the function `Kafka.RunFrom` (`Kafka.Turn` applied to each event in turn, lines 74-107) gives for the whole trace |
| Kafka.UndecodableIsDeadLettered | order-service/internal/kafka/consumer.go:116-138 | an undecodable body is sent to the dead-letter topic with its key, body and the four headers (reason `json_unmarshal_failed`), the service is not called, and the reply fails iff the send failed |
| Kafka.OffsetHeaderRoundTrip | order-service/internal/kafka/consumer.go:129 | the `original_offset` header of any dead letter parses back to the message offset |
| Kafka.InvalidIsDeadLettered | order-service/internal/kafka/consumer.go:148-163 | a decodable order that does not conform is dead-lettered with reason `validation_failed` and details naming every violation; the service is not called |
| Kafka.ServiceOnlyForValidOrders | order-service/internal/kafka/consumer.go:148-169 | the service receives the order iff the body decodes and the order conforms |
| Kafka.OkMeansHandled | order-service/internal/kafka/consumer.go:116-172 | processing succeeds iff the message was dead-lettered successfully or the service accepted the order |
| Kafka.TurnOutcomes | order-service/internal/kafka/consumer.go:76-105 | cancellation stops the loop, other fetch errors change nothing, and a fetched message is committed iff its processing succeeded |
| Kafka.TurnCommits | order-service/internal/kafka/consumer.go:93-105 | a turn adds the fetched message to the commits exactly when the loop was running, the event does not stop it, and processing returned no error; otherwise it adds nothing |
| Kafka.TurnFetched | order-service/internal/kafka/consumer.go:93-105 | a turn on a fetched message while the loop runs appends exactly the dead letter and service call `Handle` made, and commits the message iff processing returned no error |
| Kafka.StoppedStays | order-service/internal/kafka/consumer.go:76-85 | once the loop has returned, later events change nothing |
| Kafka.StopEndsRun | order-service/internal/kafka/consumer.go:76-85 | after a cancellation event the run is stopped and its trail is that of the events before it |
| Kafka.CommitsWereHandled | order-service/internal/kafka/consumer.go:93-105 | earlier commits stay as they were, and every new commit is a message fetched in the trace while the loop was running and then dead-lettered or stored successfully |
| KafkaExamples.FetchSkipFetchCancel | order-service/internal/kafka/consumer.go:74-107 | a trace opening with a fetched message, a transient fetch error, a second fetched message and a cancellation stops the loop and adds only what `Handle` did with the two messages, in fetch order |
| KafkaExamples.MixedTrace | order-service/internal/kafka/consumer.go:74-107 | a trace with a poison message, a transient fetch error, a store outage and a cancellation commits only the dead-lettered message and ignores what follows the cancellation |
| Cache.LRUCache.constructor | order-service/internal/cache/cache.go:21-27 | a new cache is empty and well formed, with the given capacity |
| Cache.LRUCache.Set | order-service/internal/cache/cache.go:30-55 | leaves the state `AfterSet` gives and keeps the map/list invariants |
| Cache.LRUCache.Get | order-service/internal/cache/cache.go:58-69 | returns the cached order if any and leaves the state `AfterGet` gives |
| Cache.LRUCache.LoadBatch | order-service/internal/cache/cache.go:72-93 | discards the old contents and leaves the state `Loaded` gives; the cache is well formed iff the loaded orders have distinct UIDs |
| Cache.GetHit | order-service/internal/cache/cache.go:62-68 | a hit returns the stored order, changes no entry, and moves the key to the front without changing the length |
| Cache.GetMiss | order-service/internal/cache/cache.go:62-65 | a miss returns nothing and changes nothing |
| Cache.GetKeepsShape | order-service/internal/cache/cache.go:58-69 | `Get` keeps every map key in the list and keeps a well-formed cache well formed |
| Cache.SetKeepsShape | order-service/internal/cache/cache.go:30-55 | `Set` keeps every map key in the list and keeps a well-formed cache well formed |
| Cache.SetBounded | order-service/internal/cache/cache.go:42-54 | `Set` on a list of at most `capacity` nodes leaves at most `capacity` nodes |
| Cache.SetExisting | order-service/internal/cache/cache.go:35-39 | setting a cached UID replaces its order, moves it to the front and leaves the size unchanged |
| Cache.SetEvictsLeastRecent | order-service/internal/cache/cache.go:42-54 | inserting a new UID into a full cache removes exactly the least recently used key |
| Cache.SetInsertsBelowCapacity | order-service/internal/cache/cache.go:49-54 | below capacity a new UID is added at the front and nothing is removed |
| Cache.SetThenGet | order-service/internal/cache/cache.go:49-68 | reading a UID right after setting it returns the order just set and changes nothing |
| Cache.PromoteIsWithout | order-service/internal/cache/cache.go:36 | moving a node to the front of a duplicate-free list equals the key followed by the list without it |
| Cache.LoadCountBounds | order-service/internal/cache/cache.go:81-84 | a batch load keeps at most `capacity` orders and at most the batch length |
| Cache.LoadedContents | order-service/internal/cache/cache.go:72-93 | after a batch load the list holds the loaded prefix in reverse order, and each map entry holds the last loaded order with that UID |
| Cache.LoadedDistinct | order-service/internal/cache/cache.go:85-90 | with distinct UIDs every loaded order is found under its UID |
| Cache.LoadedEmpty | order-service/internal/cache/cache.go:77-78 | loading an empty batch clears the cache |
| Cache.LoadedShape | order-service/internal/cache/cache.go:89-90 | after a batch load the map keys are in the list, and the cache is well formed iff the loaded UIDs are distinct |
| CacheExamples.EvictionScenario | order-service/internal/cache/cache_test.go:60-76 | with capacity 2, setting 1, 2, 3 evicts 1 and keeps 2 and 3 |
| CacheExamples.GetMovesToFrontScenario | order-service/internal/cache/cache_test.go:78-95 | reading 1 before setting 3 makes 2 the evicted key |
| CacheExamples.UpdateScenario | order-service/internal/cache/cache_test.go:40-58 | setting the same UID twice keeps one entry holding the second order |
| CacheExamples.LoadBatchScenario | order-service/internal/cache/cache_test.go:108-122 | loading A, B, C with capacity 2 keeps A and B, with B at the front, and drops C |
| Service.OrderService.constructor | order-service/internal/service/order_service.go:30-36 | the service uses the given store and cache |
| Service.OrderService.ProcessNewOrder | order-service/internal/service/order_service.go:38-56 | saves first and sets the cache only after a successful save; the world and reply are those of `ProcessNewOrderSpec` |
| Service.OrderService.GetOrderByUID | order-service/internal/service/order_service.go:58-87 | cache first, store on a miss, fill on success; the world and reply are those of `GetOrderByUIDSpec` |
| Service.OrderService.PreloadCache | order-service/internal/service/order_service.go:89-104 | fetches the latest orders and batch-loads them; the world and reply are those of `PreloadCacheSpec` |
| Service.OrderStore.SaveOrder | order-service/internal/service/order_service.go:13 | logs the call, and stores the order under its UID unless the call fails |
| Service.OrderStore.GetOrderByUID | order-service/internal/service/order_service.go:14 | logs the call and returns the stored order, `ErrNotFound` or the failure |
| Service.OrderStore.GetLastNOrders | order-service/internal/service/order_service.go:15 | logs the call and returns stored rows or the failure |
| Service.StepsKeepCacheLinked | order-service/internal/service/order_service.go:38-87 | every service call keeps the cache's map keys in its list |
| Service.SaveFailureLeavesCache | order-service/internal/service/order_service.go:47-50 | a failed save leaves cache and rows unchanged and reports an error whose kind is not kept |
| Service.SaveThenGetHits | order-service/internal/service/order_service.go:47-68 | after a successful save, reading the UID returns the saved order without a store call |
| Service.HitSkipsStore | order-service/internal/service/order_service.go:65-68 | a cache hit returns the cached order and makes no store call |
| Service.MissFillsCache | order-service/internal/service/order_service.go:71-86 | a miss calls the store exactly once; on success the next read of the UID is a hit with no further call |
| Service.MissFailureCachesNothing | order-service/internal/service/order_service.go:71-79 | a failed fetch caches nothing and keeps the error kind, so an absent UID reports `NotFound` |
| Service.PreloadOutcome | order-service/internal/service/order_service.go:94-100 | a failed fetch leaves the cache unchanged; otherwise the cache is the batch load of the returned orders |
| Service.PreloadWellFormed | order-service/internal/service/order_service.go:94-100 | preloading rows that are keyed by UID leaves a well-formed cache |

## Left out

- Logging (`log/slog`): the log calls in every core file, including the warning `Validate` writes, have no effect on results.
- Email syntax (`net/mail.ParseAddress`) is the parameter `validEmail`. The model states what the validator does for each answer of that check.
- JSON decoding (`encoding/json.Unmarshal`) is the function `decode` of the consumer's configuration. It yields an order or the decoder's error text.
- `time.Time` is an integer count of nanoseconds. The zero time is `0`.
- The cache's mutex and all concurrency: every operation is modelled as atomic.
- `internal/repository/postgres.go` is not part of this model. The repository is the abstract `OrderStore`; whether each call fails is the parameter `fault`.
- Service.OrderStore.SaveOrder: a second save of the same UID overwrites the row, while the SQL insert would fail. That failure can appear only through `fault`.
- Service.OrderStore.GetLastNOrders: which rows it returns is the parameter `chosen`, a list of stored UIDs; only `Service.PreloadWellFormed` assumes them distinct. The model does not claim descending creation time or at most `limit` rows.
- Nil pointers: the repository returning a nil order without an error, and nil entries in a batch, are not modelled.
- Cache.LRUCache.Set requires `SetDefined`: a key that is already cached, a non-empty list, or capacity at least 1. With capacity 0 or less and an empty list, the code passes the nil `Back()` element to `c.lru.Remove` (cache.go:44), which dereferences it and panics.
- Service.OrderService.ProcessNewOrder: the service is modelled only with a cache of capacity at least 1 (`Ready`), the case where `Set` cannot panic.
- The Kafka reader and broker: fetching is a finite trace of events, retry by redelivery is not modelled beyond "not committed", and the reply of `CommitMessages` is not modelled. The source only logs it.
- The dead-letter producer (`internal/kafka/producer.go`): its reply to `SendMessage` is part of the fetch event.
- Kafka.Handle keeps the branch where validation fails with a kind other than `BadMessage`. Returning no error there drops the message unreported. `Kafka.InvalidIsDeadLettered` shows the branch cannot be taken.
- The HTTP handler, router, configuration, `main` and the web page are outside the core.
- Violation messages are rule codes. `Validator.MessageOf` renders them to the source's literal texts only when the error text is built.
- `Validate` does not modify the order it is given: this holds because Dafny values are immutable and is not stated separately.
