/**
 * The cache-aside order service (`internal/service`): writes go to the
 * repository first and then to the cache, reads try the cache and fall back
 * to the repository, and start-up preloads the cache from the repository.
 *
 * The repository is modelled by an `OrderStore` object holding its rows and
 * the log of calls made to it; whether a call fails is an oracle parameter
 * (`fault`), since database and network errors are outside the model. The
 * value-level functions `*Spec` give the service's effect on the whole
 * `World` (cache, rows, call log) and its reply; each method is proved to
 * follow its function, and the lemmas state what cache-aside promises.
 */
module Service {
  import opened Wrappers
  import opened Errors
  import opened Orders
  import opened Cache

  /** A call the service makes on the repository, as the test mocks record them. */
  datatype StoreCall =
    | SaveCall(order: Order)
    | FetchCall(uid: string)
    | FetchLastCall(limit: int)

  /** The repository's rows, keyed by order UID, and the calls it has received. */
  datatype World = World(cache: Snapshot, rows: map<string, Order>, calls: seq<StoreCall>)

  /** A service call's effect and its reply. */
  datatype Step<+R> = Step(world: World, reply: R)

  /** `repository.ErrNotFound`. */
  const ErrNotFound := Error(NotFound, "order not found")

  const ProcessOp := "OrderService.ProcessNewOrder"
  const GetOp := "OrderService.GetOrderByUID"
  const PreloadOp := "OrderService.PreloadCache"

  /** Every row is stored under its own order's UID, as `SaveOrder` stores it. */
  predicate RowsKeyed(rows: map<string, Order>) {
    forall u :: u in rows ==> rows[u].orderUID == u
  }

  /** What the service needs of its cache: the shape every cache operation keeps, and room for one order. */
  predicate Ready(w: World, capacity: int) {
    MapInList(w.cache) && capacity >= 1
  }

  /** The repository's answer to `GetOrderByUID(uid)`. */
  function FetchReply(rows: map<string, Order>, uid: string, fault: Option<Error>): Result<Order, Error> {
    if fault.Some? then Failure(fault.value)
    else if uid in rows then Success(rows[uid])
    else Failure(ErrNotFound)
  }

  /** The orders `GetLastNOrders` returns for the chosen UIDs. */
  function RowsOf(rows: map<string, Order>, chosen: seq<string>): (r: seq<Order>)
    requires forall u :: u in chosen ==> u in rows
    ensures |r| == |chosen|
    ensures forall i :: 0 <= i < |chosen| ==> r[i] == rows[chosen[i]]
  {
    seq(|chosen|, i requires 0 <= i < |chosen| => rows[chosen[i]])
  }

  /** `ProcessNewOrder`: persist first, and cache only what was persisted. */
  function ProcessNewOrderSpec(w: World, capacity: int, o: Order, fault: Option<Error>): Step<Outcome<Error>>
    requires Ready(w, capacity)
  {
    var calls := w.calls + [SaveCall(o)];
    if fault.Some? then
      Step(w.(calls := calls), Fail(Describe(ProcessOp, fault.value)))
    else
      Step(World(AfterSet(w.cache, capacity, o), w.rows[o.orderUID := o], calls), Pass)
  }

  /** `GetOrderByUID`: a hit is served by the cache; a miss reads the repository and fills the cache on success. */
  function GetOrderByUIDSpec(w: World, capacity: int, uid: string, fault: Option<Error>): Step<Result<Order, Error>>
    requires Ready(w, capacity)
  {
    if uid in w.cache.entries then
      Step(w.(cache := AfterGet(w.cache, uid)), Success(w.cache.entries[uid]))
    else
      var calls := w.calls + [FetchCall(uid)];
      match FetchReply(w.rows, uid, fault)
      case Failure(e) => Step(w.(calls := calls), Failure(Wrap(GetOp, e)))
      case Success(o) => Step(World(AfterSet(w.cache, capacity, o), w.rows, calls), Success(o))
  }

  /** `PreloadCache`: replace the cache by the repository's latest orders, or leave it alone on failure. */
  function PreloadCacheSpec(w: World, capacity: int, limit: int, fault: Option<Error>, chosen: seq<string>): Step<Outcome<Error>>
    requires forall u :: u in chosen ==> u in w.rows
  {
    var calls := w.calls + [FetchLastCall(limit)];
    if fault.Some? then
      Step(w.(calls := calls), Fail(Describe(PreloadOp, fault.value)))
    else
      Step(World(Loaded(RowsOf(w.rows, chosen), capacity), w.rows, calls), Pass)
  }

  // ---------------------------------------------------------------------
  // What cache-aside promises

  /** Every service call keeps the cache in the shape the cache operations need. */
  lemma StepsKeepCacheLinked(w: World, capacity: int, o: Order, uid: string, fault: Option<Error>)
    requires Ready(w, capacity)
    ensures Ready(ProcessNewOrderSpec(w, capacity, o, fault).world, capacity)
    ensures Ready(GetOrderByUIDSpec(w, capacity, uid, fault).world, capacity)
  {
    SetKeepsShape(w.cache, capacity, o);
    GetKeepsShape(w.cache, capacity, uid);
    if uid !in w.cache.entries && FetchReply(w.rows, uid, fault).Success? {
      SetKeepsShape(w.cache, capacity, FetchReply(w.rows, uid, fault).value);
    }
  }

  /** A failed save is reported, with the repository's sentinel cut off, and neither the cache nor the rows change. */
  lemma SaveFailureLeavesCache(w: World, capacity: int, o: Order, e: Error)
    requires Ready(w, capacity)
    ensures var st := ProcessNewOrderSpec(w, capacity, o, Some(e));
      && st.reply == Fail(Error(Other, ProcessOp + ": " + e.text))
      && st.world.cache == w.cache
      && st.world.rows == w.rows
      && st.world.calls == w.calls + [SaveCall(o)]
  {
  }

  /**
   * After a successful save the order is cached: looking its UID up returns
   * it without touching the repository, whatever the repository would answer.
   */
  lemma SaveThenGetHits(w: World, capacity: int, o: Order, fault: Option<Error>)
    requires Ready(w, capacity)
    ensures var saved := ProcessNewOrderSpec(w, capacity, o, None);
      && saved.reply == Pass
      && saved.world.rows == w.rows[o.orderUID := o]
      && Ready(saved.world, capacity)
      && var got := GetOrderByUIDSpec(saved.world, capacity, o.orderUID, fault);
      && got.reply == Success(o)
      && got.world == saved.world
  {
    SetThenGet(w.cache, capacity, o);
  }

  /** A cache hit returns the cached order and makes no repository call. */
  lemma HitSkipsStore(w: World, capacity: int, uid: string, fault: Option<Error>)
    requires Ready(w, capacity) && uid in w.cache.entries
    ensures var got := GetOrderByUIDSpec(w, capacity, uid, fault);
      && got.reply == Success(w.cache.entries[uid])
      && got.world.calls == w.calls
      && got.world.rows == w.rows
      && got.world.cache.entries == w.cache.entries
  {
    GetHit(w.cache, capacity, uid);
  }

  /**
   * A miss that the repository answers returns the repository's order and
   * caches it, so the next lookup of the same UID is a hit.
   */
  lemma MissFillsCache(w: World, capacity: int, uid: string, fault: Option<Error>, again: Option<Error>)
    requires Ready(w, capacity) && RowsKeyed(w.rows)
    requires uid !in w.cache.entries && uid in w.rows && fault.None?
    ensures var got := GetOrderByUIDSpec(w, capacity, uid, fault);
      && got.reply == Success(w.rows[uid])
      && got.world.calls == w.calls + [FetchCall(uid)]
      && got.world.cache == AfterSet(w.cache, capacity, w.rows[uid])
      && Ready(got.world, capacity)
      && var next := GetOrderByUIDSpec(got.world, capacity, uid, again);
      && next.reply == Success(w.rows[uid])
      && next.world.calls == got.world.calls
  {
    SetThenGet(w.cache, capacity, w.rows[uid]);
  }

  /**
   * A miss that the repository cannot answer is an error that keeps the
   * repository's sentinel (not-found stays not-found), and nothing is
   * cached: there is no negative caching.
   */
  lemma MissFailureCachesNothing(w: World, capacity: int, uid: string, fault: Option<Error>)
    requires Ready(w, capacity)
    requires uid !in w.cache.entries && (fault.Some? || uid !in w.rows)
    ensures var got := GetOrderByUIDSpec(w, capacity, uid, fault);
      && got.reply.Failure?
      && got.reply.error.kind == (if fault.Some? then fault.value.kind else NotFound)
      && got.world.cache == w.cache
      && uid !in got.world.cache.entries
      && got.world.calls == w.calls + [FetchCall(uid)]
  {
  }

  /** A successful preload makes the cache exactly `LoadBatch` of the repository's reply; a failed one leaves it. */
  lemma PreloadOutcome(w: World, capacity: int, limit: int, fault: Option<Error>, chosen: seq<string>)
    requires forall u :: u in chosen ==> u in w.rows
    ensures var st := PreloadCacheSpec(w, capacity, limit, fault, chosen);
      && st.world.rows == w.rows
      && st.world.calls == w.calls + [FetchLastCall(limit)]
      && (fault.None? ==> st.reply == Pass && st.world.cache == Loaded(RowsOf(w.rows, chosen), capacity))
      && (fault.Some? ==> st.reply.Fail? && st.reply.error.kind == Other && st.world.cache == w.cache)
  {
  }

  /**
   * The repository returns each UID at most once, so a preload leaves a
   * well-formed cache holding the newest `capacity` of the orders returned.
   */
  lemma PreloadWellFormed(w: World, capacity: int, limit: int, chosen: seq<string>)
    requires forall u :: u in chosen ==> u in w.rows
    requires RowsKeyed(w.rows) && Distinct(chosen)
    ensures WellFormed(PreloadCacheSpec(w, capacity, limit, None, chosen).world.cache, capacity)
  {
    var orders := RowsOf(w.rows, chosen);
    var n := LoadCount(|orders|, capacity);
    forall i, j | 0 <= i < j < n ensures orders[i].orderUID != orders[j].orderUID {
      assert orders[i].orderUID == chosen[i] && orders[j].orderUID == chosen[j];
    }
    LoadedShape(orders, capacity);
  }

  // ---------------------------------------------------------------------
  // The objects

  /** The repository behind the `OrderRepository` interface. */
  class OrderStore {
    var rows: map<string, Order>
    var calls: seq<StoreCall>

    constructor (rows: map<string, Order>)
      ensures this.rows == rows && calls == []
    {
      this.rows := rows;
      calls := [];
    }

    /** `SaveOrder`: stores the order, unless the repository fails with `fault`. */
    method SaveOrder(o: Order, fault: Option<Error>) returns (err: Option<Error>)
      modifies this
      ensures calls == old(calls) + [SaveCall(o)]
      ensures err == fault
      ensures rows == if fault.None? then old(rows)[o.orderUID := o] else old(rows)
    {
      calls := calls + [SaveCall(o)];
      if fault.Some? {
        return fault;
      }
      rows := rows[o.orderUID := o];
      return None;
    }

    /** `GetOrderByUID`: the stored order, the not-found sentinel, or the failure. */
    method GetOrderByUID(uid: string, fault: Option<Error>) returns (r: Result<Order, Error>)
      modifies this
      ensures calls == old(calls) + [FetchCall(uid)] && rows == old(rows)
      ensures r == FetchReply(rows, uid, fault)
    {
      calls := calls + [FetchCall(uid)];
      if fault.Some? {
        return Failure(fault.value);
      }
      if uid !in rows {
        return Failure(ErrNotFound);
      }
      return Success(rows[uid]);
    }

    /**
     * `GetLastNOrders`: the stored orders under the UIDs the database picks
     * (`chosen`, each at most once), unless the repository fails.
     */
    method GetLastNOrders(limit: int, fault: Option<Error>, chosen: seq<string>) returns (r: Result<seq<Order>, Error>)
      requires forall u :: u in chosen ==> u in rows
      modifies this
      ensures calls == old(calls) + [FetchLastCall(limit)] && rows == old(rows)
      ensures r == if fault.Some? then Failure(fault.value) else Success(RowsOf(rows, chosen))
    {
      calls := calls + [FetchLastCall(limit)];
      if fault.Some? {
        return Failure(fault.value);
      }
      return Success(RowsOf(rows, chosen));
    }
  }

  class OrderService {
    const store: OrderStore
    const cache: LRUCache

    /** `NewOrderService`. */
    constructor (store: OrderStore, cache: LRUCache)
      ensures this.store == store && this.cache == cache
    {
      this.store := store;
      this.cache := cache;
    }

    function Now(): World
      reads store, cache
    {
      World(cache.State(), store.rows, store.calls)
    }

    method ProcessNewOrder(o: Order, fault: Option<Error>) returns (r: Outcome<Error>)
      requires Ready(Now(), cache.capacity)
      modifies store, cache
      ensures Step(Now(), r) == ProcessNewOrderSpec(old(Now()), cache.capacity, o, fault)
      ensures old(cache.Valid()) ==> cache.Valid()
    {
      var err := store.SaveOrder(o, fault);
      if err.Some? {
        return Fail(Describe(ProcessOp, err.value));
      }
      cache.Set(o);
      return Pass;
    }

    method GetOrderByUID(uid: string, fault: Option<Error>) returns (r: Result<Order, Error>)
      requires Ready(Now(), cache.capacity)
      modifies store, cache
      ensures Step(Now(), r) == GetOrderByUIDSpec(old(Now()), cache.capacity, uid, fault)
      ensures old(cache.Valid()) ==> cache.Valid()
    {
      var hit := cache.Get(uid);
      if hit.Some? {
        return Success(hit.value);
      }
      var fetched := store.GetOrderByUID(uid, fault);
      if fetched.Failure? {
        return Failure(Wrap(GetOp, fetched.error));
      }
      cache.Set(fetched.value);
      return fetched;
    }

    method PreloadCache(limit: int, fault: Option<Error>, chosen: seq<string>) returns (r: Outcome<Error>)
      requires forall u :: u in chosen ==> u in store.rows
      modifies store, cache
      ensures Step(Now(), r) == PreloadCacheSpec(old(Now()), cache.capacity, limit, fault, chosen)
      ensures old(cache.Linked()) ==> cache.Linked()
    {
      var orders := store.GetLastNOrders(limit, fault, chosen);
      if orders.Failure? {
        return Fail(Describe(PreloadOp, orders.error));
      }
      cache.LoadBatch(orders.value);
      return Pass;
    }
  }
}
