/**
 * The cache-aside service (internal/service/order_service.go): saves go to
 * the store and then to the cache; reads try the cache, then the store.
 */
module Service {
  import opened Wrappers
  import opened Models
  import opened Repository
  import Cache

  /** What a save leaves behind: the store, the cache, the caller's order, and the error returned. */
  datatype Submitted = Submitted(db: Tables, cache: map<string, Order>, order: Order, err: Option<DbError>)

  /**
   * `SaveOrder`: the repository save, then the items query for the order's
   * UID, whose result replaces the caller's items before the order is cached.
   */
  function Submit(db: Tables, cache: map<string, Order>, o: Order,
                  saveFaults: TxStep -> bool, readBackFails: bool): Submitted
  {
    match SaveError(|o.items.Elements()|, saveFaults)
    case Some(e) => Submitted(db, cache, o, Some(e))
    case None =>
      var db' := SaveEffect(db, o);
      if readBackFails then Submitted(db', cache, o, Some(QueryFailed))
      else
        var o' := o.(items := StoredItems(db', o.orderUID));
        Submitted(db', cache[o.orderUID := o'], o', None)
  }

  /** What a read leaves behind: the result and the cache. */
  datatype Read = Read(result: Result<Order, DbError>, cache: map<string, Order>)

  /**
   * `GetOrderByUID`: a cache hit is returned as is; on a miss the repository
   * read, then a second items query, and the order is cached.
   */
  function ReadThrough(db: Tables, cache: map<string, Order>, uid: string,
                       f: ReadFaults, itemsFail: bool): Read
  {
    if uid in cache then Read(Success(cache[uid]), cache)
    else match FindOrder(db, uid, f)
      case Failure(e) => Read(Failure(e), cache)
      case Success(o) =>
        if itemsFail then Read(Failure(QueryFailed), cache)
        else
          var o' := o.(items := StoredItems(db, uid));
          Read(Success(o'), cache[uid := o'])
  }

  /**
   * A failed save returns the repository's error and touches neither the
   * cache nor the caller's order; the store is unchanged too unless only the
   * read-back failed, in which case the rows are stored but an error is
   * still returned.
   */
  lemma SubmitFailure(db: Tables, cache: map<string, Order>, o: Order,
                      saveFaults: TxStep -> bool, readBackFails: bool)
    ensures var s := Submit(db, cache, o, saveFaults, readBackFails);
      s.err.Some? ==> s.cache == cache && s.order == o
    ensures var s := Submit(db, cache, o, saveFaults, readBackFails);
      SaveError(|o.items.Elements()|, saveFaults).Some? ==>
        s.err == SaveError(|o.items.Elements()|, saveFaults) && s.db == db
    ensures var s := Submit(db, cache, o, saveFaults, readBackFails);
      SaveError(|o.items.Elements()|, saveFaults).None? && readBackFails ==>
        s.err == Some(QueryFailed) && s.db == SaveEffect(db, o)
  {
  }

  /**
   * A save succeeds exactly when the transaction and the read-back succeed;
   * the caller's order then carries the items read back, and the cache holds
   * it under its UID while every other entry stays as it was.
   */
  lemma SubmitSuccess(db: Tables, cache: map<string, Order>, o: Order,
                      saveFaults: TxStep -> bool, readBackFails: bool)
    ensures var s := Submit(db, cache, o, saveFaults, readBackFails);
      s.err.None? <==> SaveError(|o.items.Elements()|, saveFaults).None? && !readBackFails
    ensures var s := Submit(db, cache, o, saveFaults, readBackFails);
      s.err.None? ==>
        && s.db == SaveEffect(db, o)
        && s.order == o.(items := StoredItems(s.db, o.orderUID))
        && o.orderUID in s.cache && s.cache[o.orderUID] == s.order
        && forall k | k in cache && k != o.orderUID :: k in s.cache && s.cache[k] == cache[k]
  {
  }

  /** A cache hit returns the cached order whatever the store holds and however its queries would fare. */
  lemma ReadHitIgnoresStore(db1: Tables, db2: Tables, cache: map<string, Order>, uid: string,
                            f1: ReadFaults, f2: ReadFaults, i1: bool, i2: bool)
    requires uid in cache
    ensures ReadThrough(db1, cache, uid, f1, i1) == ReadThrough(db2, cache, uid, f2, i2)
    ensures ReadThrough(db1, cache, uid, f1, i1) == Read(Success(cache[uid]), cache)
  {
  }

  /**
   * On a miss the read returns what the store holds for the UID and caches
   * it; the second items query changes nothing when it succeeds. A failed
   * read returns the repository's error and leaves the cache unchanged.
   */
  lemma ReadMiss(db: Tables, cache: map<string, Order>, uid: string, f: ReadFaults, itemsFail: bool)
    requires uid !in cache
    ensures var r := ReadThrough(db, cache, uid, f, itemsFail);
      r.result.Success? <==> FindOrder(db, uid, f).Success? && !itemsFail
    ensures var r := ReadThrough(db, cache, uid, f, itemsFail);
      r.result.Success? ==>
        r.result.value == FindOrder(db, uid, f).value && r.cache == cache[uid := r.result.value]
    ensures var r := ReadThrough(db, cache, uid, f, itemsFail);
      FindOrder(db, uid, f).Failure? ==> r.result == Failure(FindOrder(db, uid, f).error) && r.cache == cache
    ensures var r := ReadThrough(db, cache, uid, f, itemsFail);
      r.result.Failure? ==> r.cache == cache
  {
  }

  /**
   * Cache/store consistency: once a save has succeeded, reading its UID
   * returns the saved order from the cache, whatever the store and its
   * queries do.
   */
  lemma SubmitThenRead(db: Tables, cache: map<string, Order>, o: Order,
                       saveFaults: TxStep -> bool, readBackFails: bool,
                       later: Tables, f: ReadFaults, itemsFail: bool)
    requires Submit(db, cache, o, saveFaults, readBackFails).err.None?
    ensures var s := Submit(db, cache, o, saveFaults, readBackFails);
      ReadThrough(later, s.cache, o.orderUID, f, itemsFail) == Read(Success(s.order), s.cache)
  {
  }

  /**
   * With the keyed save in place of the as-written one, an order saved under
   * a fresh UID is served from the store on a cache miss, with its items.
   */
  lemma KeyedSaveServesMiss(t: Tables, cache: map<string, Order>, o: Order)
    requires FreshUID(t, o.orderUID) && o.orderUID !in cache
    ensures var r := ReadThrough(KeyedSaveEffect(t, o), cache, o.orderUID, ReadFaults(false, false), false);
      r.result == Success(Rehydrated(o)) && r.cache == cache[o.orderUID := Rehydrated(o)]
  {
    KeyedSaveRoundTrip(t, o);
    FindOrderSpec(KeyedSaveEffect(t, o), o.orderUID, ReadFaults(false, false));
  }

  class OrderService {
    const repo: OrderRepository
    const cache: Cache.Cache

    constructor (repo: OrderRepository, cache: Cache.Cache)
      ensures this.repo == repo && this.cache == cache
    {
      this.repo := repo;
      this.cache := cache;
    }

    /** Saves the order, reads its items back into `order`, and caches it. */
    method SaveOrder(order: OrderRef, saveFaults: TxStep -> bool, readBackFails: bool)
      returns (err: Option<DbError>)
      modifies repo, cache, order
      ensures Submitted(repo.db, cache.data, order.value, err)
           == Submit(old(repo.db), old(cache.data), old(order.value), saveFaults, readBackFails)
    {
      err := repo.SaveOrder(order.value, saveFaults);
      if err.Some? {
        return;
      }
      var items := repo.GetItemByOrderUID(order.value.orderUID, readBackFails);
      if items.Failure? {
        return Some(items.error);
      }
      order.value := order.value.(items := items.value);
      cache.Set(order.value);
    }

    /** The cached order, or the stored one, which is then cached. */
    method GetOrderByUID(orderUID: string, f: ReadFaults, itemsFail: bool)
      returns (r: Result<Order, DbError>)
      modifies cache
      ensures Read(r, cache.data) == ReadThrough(repo.db, old(cache.data), orderUID, f, itemsFail)
    {
      var cached, found := cache.Get(orderUID);
      if found {
        return Success(cached);
      }
      var order := repo.GetOrderByUID(orderUID, f);
      if order.Failure? {
        return Failure(order.error);
      }
      var items := repo.GetItemByOrderUID(orderUID, itemsFail);
      if items.Failure? {
        return Failure(items.error);
      }
      var o := order.value.(items := items.value);
      FindOrderSpec(repo.db, orderUID, f);
      cache.Set(o);
      return Success(o);
    }
  }
}
