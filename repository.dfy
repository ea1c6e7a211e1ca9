/**
 * The order store (internal/repository/order_repo.go). The database is four
 * tables, each a sequence of rows in insertion order. The schema is not part
 * of this model, so no key or uniqueness constraint is assumed. A failing
 * statement is an input: a fault oracle for the save's steps, a flag for
 * each query.
 */
module Repository {
  import opened Wrappers
  import opened Models
  import Mapper

  datatype Tables = Tables(
    orders: seq<OrderRow>,
    payments: seq<Payment>,
    items: seq<Item>,
    deliveries: seq<Delivery>)

  const NoTables := Tables([], [], [], [])

  /** The statements of `SaveOrder`'s transaction; `InsertItem(k)` inserts the k-th item. */
  datatype TxStep = Begin | InsertOrder | InsertPayment | InsertItem(index: nat) | InsertDelivery | CommitTx

  /** A transaction step failed; the single-row join found nothing (`sql.ErrNoRows`); a query failed. */
  datatype DbError = TxFailed(step: TxStep) | NoRows | QueryFailed

  /** Which query of a single-order read fails: the join, or the items query after it. */
  datatype ReadFaults = ReadFaults(joinFails: bool, itemsFail: bool)

  // ---------------------------------------------------------------------------
  // Saving
  // ---------------------------------------------------------------------------

  /** The steps of saving an order with `n` items, in the order the code takes them. */
  function SaveSteps(n: nat): seq<TxStep> {
    [Begin, InsertOrder, InsertPayment] + seq(n, k requires 0 <= k < n => InsertItem(k)) + [InsertDelivery, CommitTx]
  }

  lemma SaveStepsAt(n: nat)
    ensures |SaveSteps(n)| == n + 5
    ensures SaveSteps(n)[0] == Begin && SaveSteps(n)[1] == InsertOrder && SaveSteps(n)[2] == InsertPayment
    ensures forall k | 0 <= k < n :: SaveSteps(n)[3 + k] == InsertItem(k)
    ensures SaveSteps(n)[n + 3] == InsertDelivery && SaveSteps(n)[n + 4] == CommitTx
  {
  }

  /** The index of the first step that fails, or `|steps|` when none does. */
  function FirstFault(steps: seq<TxStep>, fails: TxStep -> bool): (k: nat)
    ensures k <= |steps|
    ensures forall j | 0 <= j < k :: !fails(steps[j])
    ensures k < |steps| ==> fails(steps[k])
    decreases |steps|
  {
    if steps == [] || fails(steps[0]) then 0 else 1 + FirstFault(steps[1..], fails)
  }

  /** The error a save of an order with `n` items reports: the first step that fails, if any. */
  function SaveError(n: nat, fails: TxStep -> bool): Option<DbError> {
    var steps := SaveSteps(n);
    var k := FirstFault(steps, fails);
    if k < |steps| then Some(TxFailed(steps[k])) else None
  }

  /**
   * The rows a successful save adds, as the code binds them: the order row
   * from the order, and the payment, item and delivery rows from the
   * sub-records themselves, each with its own `order_uid`.
   */
  function SaveEffect(t: Tables, o: Order): Tables {
    Tables(t.orders + [Header(o)],
           t.payments + [o.payment],
           t.items + o.items.Elements(),
           t.deliveries + [o.delivery])
  }

  /**
   * A save that fails reports the step that failed, and every step before it
   * succeeded; in particular an item failure names an item of the order, and
   * the order and payment inserts and all earlier items succeeded.
   */
  lemma SaveErrorIsFirstFault(n: nat, fails: TxStep -> bool)
    ensures SaveError(n, fails).None? <==>
      (!fails(Begin) && !fails(InsertOrder) && !fails(InsertPayment)
       && (forall k | 0 <= k < n :: !fails(InsertItem(k)))
       && !fails(InsertDelivery) && !fails(CommitTx))
    ensures SaveError(n, fails).Some? ==> fails(SaveError(n, fails).value.step)
    ensures SaveError(n, fails) == Some(TxFailed(InsertDelivery)) ==>
      !fails(Begin) && !fails(InsertOrder) && !fails(InsertPayment)
      && forall k | 0 <= k < n :: !fails(InsertItem(k))
    ensures forall i | 0 <= i < n && SaveError(n, fails) == Some(TxFailed(InsertItem(i))) ::
      !fails(Begin) && !fails(InsertOrder) && !fails(InsertPayment)
      && forall k | 0 <= k < i :: !fails(InsertItem(k))
  {
    var steps := SaveSteps(n);
    SaveStepsAt(n);
    var f := FirstFault(steps, fails);
    if f >= n + 3 {
      assert forall k | 0 <= k < n :: steps[3 + k] == InsertItem(k) && 3 + k < f;
    }
    forall i | 0 <= i < n && SaveError(n, fails) == Some(TxFailed(InsertItem(i)))
      ensures forall k | 0 <= k < i :: !fails(InsertItem(k))
    {
      assert steps[f] == InsertItem(i);
      assert f == 3 + i;
      assert forall k | 0 <= k < i :: steps[3 + k] == InsertItem(k) && 3 + k < f;
    }
  }

  // ---------------------------------------------------------------------------
  // Reading
  // ---------------------------------------------------------------------------

  function OrderKey(h: OrderRow): string { h.orderUID }
  function DeliveryKey(d: Delivery): string { d.orderUID }
  function PaymentKey(p: Payment): string { p.orderUID }

  /** The rows whose `order_uid` column is `uid`, in table order. */
  function Select<T(==)>(rows: seq<T>, key: T -> string, uid: string): (r: seq<T>)
    ensures |r| <= |rows|
    ensures forall x | x in r :: x in rows && key(x) == uid
    ensures forall x | x in rows && key(x) == uid :: x in r
    decreases |rows|
  {
    if rows == [] then []
    else (if key(rows[0]) == uid then [rows[0]] else []) + Select(rows[1..], key, uid)
  }

  lemma {:induction false} SelectAppend<T>(a: seq<T>, b: seq<T>, key: T -> string, uid: string)
    ensures Select(a + b, key, uid) == Select(a, key, uid) + Select(b, key, uid)
    decreases |a|
  {
    if a == [] {
      assert a + b == b;
    } else {
      assert (a + b)[0] == a[0];
      assert (a + b)[1..] == a[1..] + b;
      SelectAppend(a[1..], b, key, uid);
    }
  }

  predicate HasRow<T(==)>(rows: seq<T>, key: T -> string, uid: string) {
    exists x | x in rows :: key(x) == uid
  }

  lemma SelectEmpty<T>(rows: seq<T>, key: T -> string, uid: string)
    ensures Select(rows, key, uid) == [] <==> !HasRow(rows, key, uid)
  {
  }

  /** An item as the items query returns it: `order_uid` is not selected. */
  function Unkey(i: Item): Item { i.(orderUID := "") }

  /** The items query: rows keyed `uid`, in table order, without their `order_uid`. */
  function ItemsFor(items: seq<Item>, uid: string): (r: seq<Item>)
    ensures |r| <= |items|
    ensures forall x | x in r :: x.orderUID == ""
    decreases |items|
  {
    if items == [] then []
    else (if items[0].orderUID == uid then [Unkey(items[0])] else []) + ItemsFor(items[1..], uid)
  }

  lemma {:induction false} ItemsForAppend(a: seq<Item>, b: seq<Item>, uid: string)
    ensures ItemsFor(a + b, uid) == ItemsFor(a, uid) + ItemsFor(b, uid)
    decreases |a|
  {
    if a == [] {
      assert a + b == b;
    } else {
      assert (a + b)[0] == a[0];
      assert (a + b)[1..] == a[1..] + b;
      ItemsForAppend(a[1..], b, uid);
    }
  }

  /** The items query returns exactly the item rows keyed `uid`, each without its `order_uid`. */
  lemma {:induction false} ItemsForRows(items: seq<Item>, uid: string)
    ensures forall y | y in items && y.orderUID == uid :: Unkey(y) in ItemsFor(items, uid)
    ensures forall x | x in ItemsFor(items, uid) :: exists y | y in items :: y.orderUID == uid && x == Unkey(y)
    decreases |items|
  {
    if items != [] {
      ItemsForRows(items[1..], uid);
      assert forall y | y in items[1..] :: y in items;
    }
  }

  /** The items query finds an item for `uid` exactly when some item row is keyed `uid`. */
  lemma {:induction false} ItemsForEmpty(items: seq<Item>, uid: string)
    ensures ItemsFor(items, uid) == [] <==> forall k | 0 <= k < |items| :: items[k].orderUID != uid
    decreases |items|
  {
    if items != [] {
      ItemsForEmpty(items[1..], uid);
      assert forall k | 1 <= k < |items| :: items[k] == items[1..][k - 1];
    }
  }

  /** The slice `GetItemByOrderUID` yields: nil when no row matches, as sqlx leaves it. */
  function StoredItems(t: Tables, uid: string): Slice<Item> {
    var xs := ItemsFor(t.items, uid);
    if xs == [] then Nil else Slice(xs)
  }

  /** The join rows of one order row: every matching delivery with every matching payment. */
  function Cross(h: OrderRow, ds: seq<Delivery>, ps: seq<Payment>): (r: seq<OrderDB>)
    ensures r == [] <==> ds == [] || ps == []
    ensures forall x | x in r :: x.orderUID == h.orderUID
    decreases |ds|
  {
    if ds == [] then []
    else seq(|ps|, k requires 0 <= k < |ps| => JoinRow(h, ds[0], ps[k])) + Cross(h, ds[1..], ps)
  }

  /** The join rows of one order row are exactly its pairings with a delivery and a payment. */
  lemma {:induction false} CrossRows(h: OrderRow, ds: seq<Delivery>, ps: seq<Payment>)
    ensures forall d, p | d in ds && p in ps :: JoinRow(h, d, p) in Cross(h, ds, ps)
    ensures forall x | x in Cross(h, ds, ps) :: exists d, p | d in ds && p in ps :: x == JoinRow(h, d, p)
    decreases |ds|
  {
    if ds != [] {
      CrossRows(h, ds[1..], ps);
      var first := seq(|ps|, k requires 0 <= k < |ps| => JoinRow(h, ds[0], ps[k]));
      assert Cross(h, ds, ps) == first + Cross(h, ds[1..], ps);
      assert forall d | d in ds[1..] :: d in ds;
      forall p | p in ps
        ensures JoinRow(h, ds[0], p) in first
      {
        var k :| 0 <= k < |ps| && ps[k] == p;
        assert first[k] == JoinRow(h, ds[0], p);
      }
      forall x | x in first
        ensures exists d, p | d in ds && p in ps :: x == JoinRow(h, d, p)
      {
        var k :| 0 <= k < |first| && first[k] == x;
        assert ds[0] in ds && ps[k] in ps && x == JoinRow(h, ds[0], ps[k]);
      }
    }
  }

  /** `orders JOIN deliveries JOIN payments` on `order_uid`, for the order rows `hs`. */
  function Join(hs: seq<OrderRow>, ds: seq<Delivery>, ps: seq<Payment>): seq<OrderDB>
    decreases |hs|
  {
    if hs == [] then []
    else Cross(hs[0], Select(ds, DeliveryKey, hs[0].orderUID), Select(ps, PaymentKey, hs[0].orderUID))
         + Join(hs[1..], ds, ps)
  }

  function JoinAll(t: Tables): seq<OrderDB> {
    Join(t.orders, t.deliveries, t.payments)
  }

  /** The join restricted by `WHERE o.order_uid = uid`. */
  function JoinFor(t: Tables, uid: string): seq<OrderDB> {
    Join(Select(t.orders, OrderKey, uid), t.deliveries, t.payments)
  }

  /**
   * The join rows are exactly the pairings of an order row of `hs` with a
   * delivery and a payment that carry the order row's UID.
   */
  lemma {:induction false} JoinRows(hs: seq<OrderRow>, ds: seq<Delivery>, ps: seq<Payment>)
    ensures forall h, d, p | h in hs && d in ds && p in ps && d.orderUID == h.orderUID && p.orderUID == h.orderUID ::
      JoinRow(h, d, p) in Join(hs, ds, ps)
    ensures forall x | x in Join(hs, ds, ps) :: exists h, d, p | h in hs && d in ds && p in ps ::
      d.orderUID == h.orderUID && p.orderUID == h.orderUID && x == JoinRow(h, d, p)
    decreases |hs|
  {
    if hs != [] {
      JoinRows(hs[1..], ds, ps);
      var h0 := hs[0];
      var sd := Select(ds, DeliveryKey, h0.orderUID);
      var sp := Select(ps, PaymentKey, h0.orderUID);
      CrossRows(h0, sd, sp);
      assert Join(hs, ds, ps) == Cross(h0, sd, sp) + Join(hs[1..], ds, ps);
      assert forall h | h in hs[1..] :: h in hs;
      forall x | x in Cross(h0, sd, sp)
        ensures exists h, d, p | h in hs && d in ds && p in ps ::
          d.orderUID == h.orderUID && p.orderUID == h.orderUID && x == JoinRow(h, d, p)
      {
        var d, p :| d in sd && p in sp && x == JoinRow(h0, d, p);
        assert h0 in hs && d in ds && p in ps;
      }
    }
  }

  lemma {:induction false} JoinKeyed(hs: seq<OrderRow>, ds: seq<Delivery>, ps: seq<Payment>, uid: string)
    requires forall h | h in hs :: h.orderUID == uid
    ensures forall x | x in Join(hs, ds, ps) :: x.orderUID == uid
    ensures Join(hs, ds, ps) == [] <==>
      hs == [] || Select(ds, DeliveryKey, uid) == [] || Select(ps, PaymentKey, uid) == []
    decreases |hs|
  {
    if hs != [] {
      assert hs[0] in hs;
      assert forall h | h in hs[1..] :: h in hs;
      JoinKeyed(hs[1..], ds, ps, uid);
    }
  }

  /**
   * The single-order read is an inner join: it finds a row exactly when an
   * order row, a delivery row and a payment row are all keyed `uid`, and every
   * row it finds belongs to `uid`.
   */
  lemma InnerJoin(t: Tables, uid: string)
    ensures JoinFor(t, uid) != [] <==>
      HasRow(t.orders, OrderKey, uid) && HasRow(t.deliveries, DeliveryKey, uid)
      && HasRow(t.payments, PaymentKey, uid)
    ensures forall x | x in JoinFor(t, uid) :: x.orderUID == uid
  {
    JoinKeyed(Select(t.orders, OrderKey, uid), t.deliveries, t.payments, uid);
    SelectEmpty(t.orders, OrderKey, uid);
    SelectEmpty(t.deliveries, DeliveryKey, uid);
    SelectEmpty(t.payments, PaymentKey, uid);
  }

  /** What `GetOrderByUID` returns. */
  function FindOrder(t: Tables, uid: string, f: ReadFaults): Result<Order, DbError> {
    if f.joinFails then Failure(QueryFailed)
    else
      var rows := JoinFor(t, uid);
      if rows == [] then Failure(NoRows)
      else if f.itemsFail then Failure(QueryFailed)
      else Success(Mapper.MapOrderDBToModel(rows[0]).(items := StoredItems(t, uid)))
  }

  /**
   * A single-order read succeeds exactly when neither query fails and the
   * order has an order row, a delivery row and a payment row; a missing
   * sibling row reads as "no rows". The order found carries `uid`, the items
   * of the items query, and empty back-references.
   */
  lemma FindOrderSpec(t: Tables, uid: string, f: ReadFaults)
    ensures FindOrder(t, uid, f).Success? <==>
      !f.joinFails && !f.itemsFail && HasRow(t.orders, OrderKey, uid)
      && HasRow(t.deliveries, DeliveryKey, uid) && HasRow(t.payments, PaymentKey, uid)
    ensures !f.joinFails && !(HasRow(t.orders, OrderKey, uid)
      && HasRow(t.deliveries, DeliveryKey, uid) && HasRow(t.payments, PaymentKey, uid))
      ==> FindOrder(t, uid, f) == Failure(NoRows)
    ensures FindOrder(t, uid, f).Success? ==>
      var o := FindOrder(t, uid, f).value;
      o.orderUID == uid && o.items == StoredItems(t, uid)
      && o.delivery.orderUID == "" && o.payment.orderUID == ""
    ensures FindOrder(t, uid, f).Success? ==>
      exists h, d, p | h in t.orders && d in t.deliveries && p in t.payments ::
        h.orderUID == uid && d.orderUID == uid && p.orderUID == uid
        && RowOf(FindOrder(t, uid, f).value) == JoinRow(h, d, p)
  {
    InnerJoin(t, uid);
    var rows := JoinFor(t, uid);
    if rows != [] {
      assert rows[0] in rows;
      assert RowOf(Mapper.MapOrderDBToModel(rows[0])) == rows[0];
      var hs := Select(t.orders, OrderKey, uid);
      JoinRows(hs, t.deliveries, t.payments);
      var h, d, p :| h in hs && d in t.deliveries && p in t.payments
        && d.orderUID == h.orderUID && p.orderUID == h.orderUID && rows[0] == JoinRow(h, d, p);
      assert h in t.orders && h.orderUID == uid;
    }
  }

  // ---------------------------------------------------------------------------
  // The repository object
  // ---------------------------------------------------------------------------

  class OrderRepository {
    var db: Tables

    constructor (t: Tables)
      ensures db == t
    {
      db := t;
    }

    /**
     * One transaction: begin, insert the order row, the payment row, one row
     * per item in order, the delivery row, commit. The inserts go to a staged
     * copy; an early return drops it, as the deferred rollback does, so the
     * tables change only when every step succeeds.
     */
    method SaveOrder(order: Order, fails: TxStep -> bool) returns (err: Option<DbError>)
      modifies this
      ensures err == SaveError(|order.items.Elements()|, fails)
      ensures err.None? ==> db == SaveEffect(old(db), order)
      ensures err.Some? ==> db == old(db)
    {
      var items := order.items.Elements();
      ghost var steps := SaveSteps(|items|);
      SaveStepsAt(|items|);
      if fails(Begin) {
        assert FirstFault(steps, fails) == 0;
        return Some(TxFailed(Begin));
      }
      var tx := db;
      if fails(InsertOrder) {
        assert FirstFault(steps, fails) == 1;
        return Some(TxFailed(InsertOrder));
      }
      tx := tx.(orders := tx.orders + [Header(order)]);
      if fails(InsertPayment) {
        assert FirstFault(steps, fails) == 2;
        return Some(TxFailed(InsertPayment));
      }
      tx := tx.(payments := tx.payments + [order.payment]);
      for k := 0 to |items|
        invariant tx == old(db).(orders := old(db).orders + [Header(order)],
                                 payments := old(db).payments + [order.payment],
                                 items := old(db).items + items[..k])
        invariant forall j | 0 <= j < k :: !fails(InsertItem(j))
      {
        if fails(InsertItem(k)) {
          assert forall j | 0 <= j < 3 + k :: !fails(steps[j]);
          assert FirstFault(steps, fails) == 3 + k;
          return Some(TxFailed(InsertItem(k)));
        }
        assert items[..k + 1] == items[..k] + [items[k]];
        tx := tx.(items := tx.items + [items[k]]);
      }
      assert items[..|items|] == items;
      assert forall j | 0 <= j < |items| + 3 :: !fails(steps[j]);
      if fails(InsertDelivery) {
        assert FirstFault(steps, fails) == |items| + 3;
        return Some(TxFailed(InsertDelivery));
      }
      tx := tx.(deliveries := tx.deliveries + [order.delivery]);
      if fails(CommitTx) {
        assert FirstFault(steps, fails) == |items| + 4;
        return Some(TxFailed(CommitTx));
      }
      assert FirstFault(steps, fails) == |steps|;
      db := tx;
      err := None;
    }

    /** The order's items, or the query's error. */
    method GetItemByOrderUID(orderUID: string, fails: bool) returns (r: Result<Slice<Item>, DbError>)
      ensures fails <==> r.Failure?
      ensures r.Failure? ==> r.error == QueryFailed
      ensures r.Success? ==> r.value == StoredItems(db, orderUID)
    {
      if fails {
        return Failure(QueryFailed);
      }
      return Success(StoredItems(db, orderUID));
    }

    /** The first joined row for the UID, mapped, with the items query's result as its items. */
    method GetOrderByUID(orderUID: string, f: ReadFaults) returns (r: Result<Order, DbError>)
      ensures r == FindOrder(db, orderUID, f)
    {
      if f.joinFails {
        return Failure(QueryFailed);
      }
      var rows := JoinFor(db, orderUID);
      if rows == [] {
        return Failure(NoRows);
      }
      var order := Mapper.MapOrderDBToModel(rows[0]);
      var items := GetItemByOrderUID(orderUID, f.itemsFail);
      if items.Failure? {
        return Failure(items.error);
      }
      order := order.(items := items.value);
      return Success(order);
    }

    /** One order per joined row, in join order, each without items. */
    method GetAllOrders(fails: bool) returns (r: Result<seq<Order>, DbError>)
      ensures fails <==> r.Failure?
      ensures r.Failure? ==> r.error == QueryFailed
      ensures r.Success? ==> |r.value| == |JoinAll(db)|
      ensures r.Success? ==> forall k | 0 <= k < |r.value| ::
        RowOf(r.value[k]) == JoinAll(db)[k] && r.value[k].items == Nil
        && r.value[k].delivery.orderUID == "" && r.value[k].payment.orderUID == ""
    {
      if fails {
        return Failure(QueryFailed);
      }
      var orders := Mapper.MapOrdersDBToModels(JoinAll(db));
      return Success(orders);
    }
  }

  // ---------------------------------------------------------------------------
  // What the as-written save means for reads, and the keyed save it evidently
  // intends.
  // ---------------------------------------------------------------------------

  /** No delivery, payment or item row carries a non-empty `order_uid`. */
  predicate Unkeyed(t: Tables) {
    && (forall k | 0 <= k < |t.deliveries| :: t.deliveries[k].orderUID == "")
    && (forall k | 0 <= k < |t.payments| :: t.payments[k].orderUID == "")
    && (forall k | 0 <= k < |t.items| :: t.items[k].orderUID == "")
  }

  /** Saving a decoded order adds only sub-rows with an empty `order_uid`. */
  lemma SaveDecodedKeepsUnkeyed(t: Tables, o: Order)
    requires Unkeyed(t) && SubKeysEmpty(o)
    ensures Unkeyed(SaveEffect(t, o))
  {
  }

  /** In a store without keyed sub-rows, no non-empty UID can be read back, and it has no items. */
  lemma UnkeyedStoreUnreadable(t: Tables, uid: string, f: ReadFaults)
    requires Unkeyed(t) && uid != ""
    ensures FindOrder(t, uid, f).Failure?
    ensures !f.joinFails ==> FindOrder(t, uid, f) == Failure(NoRows)
    ensures StoredItems(t, uid) == Nil
  {
    FindOrderSpec(t, uid, f);
    assert !HasRow(t.deliveries, DeliveryKey, uid);
    ItemsForEmpty(t.items, uid);
  }

  /**
   * As written: an order that came from JSON, saved into an empty store,
   * cannot be read back by its UID, and the items query finds none of its
   * items, because its sub-rows were stored under the empty `order_uid`.
   */
  lemma DecodedOrderUnreadableAfterSave(o: Order, f: ReadFaults)
    requires SubKeysEmpty(o) && o.orderUID != ""
    ensures !f.joinFails ==> FindOrder(SaveEffect(NoTables, o), o.orderUID, f) == Failure(NoRows)
    ensures StoredItems(SaveEffect(NoTables, o), o.orderUID) == Nil
  {
    SaveDecodedKeepsUnkeyed(NoTables, o);
    UnkeyedStoreUnreadable(SaveEffect(NoTables, o), o.orderUID, f);
  }

  /** The order with every sub-record's back-reference set to the order's UID. */
  function Keyed(o: Order): Order {
    var uid := o.orderUID;
    var xs := o.items.Elements();
    o.(delivery := o.delivery.(orderUID := uid),
       payment := o.payment.(orderUID := uid),
       items := match o.items
                case Nil => Nil
                case Slice(_) => Slice(seq(|xs|, k requires 0 <= k < |xs| => xs[k].(orderUID := uid))))
  }

  /** The corrected save: sub-rows keyed by the order's UID. */
  function KeyedSaveEffect(t: Tables, o: Order): Tables {
    SaveEffect(t, Keyed(o))
  }

  /** No row of any table is keyed `uid`. */
  predicate FreshUID(t: Tables, uid: string) {
    !HasRow(t.orders, OrderKey, uid) && !HasRow(t.deliveries, DeliveryKey, uid)
    && !HasRow(t.payments, PaymentKey, uid) && forall k | 0 <= k < |t.items| :: t.items[k].orderUID != uid
  }

  /** The order a read returns: back-references empty, items as the items query yields them. */
  function Rehydrated(o: Order): Order {
    var xs := o.items.Elements();
    o.(delivery := o.delivery.(orderUID := ""),
       payment := o.payment.(orderUID := ""),
       items := if xs == [] then Nil else Slice(seq(|xs|, k requires 0 <= k < |xs| => Unkey(xs[k]))))
  }

  lemma {:induction false} ItemsForAllKeyed(xs: seq<Item>, uid: string)
    requires forall k | 0 <= k < |xs| :: xs[k].orderUID == uid
    ensures ItemsFor(xs, uid) == seq(|xs|, k requires 0 <= k < |xs| => Unkey(xs[k]))
    decreases |xs|
  {
    if xs != [] {
      ItemsForAllKeyed(xs[1..], uid);
    }
  }

  /** After the keyed save of a fresh UID, the single-order join finds exactly the order's own row. */
  lemma KeyedSaveJoin(t: Tables, o: Order)
    requires FreshUID(t, o.orderUID)
    ensures var ko := Keyed(o);
      JoinFor(KeyedSaveEffect(t, o), o.orderUID) == [JoinRow(Header(ko), ko.delivery, ko.payment)]
  {
    var uid := o.orderUID;
    var ko := Keyed(o);
    var t' := KeyedSaveEffect(t, o);
    SelectAppend(t.orders, [Header(ko)], OrderKey, uid);
    SelectAppend(t.deliveries, [ko.delivery], DeliveryKey, uid);
    SelectAppend(t.payments, [ko.payment], PaymentKey, uid);
    SelectEmpty(t.orders, OrderKey, uid);
    SelectEmpty(t.deliveries, DeliveryKey, uid);
    SelectEmpty(t.payments, PaymentKey, uid);
    assert Select(t'.orders, OrderKey, uid) == [Header(ko)];
    assert Select(t'.deliveries, DeliveryKey, uid) == [ko.delivery];
    assert Select(t'.payments, PaymentKey, uid) == [ko.payment];
    var h := Header(ko);
    assert Cross(h, [ko.delivery], [ko.payment]) == [JoinRow(h, ko.delivery, ko.payment)] + Cross(h, [], [ko.payment]);
    assert Join([h], t'.deliveries, t'.payments) == Cross(h, [ko.delivery], [ko.payment]) + Join([], t'.deliveries, t'.payments);
  }

  /** After the keyed save of a fresh UID, the items query returns the order's items, unkeyed. */
  lemma KeyedSaveItems(t: Tables, o: Order)
    requires FreshUID(t, o.orderUID)
    ensures StoredItems(KeyedSaveEffect(t, o), o.orderUID) == Rehydrated(o).items
  {
    var uid := o.orderUID;
    var ko := Keyed(o);
    ItemsForAppend(t.items, ko.items.Elements(), uid);
    ItemsForEmpty(t.items, uid);
    ItemsForAllKeyed(ko.items.Elements(), uid);
  }

  /**
   * Corrected: after the keyed save of an order whose UID the store did not
   * hold, reading the UID returns the order, with the items it was saved with.
   */
  lemma KeyedSaveRoundTrip(t: Tables, o: Order)
    requires FreshUID(t, o.orderUID)
    ensures FindOrder(KeyedSaveEffect(t, o), o.orderUID, ReadFaults(false, false)) == Success(Rehydrated(o))
  {
    var ko := Keyed(o);
    KeyedSaveJoin(t, o);
    KeyedSaveItems(t, o);
    Mapper.MapRowOfOrder(ko);
    assert RowOf(ko) == JoinRow(Header(ko), ko.delivery, ko.payment);
  }

  /** As written: saving the same order twice stores its order row twice. */
  lemma ResaveDuplicatesRows(t: Tables, o: Order)
    ensures var t2 := SaveEffect(SaveEffect(t, o), o);
      multiset(t2.orders)[Header(o)] == multiset(t.orders)[Header(o)] + 2
      && t2 != SaveEffect(t, o)
  {
  }

  /** Corrected: insert-or-ignore keyed by `order_uid`, with keyed sub-rows. */
  function UpsertSaveEffect(t: Tables, o: Order): Tables {
    if HasRow(t.orders, OrderKey, o.orderUID) then t else KeyedSaveEffect(t, o)
  }

  /** Corrected: saving an order a second time leaves the store as the first save left it. */
  lemma UpsertSaveIdempotent(t: Tables, o: Order)
    ensures UpsertSaveEffect(UpsertSaveEffect(t, o), o) == UpsertSaveEffect(t, o)
  {
    var t1 := UpsertSaveEffect(t, o);
    if !HasRow(t.orders, OrderKey, o.orderUID) {
      assert Header(Keyed(o)) in t1.orders;
      assert OrderKey(Header(Keyed(o))) == o.orderUID;
    }
  }
}
