/**
 * The in-memory order cache (internal/cache/cache.go): an unbounded map from
 * order UID to order, with no capacity and no expiry.
 */
module Cache {
  import opened Models

  class Cache {
    var data: map<string, Order>

    /** `NewCache()`: an empty map. */
    constructor ()
      ensures data == map[]
    {
      data := map[];
    }

    /** Adds the order under its UID, replacing any order stored there before. */
    method Set(order: Order)
      modifies this
      ensures data == old(data)[order.orderUID := order]
      ensures data.Keys == old(data.Keys) + {order.orderUID}
      ensures forall k | k in old(data) && k != order.orderUID :: k in data && data[k] == old(data)[k]
    {
      data := data[order.orderUID := order];
    }

    /** The order stored under the UID and `true`, or the zero order and `false`; nothing changes. */
    method Get(orderUID: string) returns (order: Order, ok: bool)
      ensures ok <==> orderUID in data
      ensures ok ==> order == data[orderUID]
      ensures !ok ==> order == ZeroOrder()
    {
      ok := orderUID in data;
      order := if ok then data[orderUID] else ZeroOrder();
    }
  }

  /**
   * The round trip of cache_test.go's first test: after `Set(o)`, `Get` of
   * its UID finds `o`.
   */
  method SetThenGet(o: Order) returns (got: Order, found: bool)
    ensures found && got == o
  {
    var c := new Cache();
    c.Set(o);
    got, found := c.Get(o.orderUID);
  }

  /**
   * The capacity test's scenario on the shown cache: three distinct orders
   * set one after another are all still found. Nothing is evicted, because
   * this cache has no capacity.
   */
  method ThreeSetsAllRetained(o1: Order, o2: Order, o3: Order) returns (found1: bool, found2: bool, found3: bool)
    requires o1.orderUID != o2.orderUID && o1.orderUID != o3.orderUID && o2.orderUID != o3.orderUID
    ensures found1 && found2 && found3
  {
    var c := new Cache();
    c.Set(o1);
    c.Set(o2);
    c.Set(o3);
    var _, f1 := c.Get(o1.orderUID);
    var _, f2 := c.Get(o2.orderUID);
    var _, f3 := c.Get(o3.orderUID);
    found1, found2, found3 := f1, f2, f3;
  }
}
