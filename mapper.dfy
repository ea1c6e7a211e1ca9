/** Turning join rows into orders (internal/mapper/order_mapper.go). */
module Mapper {
  import opened Models

  /**
   * Copies every column of the row into the order. The result projects back
   * onto exactly the row it came from; its items are nil and the delivery's
   * and payment's back-references stay empty, since the row has no columns
   * for them. These four facts determine the order completely.
   */
  function MapOrderDBToModel(dbo: OrderDB): (o: Order)
    ensures RowOf(o) == dbo
    ensures o.items == Nil
    ensures o.delivery.orderUID == "" && o.payment.orderUID == ""
  {
    Order(dbo.orderUID, dbo.trackNumber, dbo.entry, dbo.locale, dbo.internalSignature,
          dbo.customerID, dbo.deliveryService, dbo.shardKey, dbo.smID, dbo.dateCreated,
          dbo.oofShard,
          Delivery("", dbo.deliveryName, dbo.deliveryPhone, dbo.deliveryZip, dbo.deliveryCity,
                   dbo.deliveryAddress, dbo.deliveryRegion, dbo.deliveryEmail),
          Payment("", dbo.paymentTransaction, dbo.paymentRequestID, dbo.paymentCurrency,
                  dbo.paymentProvider, dbo.paymentAmount, dbo.paymentDT, dbo.paymentBank,
                  dbo.paymentDeliveryCost, dbo.paymentGoodsTotal, dbo.paymentCustomFee),
          Nil)
  }

  /**
   * Mapping an order's own join row gives the order back, less what the row
   * cannot carry: its items and the back-references of delivery and payment.
   */
  lemma MapRowOfOrder(o: Order)
    ensures MapOrderDBToModel(RowOf(o))
         == o.(items := Nil,
               delivery := o.delivery.(orderUID := ""),
               payment := o.payment.(orderUID := ""))
  {
  }

  /** The append loop over the rows: element k of the result maps row k. */
  method MapOrdersDBToModels(dbOrders: seq<OrderDB>) returns (orders: seq<Order>)
    ensures |orders| == |dbOrders|
    ensures forall k | 0 <= k < |dbOrders| :: orders[k] == MapOrderDBToModel(dbOrders[k])
  {
    orders := [];
    for k := 0 to |dbOrders|
      invariant |orders| == k
      invariant forall j | 0 <= j < k :: orders[j] == MapOrderDBToModel(dbOrders[j])
    {
      orders := orders + [MapOrderDBToModel(dbOrders[k])];
    }
  }
}
