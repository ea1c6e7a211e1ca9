/**
 * The order aggregate (internal/models/order.go), the flat row the join
 * queries produce (internal/models/orderDB.go), and the validity rules that
 * the `validate:` struct tags of order.go define.
 */
module Models {

  type Bytes = seq<bv8>

  /** A Go slice: `nil` is a value of its own, distinct from an empty non-nil slice. */
  datatype Slice<T> = Nil | Slice(elems: seq<T>) {
    function Elements(): seq<T> {
      if Nil? then [] else elems
    }
  }

  /** `OrderUID` is excluded from JSON (`json:"-"`); it is only a database column. */
  datatype Delivery = Delivery(
    orderUID: string,
    name: string,
    phone: string,
    zip: string,
    city: string,
    address: string,
    region: string,
    email: string)

  datatype Payment = Payment(
    orderUID: string,
    transaction: string,
    requestID: string,
    currency: string,
    provider: string,
    amount: int,
    paymentDT: int,
    bank: string,
    deliveryCost: int,
    goodsTotal: int,
    customFee: int)

  datatype Item = Item(
    orderUID: string,
    chrtID: int,
    trackNumber: string,
    price: int,
    rid: string,
    name: string,
    sale: int,
    size: string,
    totalPrice: int,
    nmID: int,
    brand: string,
    status: int)

  datatype Order = Order(
    orderUID: string,
    trackNumber: string,
    entry: string,
    locale: string,
    internalSignature: string,
    customerID: string,
    deliveryService: string,
    shardKey: string,
    smID: int,
    dateCreated: string,
    oofShard: string,
    delivery: Delivery,
    payment: Payment,
    items: Slice<Item>)

  /** The Go zero value of `models.Order`. */
  function ZeroOrder(): Order {
    Order("", "", "", "", "", "", "", "", 0, "", "",
          Delivery("", "", "", "", "", "", "", ""),
          Payment("", "", "", "", "", 0, 0, "", 0, 0, 0),
          Nil)
  }

  /** A `*models.Order`: the service overwrites `Items` through this pointer. */
  class OrderRef {
    var value: Order

    constructor (o: Order)
      ensures value == o
    {
      value := o;
    }
  }

  /** A row of the `orders` table: the scalar, db-tagged fields of `Order`. */
  datatype OrderRow = OrderRow(
    orderUID: string,
    trackNumber: string,
    entry: string,
    locale: string,
    internalSignature: string,
    customerID: string,
    deliveryService: string,
    shardKey: string,
    smID: int,
    dateCreated: string,
    oofShard: string)

  /** The `orders` row that the first INSERT of a save binds from an order. */
  function Header(o: Order): OrderRow {
    OrderRow(o.orderUID, o.trackNumber, o.entry, o.locale, o.internalSignature,
             o.customerID, o.deliveryService, o.shardKey, o.smID, o.dateCreated, o.oofShard)
  }

  /** `models.OrderDB`: one row of the orders/deliveries/payments join. */
  datatype OrderDB = OrderDB(
    orderUID: string,
    trackNumber: string,
    entry: string,
    locale: string,
    internalSignature: string,
    customerID: string,
    deliveryService: string,
    shardKey: string,
    smID: int,
    dateCreated: string,
    oofShard: string,
    deliveryName: string,
    deliveryPhone: string,
    deliveryZip: string,
    deliveryCity: string,
    deliveryAddress: string,
    deliveryRegion: string,
    deliveryEmail: string,
    paymentTransaction: string,
    paymentRequestID: string,
    paymentCurrency: string,
    paymentProvider: string,
    paymentAmount: int,
    paymentDT: int,
    paymentBank: string,
    paymentDeliveryCost: int,
    paymentGoodsTotal: int,
    paymentCustomFee: int)

  /**
   * The select list of the join queries: every `orders` column, and every
   * `deliveries` and `payments` column except their `order_uid`.
   */
  function JoinRow(h: OrderRow, d: Delivery, p: Payment): OrderDB {
    OrderDB(h.orderUID, h.trackNumber, h.entry, h.locale, h.internalSignature,
            h.customerID, h.deliveryService, h.shardKey, h.smID, h.dateCreated, h.oofShard,
            d.name, d.phone, d.zip, d.city, d.address, d.region, d.email,
            p.transaction, p.requestID, p.currency, p.provider, p.amount, p.paymentDT,
            p.bank, p.deliveryCost, p.goodsTotal, p.customFee)
  }

  /** The join row an order's own records would produce. */
  function RowOf(o: Order): OrderDB {
    JoinRow(Header(o), o.delivery, o.payment)
  }

  /**
   * What JSON decoding always yields: the `json:"-"` back-references of the
   * delivery, the payment and every item are left empty.
   */
  predicate SubKeysEmpty(o: Order) {
    && o.delivery.orderUID == ""
    && o.payment.orderUID == ""
    && forall k | 0 <= k < |o.items.Elements()| :: o.items.Elements()[k].orderUID == ""
  }

  // ---------------------------------------------------------------------------
  // Validity, as the `validate:` tags define it. `required` on a string means
  // non-empty, on an int non-zero, on a slice non-nil; `gte=0` means >= 0;
  // `email` is the validator's address syntax, left abstract as `isEmail`.
  // `required` on the nested structs is skipped by the validator, which dives
  // into them instead; `dive,required` applies the item rules to each element.
  // ---------------------------------------------------------------------------

  type EmailSyntax = string -> bool

  predicate ValidHeader(h: OrderRow) {
    h.orderUID != "" && h.trackNumber != "" && h.entry != "" && h.locale != ""
    && h.customerID != "" && h.dateCreated != ""
  }

  predicate ValidDelivery(d: Delivery, isEmail: EmailSyntax) {
    d.name != "" && d.phone != "" && d.zip != "" && d.city != "" && d.address != ""
    && d.email != "" && isEmail(d.email)
  }

  predicate ValidPayment(p: Payment) {
    p.transaction != "" && p.currency != ""
    && p.amount >= 0 && p.deliveryCost >= 0 && p.goodsTotal >= 0 && p.customFee >= 0
  }

  predicate ValidItem(i: Item) {
    i.chrtID != 0 && i.trackNumber != "" && i.price >= 0 && i.name != ""
    && i.sale >= 0 && i.totalPrice >= 0 && i.nmID != 0
  }

  /** `required,dive,required`: the slice is non-nil (it may be empty) and every element is valid. */
  predicate ValidItems(items: Slice<Item>) {
    items.Slice? && forall k | 0 <= k < |items.elems| :: ValidItem(items.elems[k])
  }

  predicate ValidOrder(o: Order, isEmail: EmailSyntax) {
    ValidHeader(Header(o)) && ValidDelivery(o.delivery, isEmail) && ValidPayment(o.payment)
    && ValidItems(o.items)
  }

  // ---------------------------------------------------------------------------
  // The validator's error report: one violation per failing field, in struct
  // declaration order; a field with `required,email` reports only its first
  // failing tag.
  // ---------------------------------------------------------------------------

  datatype Field =
    | OrderField(name: string)
    | DeliveryField(name: string)
    | PaymentField(name: string)
    | ItemField(index: nat, name: string)

  datatype Tag = Required | Email | Gte

  datatype Violation = Violation(field: Field, tag: Tag)

  function Check(ok: bool, field: Field, tag: Tag): seq<Violation> {
    if ok then [] else [Violation(field, tag)]
  }

  function HeaderViolations(h: OrderRow): seq<Violation> {
    Check(h.orderUID != "", OrderField("OrderUID"), Required)
    + Check(h.trackNumber != "", OrderField("TrackNumber"), Required)
    + Check(h.entry != "", OrderField("Entry"), Required)
    + Check(h.locale != "", OrderField("Locale"), Required)
    + Check(h.customerID != "", OrderField("CustomerID"), Required)
    + Check(h.dateCreated != "", OrderField("DateCreated"), Required)
  }

  function DeliveryViolations(d: Delivery, isEmail: EmailSyntax): seq<Violation> {
    Check(d.name != "", DeliveryField("Name"), Required)
    + Check(d.phone != "", DeliveryField("Phone"), Required)
    + Check(d.zip != "", DeliveryField("Zip"), Required)
    + Check(d.city != "", DeliveryField("City"), Required)
    + Check(d.address != "", DeliveryField("Address"), Required)
    + (if d.email == "" then [Violation(DeliveryField("Email"), Required)]
       else Check(isEmail(d.email), DeliveryField("Email"), Email))
  }

  function PaymentViolations(p: Payment): seq<Violation> {
    Check(p.transaction != "", PaymentField("Transaction"), Required)
    + Check(p.currency != "", PaymentField("Currency"), Required)
    + Check(p.amount >= 0, PaymentField("Amount"), Gte)
    + Check(p.deliveryCost >= 0, PaymentField("DeliveryCost"), Gte)
    + Check(p.goodsTotal >= 0, PaymentField("GoodsTotal"), Gte)
    + Check(p.customFee >= 0, PaymentField("CustomFee"), Gte)
  }

  function ItemViolations(i: Item, k: nat): seq<Violation> {
    Check(i.chrtID != 0, ItemField(k, "ChrtID"), Required)
    + Check(i.trackNumber != "", ItemField(k, "TrackNumber"), Required)
    + Check(i.price >= 0, ItemField(k, "Price"), Gte)
    + Check(i.name != "", ItemField(k, "Name"), Required)
    + Check(i.sale >= 0, ItemField(k, "Sale"), Gte)
    + Check(i.totalPrice >= 0, ItemField(k, "TotalPrice"), Gte)
    + Check(i.nmID != 0, ItemField(k, "NmID"), Required)
  }

  /** The violations of the items `xs`, the first of which sits at index `from` of the slice. */
  function ItemsViolations(xs: seq<Item>, from: nat): seq<Violation>
    decreases |xs|
  {
    if xs == [] then [] else ItemViolations(xs[0], from) + ItemsViolations(xs[1..], from + 1)
  }

  function Violations(o: Order, isEmail: EmailSyntax): seq<Violation> {
    HeaderViolations(Header(o))
    + DeliveryViolations(o.delivery, isEmail)
    + PaymentViolations(o.payment)
    + match o.items
      case Nil => [Violation(OrderField("Items"), Required)]
      case Slice(xs) => ItemsViolations(xs, 0)
  }

  lemma {:induction false} ItemsViolationsEmpty(xs: seq<Item>, from: nat)
    ensures ItemsViolations(xs, from) == [] <==> forall k | 0 <= k < |xs| :: ValidItem(xs[k])
    decreases |xs|
  {
    if xs != [] {
      ItemsViolationsEmpty(xs[1..], from + 1);
      assert forall k | 1 <= k < |xs| :: xs[k] == xs[1..][k - 1];
    }
  }

  /** The tag predicate and the error report agree: an order is valid iff the report is empty. */
  lemma ValidIffNoViolations(o: Order, isEmail: EmailSyntax)
    ensures ValidOrder(o, isEmail) <==> Violations(o, isEmail) == []
  {
    if o.items.Slice? {
      ItemsViolationsEmpty(o.items.elems, 0);
    }
  }

  /** Every item-level violation names an item of the slice, and that item is invalid. */
  lemma {:induction false} ItemViolationLocatesItem(xs: seq<Item>, from: nat, v: Violation)
    requires v in ItemsViolations(xs, from)
    ensures v.field.ItemField? && from <= v.field.index < from + |xs|
    ensures !ValidItem(xs[v.field.index - from])
    decreases |xs|
  {
    if v !in ItemViolations(xs[0], from) {
      ItemViolationLocatesItem(xs[1..], from + 1, v);
    }
  }
}
