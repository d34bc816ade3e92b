/**
 * The persisted entities as values. `Order`, `Product` and `Customer` are JPA entities
 * whose classes are not part of this model; their fields are the ones the services read
 * and write.
 */
module Entities {
  import opened Common

  datatype Product = Product(
    name: string,
    description: string,
    price: Money,
    category: string,
    stockQuantity: int)

  datatype Role = User | Admin

  datatype Customer = Customer(
    firstName: string,
    lastName: string,
    email: string,
    password: string,      // the encoder's output
    phoneNumber: string,
    address: string,
    role: Role)

  /** `Order.OrderStatus`. */
  datatype Status = Pending | Confirmed | Shipped | Delivered | Cancelled

  /**
   * A persisted order item. The product stays a reference (its id); the unit price is
   * the snapshot taken when the order was created.
   */
  datatype LineItem = LineItem(productId: Id, quantity: int, unitPrice: Money, subtotal: Money)

  datatype Order = Order(customerId: Id, status: Status, totalAmount: Money, items: seq<LineItem>)

  /** Sum of the subtotals of `items`. */
  function Total(items: seq<LineItem>): (r: Money)
  {
    if items == [] then 0 else Total(items[..|items| - 1]) + items[|items| - 1].subtotal
  }

  lemma TotalAppend(items: seq<LineItem>, item: LineItem)
    ensures Total(items + [item]) == Total(items) + item.subtotal
  {
    assert (items + [item])[..|items|] == items;
  }

  /**
   * What every stored order satisfies: it has items, each item is valid
   * (quantity at least 1, subtotal = unitPrice × quantity) and the total is the
   * sum of the subtotals.
   */
  ghost predicate WellFormed(o: Order)
  {
    && |o.items| > 0
    && (forall k :: 0 <= k < |o.items| ==>
          o.items[k].quantity >= 1 && o.items[k].subtotal == o.items[k].unitPrice * o.items[k].quantity)
    && o.totalAmount == Total(o.items)
  }

  /** Every product of the catalog has non-negative stock. */
  ghost predicate StockNonNegative(catalog: map<Id, Product>)
  {
    forall id :: id in catalog ==> catalog[id].stockQuantity >= 0
  }

  /** The orders of one customer (`findByCustomerId`, `Customer.getOrders`). */
  function OrdersOf(orders: map<Id, Order>, customerId: Id): (r: map<Id, Order>)
    ensures forall id :: id in r <==> id in orders && orders[id].customerId == customerId
    ensures forall id :: id in r ==> r[id] == orders[id]
  {
    map id | id in orders && orders[id].customerId == customerId :: orders[id]
  }

  /** The orders in one status (`findByStatus`). */
  function OrdersWithStatus(orders: map<Id, Order>, status: Status): (r: map<Id, Order>)
    ensures forall id :: id in r <==> id in orders && orders[id].status == status
    ensures forall id :: id in r ==> r[id] == orders[id]
  {
    map id | id in orders && orders[id].status == status :: orders[id]
  }
}
