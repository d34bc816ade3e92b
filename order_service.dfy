/**
 * `OrderService`: order creation with stock reservation, status updates and
 * cancellation with stock restoration. Every public method of the source runs in one
 * transaction (class-level `@Transactional`): a `RuntimeException` rolls back all its
 * writes, so each method here either commits all its changes or none.
 */
module Orders {
  import opened Common
  import opened Entities
  import opened Repositories
  import opened Reservation
  import opened OrderItems

  class OrderService {
    const customers: CustomerRepository
    const products: ProductRepository
    const orders: OrderRepository

    /** Stored orders are well formed and order ids come from the repository's counter. */
    ghost predicate Valid()
      reads orders
    {
      orders.Valid() && forall id :: id in orders.rows ==> WellFormed(orders.rows[id])
    }

    constructor (customers: CustomerRepository, products: ProductRepository, orders: OrderRepository)
      ensures this.customers == customers && this.products == products && this.orders == orders
    {
      this.customers := customers;
      this.products := products;
      this.orders := orders;
    }

    /** `getOrdersByCustomerId` (without paging). */
    function GetOrdersByCustomerId(customerId: Id): (r: map<Id, Order>)
      reads orders
      ensures forall id :: id in r <==> id in orders.rows && orders.rows[id].customerId == customerId
      ensures forall id :: id in r ==> r[id] == orders.rows[id]
    {
      OrdersOf(orders.rows, customerId)
    }

    /** `getOrdersByStatus`. */
    function GetOrdersByStatus(status: Status): (r: map<Id, Order>)
      reads orders
      ensures forall id :: id in r <==> id in orders.rows && orders.rows[id].status == status
      ensures forall id :: id in r ==> r[id] == orders.rows[id]
    {
      OrdersWithStatus(orders.rows, status)
    }

    /**
     * `createOrder(customerId, lines)`. The lines are processed in request order; a
     * missing customer, a missing product or a line asking for more than the stock left
     * by the earlier lines fails the call and nothing is written. On success every
     * product loses exactly the units asked for it and one PENDING order is added whose
     * items follow the lines, priced at the products' prices, with the sum of the
     * subtotals as total.
     */
    method CreateOrder(customerId: Id, lines: seq<Line>) returns (r: Result<Id>)
      requires Valid()
      requires |lines| > 0
      requires forall k :: 0 <= k < |lines| ==> lines[k].quantity >= 1
      modifies products`rows, orders
      ensures Valid()
      ensures customerId !in customers.rows ==> r == Err(NotFound(CustomerEntity, customerId))
      ensures r.Ok? <==> customerId in customers.rows && Feasible(old(products.rows), lines)
      ensures r.Err? && customerId in customers.rows ==>
                exists k :: 0 <= k < |lines| && FeasibleUpTo(old(products.rows), lines, k)
                            && LineFailure(old(products.rows), lines, k) == Some(r.error)
      ensures r.Err? ==> unchanged(products, orders)
      ensures r.Ok? ==> products.rows == Remaining(old(products.rows), lines, |lines|)
      ensures r.Ok? ==> r.value !in old(orders.rows) && r.value in orders.rows
      ensures r.Ok? ==> orders.rows == old(orders.rows)[r.value := orders.rows[r.value]]
      ensures r.Ok? ==> PlacedFrom(orders.rows[r.value], customerId, old(products.rows), lines)
      ensures products.rows.Keys == old(products.rows.Keys)
      ensures old(products.Valid()) ==> products.Valid()
      ensures old(StockNonNegative(products.rows)) ==> StockNonNegative(products.rows)
    {
      if customerId !in customers.rows {
        return Err(NotFound(CustomerEntity, customerId));
      }
      var catalog := products.rows;
      // Stock is written to this copy; it reaches the repository only if every line passes.
      var work := catalog;
      var items: seq<LineItem> := [];
      var total: Money := 0;
      var i := 0;
      while i < |lines|
        invariant 0 <= i <= |lines|
        invariant FeasibleUpTo(catalog, lines, i)
        invariant work == Remaining(catalog, lines, i)
        invariant |items| == i
        invariant forall k :: 0 <= k < i ==> lines[k].productId in catalog && items[k] == ItemFor(catalog, lines[k])
        invariant total == Total(items)
        invariant unchanged(products, orders)
      {
        var line := lines[i];
        LineFailureOnRemaining(catalog, lines, i);
        if line.productId !in work {
          assert LineFailure(catalog, lines, i) == Some(NotFound(ProductEntity, line.productId));
          return Err(NotFound(ProductEntity, line.productId));
        }
        var product := work[line.productId];
        if product.stockQuantity < line.quantity {
          assert LineFailure(catalog, lines, i) == Some(InsufficientStock(product.name));
          return Err(InsufficientStock(product.name));
        }
        var item := new OrderItem.Init();
        item.SetProduct(Some(line.productId));
        item.SetQuantity(Some(line.quantity));
        item.SetUnitPrice(Some(product.price));
        var persisted := LineItem(item.product.value, item.quantity.value, item.unitPrice.value, item.subtotal.value);
        TotalAppend(items, persisted);
        RemainingStep(catalog, lines, i);
        items := items + [persisted];
        total := total + persisted.subtotal;
        work := work[line.productId := product.(stockQuantity := product.stockQuantity - line.quantity)];
        i := i + 1;
      }
      RemainingKeys(catalog, lines, |lines|);
      products.rows := work;
      var order := Order(customerId, Pending, total, items);
      assert PlacedFrom(order, customerId, catalog, lines);
      var id := orders.Insert(order);
      NoOversellIfNonNegative(catalog, lines);
      r := Ok(id);
    }

    /**
     * `updateOrderStatus`: an unknown id fails; otherwise the status becomes `status`
     * whatever it was, and nothing else changes.
     */
    method UpdateOrderStatus(orderId: Id, status: Status) returns (r: Result<Order>)
      requires Valid()
      modifies orders
      ensures Valid()
      ensures r.Err? <==> orderId !in old(orders.rows)
      ensures r.Err? ==> r.error == NotFound(OrderEntity, orderId) && unchanged(orders)
      ensures r.Ok? ==>
                && r.value == old(orders.rows[orderId]).(status := status)
                && orders.rows == old(orders.rows)[orderId := r.value]
                && orders.nextId == old(orders.nextId)
    {
      if orderId !in orders.rows {
        return Err(NotFound(OrderEntity, orderId));
      }
      var order := orders.rows[orderId].(status := status);
      orders.rows := orders.rows[orderId := order];
      r := Ok(order);
    }

    /**
     * `cancelOrder`: an unknown id fails, and so does a DELIVERED order; both change
     * nothing. Any other order, a CANCELLED one included, gives every item's quantity
     * back to its product and becomes CANCELLED.
     */
    method CancelOrder(orderId: Id) returns (r: Result<()>)
      requires Valid()
      modifies products`rows, orders
      ensures Valid()
      ensures orderId !in old(orders.rows) ==> r == Err(NotFound(OrderEntity, orderId))
      ensures orderId in old(orders.rows) && old(orders.rows[orderId].status) == Delivered ==> r == Err(NotCancellable)
      ensures r.Ok? <==> orderId in old(orders.rows) && old(orders.rows[orderId].status) != Delivered
      ensures r.Err? ==> unchanged(products, orders)
      ensures r.Ok? ==>
                && var items := old(orders.rows[orderId].items);
                   products.rows == Restock(old(products.rows), Demand(items), |items|)
      ensures r.Ok? ==>
                && orders.rows == old(orders.rows)[orderId := old(orders.rows[orderId]).(status := Cancelled)]
                && orders.nextId == old(orders.nextId)
      ensures products.rows.Keys == old(products.rows.Keys)
      ensures old(products.Valid()) ==> products.Valid()
      ensures old(StockNonNegative(products.rows)) ==> StockNonNegative(products.rows)
    {
      if orderId !in orders.rows {
        return Err(NotFound(OrderEntity, orderId));
      }
      var order := orders.rows[orderId];
      if order.status == Delivered {
        return Err(NotCancellable);
      }
      ghost var catalog := products.rows;
      ghost var demand := Demand(order.items);
      var i := 0;
      while i < |order.items|
        invariant 0 <= i <= |order.items|
        invariant products.rows == Restock(catalog, demand, i)
        invariant products.rows.Keys == catalog.Keys
        invariant unchanged(orders)
        invariant StockNonNegative(catalog) ==> StockNonNegative(products.rows)
      {
        var item := order.items[i];
        assert item.quantity >= 1;
        if item.productId in products.rows {
          var product := products.rows[item.productId];
          products.rows := products.rows[item.productId := product.(stockQuantity := product.stockQuantity + item.quantity)];
        }
        i := i + 1;
      }
      orders.rows := orders.rows[orderId := order.(status := Cancelled)];
      r := Ok(());
    }

    /**
     * Creating an order and cancelling it straight away leaves every product's stock
     * as it was before.
     */
    method CreateThenCancel(customerId: Id, lines: seq<Line>) returns (r: Result<Id>)
      requires Valid()
      requires |lines| > 0
      requires forall k :: 0 <= k < |lines| ==> lines[k].quantity >= 1
      modifies products`rows, orders
      ensures Valid()
      ensures products.rows == old(products.rows)
      ensures r.Ok? ==> r.value in orders.rows && orders.rows[r.value].status == Cancelled
    {
      r := CreateOrder(customerId, lines);
      if r.Ok? {
        ghost var catalog := old(products.rows);
        ghost var items := orders.rows[r.value].items;
        var cancelled := CancelOrder(r.value);
        CancelUndoesCreate(catalog, lines, items);
      }
    }
  }

  /**
   * `o` is the order `createOrder(customerId, lines)` makes from catalog `c`: PENDING,
   * one item per line in request order, each priced at its product's price, and the
   * sum of the subtotals as total.
   */
  ghost predicate PlacedFrom(o: Order, customerId: Id, c: Catalog, lines: seq<Line>)
  {
    && o.customerId == customerId && o.status == Pending
    && |o.items| == |lines|
    && (forall k :: 0 <= k < |lines| ==> lines[k].productId in c && o.items[k] == ItemFor(c, lines[k]))
    && o.totalAmount == Total(o.items)
  }

  lemma NoOversellIfNonNegative(c: Catalog, lines: seq<Line>)
    requires Feasible(c, lines)
    ensures StockNonNegative(c) ==> StockNonNegative(Remaining(c, lines, |lines|))
  {
    if StockNonNegative(c) {
      NoOversell(c, lines);
    }
  }
}
