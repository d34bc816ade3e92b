/**
 * The order transfer object of the `com.saif.ecommerce` API: a mutable object whose
 * item list grows in place and whose `calculateTotalAmount` folds the item subtotals
 * into `totalAmount`.
 */
module OrderDtos {
  import opened Common

  /** `OrderDto.OrderItemDto`; every field may be null. */
  datatype OrderItemDto = OrderItemDto(
    productId: Option<Id>,
    productName: Option<string>,
    quantity: Option<int>,
    unitPrice: Option<Money>,
    subtotal: Option<Money>)

  /** The request constructor `OrderItemDto(productId, quantity)`: name, price and subtotal stay null. */
  function RequestItem(productId: Id, quantity: int): (r: OrderItemDto)
    ensures r.productId == Some(productId) && r.quantity == Some(quantity)
    ensures r.productName.None? && r.unitPrice.None? && r.subtotal.None?
  {
    OrderItemDto(Some(productId), None, Some(quantity), None, None)
  }

  /**
   * The stream fold of `calculateTotalAmount`: the sum of the subtotals, or None when a
   * subtotal is null (adding null throws).
   */
  function SubtotalSum(items: seq<OrderItemDto>): (r: Option<Money>)
    ensures r.Some? <==> forall k :: 0 <= k < |items| ==> items[k].subtotal.Some?
    ensures r.Some? && (forall k :: 0 <= k < |items| ==> items[k].subtotal.value >= 0) ==> r.value >= 0
  {
    if items == [] then Some(0)
    else
      match (items[0].subtotal, SubtotalSum(items[1..]))
      case (Some(head), Some(rest)) => Some(head + rest)
      case _ => None
  }

  /** Adding an item and recomputing adds that item's subtotal to the previous sum. */
  lemma {:induction false} SubtotalSumAppend(items: seq<OrderItemDto>, item: OrderItemDto)
    ensures SubtotalSum(items + [item]) ==
              if SubtotalSum(items).Some? && item.subtotal.Some?
              then Some(SubtotalSum(items).value + item.subtotal.value)
              else None
  {
    if items != [] {
      assert (items + [item])[1..] == items[1..] + [item];
      SubtotalSumAppend(items[1..], item);
    }
  }

  /** Items built by the request constructor carry no subtotal, so their total cannot be computed. */
  lemma RequestItemsHaveNoTotal(items: seq<OrderItemDto>, productIds: seq<Id>, quantities: seq<int>)
    requires |items| > 0 && |productIds| == |items| && |quantities| == |items|
    requires forall k :: 0 <= k < |items| ==> items[k] == RequestItem(productIds[k], quantities[k])
    ensures SubtotalSum(items) == None
  {
    assert items[0].subtotal.None?;
  }

  /** The bean-validation constraints of an item: product id present, quantity ≥ 1, unit price > 0. */
  predicate ValidItem(i: OrderItemDto)
  {
    && i.productId.Some?
    && i.quantity.Some? && i.quantity.value >= 1
    && i.unitPrice.Some? && i.unitPrice.value > 0
  }

  /** A valid item whose subtotal has been set to unit price × quantity. */
  predicate PricedItem(i: OrderItemDto)
  {
    ValidItem(i) && i.subtotal == Some(i.unitPrice.value * i.quantity.value)
  }

  /** Valid, priced items always have a total, and a positive one when there is at least one item. */
  lemma {:induction false} PricedItemsHaveTotal(items: seq<OrderItemDto>)
    requires forall k :: 0 <= k < |items| ==> PricedItem(items[k])
    ensures SubtotalSum(items).Some?
    ensures |items| > 0 ==> SubtotalSum(items).value > 0
  {
    if items != [] {
      PricedItemsHaveTotal(items[1..]);
      var u, q := items[0].unitPrice.value, items[0].quantity.value;
      assert u * q == u * (q - 1) + u;
    }
  }

  class OrderDto {
    var id: Option<Id>
    var customerId: Option<Id>
    var customerName: Option<string>
    var customerEmail: Option<string>
    var status: Option<string>
    var totalAmount: Option<Money>
    var orderItems: seq<OrderItemDto>

    /** The bean-validation constraints: status present, total present and not negative. */
    predicate MeetsConstraints()
      reads this
    {
      status.Some? && totalAmount.Some? && totalAmount.value >= 0
    }

    /** `new OrderDto()`: an empty item list, everything else null. */
    constructor ()
      ensures id.None? && customerId.None? && customerName.None? && customerEmail.None?
      ensures status.None? && totalAmount.None? && orderItems == []
    {
      id, customerId, customerName, customerEmail := None, None, None, None;
      status, totalAmount, orderItems := None, None, [];
    }

    /** The creation constructor `OrderDto(customerId, orderItems)`. */
    constructor ForCreation(customerId: Id, orderItems: seq<OrderItemDto>)
      ensures this.customerId == Some(customerId) && this.orderItems == orderItems
      ensures status == Some("PENDING") && totalAmount == Some(0)
      ensures id.None? && customerName.None? && customerEmail.None?
      ensures MeetsConstraints()
    {
      id, customerName, customerEmail := None, None, None;
      this.customerId := Some(customerId);
      this.orderItems := orderItems;
      status := Some("PENDING");
      totalAmount := Some(0);
    }

    /** `addOrderItem`: append at the end; the total is not recomputed. */
    method AddOrderItem(item: OrderItemDto)
      modifies this`orderItems
      ensures orderItems == old(orderItems) + [item]
      ensures |orderItems| == |old(orderItems)| + 1
      ensures orderItems[..|old(orderItems)|] == old(orderItems)
    {
      orderItems := orderItems + [item];
    }

    /**
     * `calculateTotalAmount`: `totalAmount` becomes the sum of the item subtotals (0 for no
     * items). A null subtotal throws before the assignment, leaving `totalAmount` as it
     * was. The result depends on the item list alone, which it does not change, so
     * calling it twice gives the same state as calling it once.
     */
    method CalculateTotalAmount() returns (r: Result<()>)
      modifies this`totalAmount
      ensures r.Ok? <==> forall k :: 0 <= k < |orderItems| ==> orderItems[k].subtotal.Some?
      ensures r.Err? ==> r.error == NullValue && totalAmount == old(totalAmount)
      ensures r.Ok? ==> totalAmount == SubtotalSum(orderItems)
      ensures orderItems == [] ==> totalAmount == Some(0)
      ensures (forall k :: 0 <= k < |orderItems| ==> PricedItem(orderItems[k])) ==>
                r.Ok? && (status.Some? ==> MeetsConstraints())
    {
      if forall k :: 0 <= k < |orderItems| ==> PricedItem(orderItems[k]) {
        PricedItemsHaveTotal(orderItems);
      }
      var sum := SubtotalSum(orderItems);
      if sum.None? {
        return Err(NullValue);
      }
      totalAmount := sum;
      r := Ok(());
    }
  }
}
