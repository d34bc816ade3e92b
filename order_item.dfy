/**
 * The `OrderItem` entity. Its setters assign fields in place, and `setQuantity` and
 * `setUnitPrice` recompute `subtotal` through the persist/update hook
 * `calculateSubtotal`. The `order` and `product` associations are kept as ids.
 */
module OrderItems {
  import opened Common

  class OrderItem {
    var id: Option<Id>
    var order: Option<Id>
    var product: Option<Id>
    var quantity: Option<int>
    var unitPrice: Option<Money>
    var subtotal: Option<Money>

    /** The subtotal is unitPrice × quantity. */
    predicate Consistent()
      reads this
    {
      quantity.Some? && unitPrice.Some? && subtotal == Some(unitPrice.value * quantity.value)
    }

    /** The bean-validation constraints of the entity: quantity ≥ 1, unitPrice > 0, subtotal > 0. */
    predicate MeetsConstraints()
      reads this
    {
      && quantity.Some? && quantity.value >= 1
      && unitPrice.Some? && unitPrice.value > 0
      && subtotal.Some? && subtotal.value > 0
    }

    /** `new OrderItem()`: every field null. */
    constructor Init()
      ensures id.None? && order.None? && product.None?
      ensures quantity.None? && unitPrice.None? && subtotal.None?
    {
      id, order, product := None, None, None;
      quantity, unitPrice, subtotal := None, None, None;
    }

    /** `new OrderItem(order, product, quantity, unitPrice)`. */
    constructor (order: Option<Id>, product: Option<Id>, quantity: int, unitPrice: Money)
      ensures this.id.None? && this.order == order && this.product == product
      ensures this.quantity == Some(quantity) && this.unitPrice == Some(unitPrice)
      ensures Consistent()
      ensures quantity >= 1 && unitPrice > 0 ==> MeetsConstraints()
    {
      this.id := None;
      this.order := order;
      this.product := product;
      this.quantity := Some(quantity);
      this.unitPrice := Some(unitPrice);
      this.subtotal := Some(unitPrice * quantity);
      new;
      PositiveProduct(unitPrice, quantity);
    }

    /** `calculateSubtotal`: recompute only when both factors are present. */
    method CalculateSubtotal()
      modifies this`subtotal
      ensures quantity.Some? && unitPrice.Some? ==> Consistent()
      ensures quantity.None? || unitPrice.None? ==> subtotal == old(subtotal)
    {
      if unitPrice.Some? && quantity.Some? {
        subtotal := Some(unitPrice.value * quantity.value);
      }
    }

    method SetQuantity(q: Option<int>)
      modifies this`quantity, this`subtotal
      ensures quantity == q
      ensures q.Some? && unitPrice.Some? ==> Consistent()
      ensures q.None? || unitPrice.None? ==> subtotal == old(subtotal)
    {
      quantity := q;
      CalculateSubtotal();
    }

    method SetUnitPrice(u: Option<Money>)
      modifies this`unitPrice, this`subtotal
      ensures unitPrice == u
      ensures u.Some? && quantity.Some? ==> Consistent()
      ensures u.None? || quantity.None? ==> subtotal == old(subtotal)
    {
      unitPrice := u;
      CalculateSubtotal();
    }

    /** `setSubtotal` stores the value as given, whatever the factors are. */
    method SetSubtotal(s: Option<Money>)
      modifies this`subtotal
      ensures subtotal == s
    {
      subtotal := s;
    }

    method SetId(i: Option<Id>)
      modifies this`id
      ensures id == i
      ensures quantity == old(quantity) && unitPrice == old(unitPrice) && subtotal == old(subtotal)
    {
      id := i;
    }

    method SetOrder(o: Option<Id>)
      modifies this`order
      ensures order == o
      ensures quantity == old(quantity) && unitPrice == old(unitPrice) && subtotal == old(subtotal)
    {
      order := o;
    }

    method SetProduct(p: Option<Id>)
      modifies this`product
      ensures product == p
      ensures quantity == old(quantity) && unitPrice == old(unitPrice) && subtotal == old(subtotal)
    {
      product := p;
    }
  }

  lemma PositiveProduct(u: Money, q: int)
    ensures u > 0 && q >= 1 ==> u * q > 0
  {
  }

  /**
   * `setSubtotal` can make the subtotal disagree with its factors; the next
   * persist/update hook puts it back. Returns the subtotal after each step.
   */
  method SetSubtotalThenPersist(quantity: int, unitPrice: Money, s: Money)
    returns (afterSet: Option<Money>, afterHook: Option<Money>)
    requires s != unitPrice * quantity
    ensures afterSet == Some(s) && afterSet != Some(unitPrice * quantity)
    ensures afterHook == Some(unitPrice * quantity)
  {
    var item := new OrderItem(None, None, quantity, unitPrice);
    item.SetSubtotal(Some(s));
    afterSet := item.subtotal;
    item.CalculateSubtotal();
    afterHook := item.subtotal;
  }
}
