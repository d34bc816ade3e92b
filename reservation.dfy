/**
 * What `createOrder` and `cancelOrder` do to the catalog, stated as functions of the
 * catalog before the call. `createOrder` processes its lines in request order and writes
 * each decrement back before the next line is looked up, so line k is checked against
 * the stock left by lines 0..k-1; all of it commits only when every line passes.
 */
module Reservation {
  import opened Common
  import opened Entities

  /** A requested line of `createOrder` (`OrderItemCreateDto`). */
  datatype Line = Line(productId: Id, quantity: int)

  type Catalog = map<Id, Product>

  /** Units of product `pid` asked for by the first `n` lines. */
  function Requested(lines: seq<Line>, n: nat, pid: Id): (r: int)
    requires n <= |lines|
  {
    if n == 0 then 0
    else Requested(lines, n - 1, pid) + (if lines[n - 1].productId == pid then lines[n - 1].quantity else 0)
  }

  /** The catalog once the first `n` lines have taken their units: only stock changes. */
  function Remaining(c: Catalog, lines: seq<Line>, n: nat): (r: Catalog)
    requires n <= |lines|
  {
    map pid | pid in c :: c[pid].(stockQuantity := c[pid].stockQuantity - Requested(lines, n, pid))
  }

  /** The catalog once the units of the first `n` lines have been put back. */
  function Restock(c: Catalog, lines: seq<Line>, n: nat): (r: Catalog)
    requires n <= |lines|
  {
    map pid | pid in c :: c[pid].(stockQuantity := c[pid].stockQuantity + Requested(lines, n, pid))
  }

  /** Why line `k` is refused when it is processed after lines 0..k-1, if it is. */
  function LineFailure(c: Catalog, lines: seq<Line>, k: nat): (r: Option<Error>)
    requires k < |lines|
  {
    var pid := lines[k].productId;
    if pid !in c then Some(NotFound(ProductEntity, pid))
    else if c[pid].stockQuantity - Requested(lines, k, pid) < lines[k].quantity then
      Some(InsufficientStock(c[pid].name))
    else None
  }

  /** None of the first `n` lines is refused. */
  ghost predicate FeasibleUpTo(c: Catalog, lines: seq<Line>, n: nat)
    requires n <= |lines|
  {
    forall k :: 0 <= k < n ==> LineFailure(c, lines, k).None?
  }

  ghost predicate Feasible(c: Catalog, lines: seq<Line>)
  {
    FeasibleUpTo(c, lines, |lines|)
  }

  /** The order item created for line `l`: the product's price at that moment is the unit price. */
  function ItemFor(c: Catalog, l: Line): (r: LineItem)
    requires l.productId in c
  {
    var price := c[l.productId].price;
    LineItem(l.productId, l.quantity, price, price * l.quantity)
  }

  /** The (product, quantity) pairs an order's items give back when it is cancelled. */
  function Demand(items: seq<LineItem>): (r: seq<Line>)
  {
    seq(|items|, k requires 0 <= k < |items| => Line(items[k].productId, items[k].quantity))
  }

  /** Processing line `i` subtracts its quantity from its product, on top of lines 0..i-1. */
  lemma RemainingStep(c: Catalog, lines: seq<Line>, i: nat)
    requires i < |lines| && lines[i].productId in c
    ensures var pid := lines[i].productId;
            var w := Remaining(c, lines, i);
            Remaining(c, lines, i + 1) == w[pid := w[pid].(stockQuantity := w[pid].stockQuantity - lines[i].quantity)]
  {
  }

  /** Taking units changes stock only: the catalog keeps the same products. */
  lemma RemainingKeys(c: Catalog, lines: seq<Line>, n: nat)
    requires n <= |lines|
    ensures Remaining(c, lines, n).Keys == c.Keys
  {
  }

  /** Line `i` is judged on the catalog left by lines 0..i-1. */
  lemma LineFailureOnRemaining(c: Catalog, lines: seq<Line>, i: nat)
    requires i < |lines|
    ensures var pid := lines[i].productId;
            var w := Remaining(c, lines, i);
            LineFailure(c, lines, i) ==
              if pid !in w then Some(NotFound(ProductEntity, pid))
              else if w[pid].stockQuantity < lines[i].quantity then Some(InsufficientStock(w[pid].name))
              else None
  {
  }

  /**
   * The stock check compares the stock with the quantity and nothing else: a line asking
   * for 0 units or fewer passes whenever the product's stock is not negative, and taking
   * its units raises that stock instead of lowering it.
   */
  lemma NonPositiveQuantityRaisesStock(c: Catalog, lines: seq<Line>, i: nat)
    requires i < |lines| && lines[i].productId in c && lines[i].quantity <= 0
    requires Remaining(c, lines, i)[lines[i].productId].stockQuantity >= 0
    ensures LineFailure(c, lines, i).None?
    ensures var pid := lines[i].productId;
            Remaining(c, lines, i + 1)[pid].stockQuantity
              == Remaining(c, lines, i)[pid].stockQuantity + (-lines[i].quantity)
            >= Remaining(c, lines, i)[pid].stockQuantity
  {
    LineFailureOnRemaining(c, lines, i);
    RemainingStep(c, lines, i);
  }

  /** Stock 3 and a request for -5 units: the order passes and the stock becomes 8. */
  lemma NegativeQuantityExample()
    ensures var c := map[1 := Product("P", "", 100, "misc", 3)];
            var lines := [Line(1, -5)];
            Feasible(c, lines) && Remaining(c, lines, 1)[1].stockQuantity == 8
  {
    var c := map[1 := Product("P", "", 100, "misc", 3)];
    var lines := [Line(1, -5)];
    assert Requested(lines, 0, 1) == 0;
    assert LineFailure(c, lines, 0).None?;
  }

  lemma {:induction false} PrefixStockNonNegative(c: Catalog, lines: seq<Line>, n: nat)
    requires n <= |lines|
    requires StockNonNegative(c) && FeasibleUpTo(c, lines, n)
    ensures forall pid :: pid in c ==> c[pid].stockQuantity - Requested(lines, n, pid) >= 0
  {
    if n > 0 {
      PrefixStockNonNegative(c, lines, n - 1);
      assert LineFailure(c, lines, n - 1).None?;
    }
  }

  /** No oversell: an order that passes every check leaves no stock negative. */
  lemma NoOversell(c: Catalog, lines: seq<Line>)
    requires StockNonNegative(c) && Feasible(c, lines)
    ensures StockNonNegative(Remaining(c, lines, |lines|))
  {
    PrefixStockNonNegative(c, lines, |lines|);
  }

  lemma {:induction false} RequestedOfAbsent(lines: seq<Line>, n: nat, pid: Id)
    requires n <= |lines|
    requires forall k :: 0 <= k < n ==> lines[k].productId != pid
    ensures Requested(lines, n, pid) == 0
  {
    if n > 0 {
      RequestedOfAbsent(lines, n - 1, pid);
    }
  }

  /** A product no line names keeps its stock. */
  lemma UnrequestedUnchanged(c: Catalog, lines: seq<Line>, pid: Id)
    requires pid in c
    requires forall k :: 0 <= k < |lines| ==> lines[k].productId != pid
    ensures pid in Remaining(c, lines, |lines|) && Remaining(c, lines, |lines|)[pid] == c[pid]
  {
    RequestedOfAbsent(lines, |lines|, pid);
  }

  /** A feasible request only names products of the catalog. */
  lemma FeasibleNamesKnownProducts(c: Catalog, lines: seq<Line>)
    requires Feasible(c, lines)
    ensures forall k :: 0 <= k < |lines| ==> lines[k].productId in c
  {
    forall k | 0 <= k < |lines|
      ensures lines[k].productId in c
    {
      assert LineFailure(c, lines, k).None?;
    }
  }

  /**
   * Cancelling the order that `createOrder` made from `lines` puts every product's
   * stock back to its value before the order was created.
   */
  lemma CancelUndoesCreate(c: Catalog, lines: seq<Line>, items: seq<LineItem>)
    requires |items| == |lines|
    requires forall k :: 0 <= k < |lines| ==> lines[k].productId in c && items[k] == ItemFor(c, lines[k])
    ensures Restock(Remaining(c, lines, |lines|), Demand(items), |items|) == c
  {
    assert Demand(items) == lines;
  }

  /**
   * `cancelOrder` has no guard against an order that is already CANCELLED: cancelling
   * the same order twice puts its units back twice.
   */
  lemma CancelTwiceRestoresTwice(c: Catalog, lines: seq<Line>, items: seq<LineItem>, pid: Id)
    requires |items| == |lines|
    requires forall k :: 0 <= k < |lines| ==> lines[k].productId in c && items[k] == ItemFor(c, lines[k])
    requires pid in c
    ensures var once := Restock(Remaining(c, lines, |lines|), Demand(items), |items|);
            var twice := Restock(once, Demand(items), |items|);
            pid in twice && twice[pid].stockQuantity == c[pid].stockQuantity + Requested(lines, |lines|, pid)
  {
    CancelUndoesCreate(c, lines, items);
    assert Demand(items) == lines;
  }

  /** Outcome of `n` single-unit orders for product `pid` placed one after another: (catalog, successes). */
  ghost function UnitOrders(c: Catalog, pid: Id, n: nat): (r: (Catalog, nat))
  {
    if n == 0 then (c, 0)
    else
      var (before, succeeded) := UnitOrders(c, pid, n - 1);
      if Feasible(before, [Line(pid, 1)]) then (Remaining(before, [Line(pid, 1)], 1), succeeded + 1)
      else (before, succeeded)
  }

  /**
   * `n` one-unit orders against a product with stock S: exactly min(n, S) of them
   * succeed and the stock ends at S - min(n, S).
   */
  lemma {:induction false} UnitOrdersNeverOversell(c: Catalog, pid: Id, n: nat)
    requires pid in c && c[pid].stockQuantity >= 0
    ensures var (after, succeeded) := UnitOrders(c, pid, n);
            var s := c[pid].stockQuantity;
            && succeeded == (if n <= s then n else s)
            && pid in after && after[pid].stockQuantity == s - succeeded
  {
    if n > 0 {
      UnitOrdersNeverOversell(c, pid, n - 1);
      var (before, _) := UnitOrders(c, pid, n - 1);
      var one := [Line(pid, 1)];
      assert Requested(one, 0, pid) == 0;
      assert Feasible(before, one) <==> LineFailure(before, one, 0).None?;
      assert Requested(one, 1, pid) == 1;
    }
  }

  /**
   * One order end to end: product P with stock 10 and price 9.99; an order for 3 units
   * costs 29.97 and leaves 7; cancelling gives back 10, cancelling again 13.
   */
  lemma Scenario()
    ensures var c := map[1 := Product("P", "", 999, "misc", 10)];
            var lines := [Line(1, 3)];
            var items := [ItemFor(c, lines[0])];
            var created := Remaining(c, lines, 1);
            var cancelled := Restock(created, Demand(items), 1);
            && Feasible(c, lines)
            && Total(items) == 2997
            && created[1].stockQuantity == 7
            && cancelled[1].stockQuantity == 10
            && Restock(cancelled, Demand(items), 1)[1].stockQuantity == 13
  {
    var c := map[1 := Product("P", "", 999, "misc", 10)];
    var lines := [Line(1, 3)];
    var items := [ItemFor(c, lines[0])];
    assert Requested(lines, 0, 1) == 0;
    assert LineFailure(c, lines, 0).None?;
    assert Demand(items) == lines;
    assert Total(items) == Total([]) + 2997;
  }
}
