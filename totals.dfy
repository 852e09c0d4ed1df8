/** Order totals of the checkout screen: the subtotal fold over the cart,
    the fixed 10% tax and the grand total. Amounts are reals: the
    floating-point rounding of the original arithmetic is not modelled. */
module Totals {

  /** One line of the cart as the cart store holds it. */
  datatype CartItem = CartItem(id: int, name: string, price: real, quantity: int)

  /** What the cart store guarantees about an item (not re-checked at checkout). */
  predicate WellFormed(item: CartItem)
  {
    item.price >= 0.0 && item.quantity >= 1
  }

  predicate AllWellFormed(items: seq<CartItem>)
  {
    forall i :: 0 <= i < |items| ==> WellFormed(items[i])
  }

  function LineTotal(item: CartItem): real
  {
    item.price * item.quantity as real
  }

  /** The `reduce` step `(sum, item) => sum + item.price * item.quantity`,
      folded left over `items` starting from the accumulator `acc`. */
  function Fold(acc: real, items: seq<CartItem>): real
    decreases |items|
  {
    if items == [] then acc else Fold(acc + LineTotal(items[0]), items[1..])
  }

  /** Reference definition: the sum of the line totals. */
  function Sum(items: seq<CartItem>): real
    decreases |items|
  {
    if items == [] then 0.0 else LineTotal(items[0]) + Sum(items[1..])
  }

  /** The left fold computes the sum, whatever the starting accumulator. */
  lemma {:induction false} FoldIsSum(acc: real, items: seq<CartItem>)
    ensures Fold(acc, items) == acc + Sum(items)
    decreases |items|
  {
    if items != [] {
      FoldIsSum(acc + LineTotal(items[0]), items[1..]);
    }
  }

  /** Summing a concatenation sums the parts: the subtotal does not depend
      on how the cart is split. */
  lemma {:induction false} SumAppend(a: seq<CartItem>, b: seq<CartItem>)
    ensures Sum(a + b) == Sum(a) + Sum(b)
    decreases |a|
  {
    if a != [] {
      assert (a + b)[0] == a[0] && (a + b)[1..] == a[1..] + b;
      SumAppend(a[1..], b);
    } else {
      assert a + b == b;
    }
  }

  /** Every well-formed cart has a non-negative subtotal. */
  lemma {:induction false} SumNonNegative(items: seq<CartItem>)
    requires AllWellFormed(items)
    ensures Sum(items) >= 0.0
    decreases |items|
  {
    if items != [] {
      assert WellFormed(items[0]);
      assert AllWellFormed(items[1..]) by {
        forall i | 0 <= i < |items[1..]| ensures WellFormed(items[1..][i]) {
          assert items[1..][i] == items[i + 1];
        }
      }
      SumNonNegative(items[1..]);
    }
  }

  const TaxRate: real := 0.1

  datatype OrderTotals = OrderTotals(subtotal: real, tax: real, total: real)

  /** The subtotal, tax and total shown in the summary and sent with the order. */
  function ComputeTotals(items: seq<CartItem>): (t: OrderTotals)
    ensures t.subtotal == Sum(items)
    ensures t.total == 1.1 * t.subtotal && t.tax == t.total - t.subtotal
    ensures AllWellFormed(items) ==> 0.0 <= t.tax && 0.0 <= t.subtotal <= t.total
    ensures items == [] ==> t == OrderTotals(0.0, 0.0, 0.0)
  {
    FoldIsSum(0.0, items);
    assert AllWellFormed(items) ==> Sum(items) >= 0.0 by {
      if AllWellFormed(items) { SumNonNegative(items); }
    }
    var subtotal := Fold(0.0, items);
    var tax := subtotal * TaxRate;
    OrderTotals(subtotal, tax, subtotal + tax)
  }

  /** Adding an item to the cart raises the total by 1.1 times its line total. */
  lemma TotalAfterAdding(items: seq<CartItem>, item: CartItem)
    ensures ComputeTotals(items + [item]).total == ComputeTotals(items).total + 1.1 * LineTotal(item)
  {
    SumAppend(items, [item]);
    assert Sum([item]) == LineTotal(item) + Sum([]);
  }

  /** One item priced 10 in quantity 2: subtotal 20, tax 2, total 22. */
  lemma SampleCartTotals()
    ensures ComputeTotals([CartItem(1, "Widget", 10.0, 2)]) == OrderTotals(20.0, 2.0, 22.0)
  {
  }
}
