/** The cart total: the `reduce` fold the cart evaluates, and the sum of
    price times quantity it is meant to compute. */
module CartTotal {
  import opened LineItems

  /** What one line item contributes to the total. */
  function Subtotal(it: Item): int
  {
    it.price * it.quantity
  }

  /** Reference definition: the sum of price times quantity over the line items. */
  function Total(items: seq<Item>): int
  {
    SumBy(items, Subtotal)
  }

  /** The fold as the cart evaluates it, left to right from an accumulator:
      `total + producto.price * producto.quantity` for each line item. */
  function FoldTotal(acc: int, items: seq<Item>): int
    decreases items
  {
    if items == [] then acc else FoldTotal(acc + Subtotal(items[0]), items[1..])
  }

  /** The left fold from any accumulator adds the reference total to it; from
      0 it is exactly the reference total (0 for an empty cart). */
  lemma {:induction false} FoldTotalIsTotal(acc: int, items: seq<Item>)
    ensures FoldTotal(acc, items) == acc + Total(items)
    decreases items
  {
    if items != [] {
      FoldTotalIsTotal(acc + Subtotal(items[0]), items[1..]);
    }
  }

  /** The total of two carts laid end to end is the sum of their totals. */
  lemma {:induction false} TotalAppend(a: seq<Item>, b: seq<Item>)
    ensures Total(a + b) == Total(a) + Total(b)
  {
    SumByAppend(a, b, Subtotal);
  }

  /** With non-negative prices and positive quantities the total is
      non-negative, and it is 0 only for an empty cart when every price is
      positive. */
  lemma {:induction false} TotalBounds(items: seq<Item>)
    requires forall k :: 0 <= k < |items| ==> items[k].price >= 0
    requires PositiveQuantities(items)
    ensures Total(items) >= 0
    ensures (forall k :: 0 <= k < |items| ==> items[k].price >= 1) ==> (Total(items) == 0 <==> items == [])
  {
    if items != [] {
      var rest := items[1..];
      forall k | 0 <= k < |rest| ensures rest[k] == items[k + 1] { }
      TotalBounds(rest);
      assert Subtotal(items[0]) >= 0 by {
        assert items[0].price >= 0 && items[0].quantity >= 1;
      }
      if forall k :: 0 <= k < |items| ==> items[k].price >= 1 {
        assert Subtotal(items[0]) >= 1 by {
          assert items[0].price >= 1 && items[0].quantity >= 1;
        }
      }
    }
  }
}
