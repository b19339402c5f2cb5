/** Values the shopping cart works on: catalogue products, cart line items, the
    two array helpers the cart relies on (`find` by id, `filter` by id), the
    invariants the cart is meant to keep, and the quantity held per product id. */
module LineItems {

  datatype Option<T> = None | Some(value: T)

  /** A catalogue product as handed to the cart. Only the fields the cart reads
      are kept; prices are integers (for instance cents). */
  datatype Product = Product(id: int, price: int)

  /** A cart line item: the product's id and price plus the quantity held. */
  datatype Item = Item(id: int, price: int, quantity: int)

  /** The product ids present in a cart. */
  function Ids(items: seq<Item>): set<int>
  {
    if items == [] then {} else {items[0].id} + Ids(items[1..])
  }

  /** An id is present exactly when some position holds it. */
  lemma {:induction false} IdsIndex(items: seq<Item>, id: int)
    ensures id in Ids(items) <==> exists k :: 0 <= k < |items| && items[k].id == id
  {
    if items != [] {
      IdsIndex(items[1..], id);
      if exists k :: 0 <= k < |items| && items[k].id == id {
        var k :| 0 <= k < |items| && items[k].id == id;
        if k > 0 {
          assert items[1..][k - 1].id == id;
        }
      }
      if exists k :: 0 <= k < |items| - 1 && items[1..][k].id == id {
        var k :| 0 <= k < |items| - 1 && items[1..][k].id == id;
        assert items[k + 1].id == id;
      }
    }
  }

  /** The line items at positions i and j carry different ids. */
  predicate DistinctIds(items: seq<Item>, i: nat, j: nat)
    requires i < |items| && j < |items|
  {
    items[i].id != items[j].id
  }

  /** No two line items share a product id. */
  predicate UniqueIds(items: seq<Item>)
  {
    forall i: nat, j: nat :: i < j < |items| ==> DistinctIds(items, i, j)
  }

  /** Every line item holds at least one unit. */
  predicate PositiveQuantities(items: seq<Item>)
  {
    forall k :: 0 <= k < |items| ==> items[k].quantity >= 1
  }

  /** The two invariants a cart is meant to keep. */
  predicate WellFormed(items: seq<Item>)
  {
    UniqueIds(items) && PositiveQuantities(items)
  }

  /** Array.prototype.find with the predicate `prod.id === id`, giving the
      position of the FIRST line item with that id, or None. */
  function Find(items: seq<Item>, id: int): (r: Option<nat>)
    ensures r.None? <==> id !in Ids(items)
    ensures r.Some? ==> r.value < |items| && items[r.value].id == id
    ensures r.Some? ==> forall k :: 0 <= k < r.value ==> items[k].id != id
    ensures r.None? ==> forall k :: 0 <= k < |items| ==> items[k].id != id
  {
    if items == [] then None
    else if items[0].id == id then Some(0)
    else
      match Find(items[1..], id)
      case None => None
      case Some(i) => Some(i + 1)
  }

  /** Array.prototype.filter with the predicate `prod.id !== id`: every line
      item whose id differs from `id`, in the original order. */
  function WithoutId(items: seq<Item>, id: int): (r: seq<Item>)
    ensures Ids(r) == Ids(items) - {id}
    ensures id !in Ids(items) ==> r == items
  {
    if items == [] then []
    else
      var rest := WithoutId(items[1..], id);
      if items[0].id == id then
        rest
      else
        assert ([items[0]] + rest)[1..] == rest;
        assert id !in Ids(items) ==> [items[0]] + items[1..] == items;
        [items[0]] + rest
  }

  /** The filter keeps exactly the line items whose id differs from `id`. */
  lemma {:induction false} WithoutIdMembers(items: seq<Item>, id: int)
    ensures forall it :: it in WithoutId(items, id) <==> it in items && it.id != id
  {
    if items != [] {
      WithoutIdMembers(items[1..], id);
      assert items == [items[0]] + items[1..];
    }
  }

  /** Removing an id distributes over concatenation: the filter keeps the
      relative order of the surviving line items. */
  lemma {:induction false} WithoutIdAppend(a: seq<Item>, b: seq<Item>, id: int)
    ensures WithoutId(a + b, id) == WithoutId(a, id) + WithoutId(b, id)
  {
    if a == [] {
      assert a + b == b;
    } else {
      assert (a + b)[0] == a[0];
      assert (a + b)[1..] == a[1..] + b;
      WithoutIdAppend(a[1..], b, id);
    }
  }

  /** In a cart with unique ids, removing the id of the line item at `i`
      removes exactly that line item and keeps the others in order. */
  lemma {:induction false} WithoutIdUnique(items: seq<Item>, i: nat, id: int)
    requires UniqueIds(items)
    requires i < |items| && items[i].id == id
    ensures WithoutId(items, id) == items[..i] + items[i + 1..]
  {
    var tail := items[1..];
    UniqueIdsTail(items);
    if i == 0 {
      calc {
        WithoutId(items, id);
        WithoutId(tail, id);
        tail;
        { assert items[..0] == []; }
        items[..0] + items[1..];
      }
    } else {
      assert tail[i - 1] == items[i];
      assert items[0].id != id by {
        assert DistinctIds(items, 0, i);
      }
      calc {
        WithoutId(items, id);
        [items[0]] + WithoutId(tail, id);
        { WithoutIdUnique(tail, i - 1, id); }
        [items[0]] + (tail[..i - 1] + tail[i..]);
        { assert tail[..i - 1] == items[1..i] && tail[i..] == items[i + 1..]; }
        [items[0]] + (items[1..i] + items[i + 1..]);
        { assert [items[0]] + items[1..i] == items[..i]; }
        items[..i] + items[i + 1..];
      }
    }
  }

  /** A cart with unique ids: its first id does not recur and its tail has
      unique ids. */
  lemma {:induction false} UniqueIdsTail(items: seq<Item>)
    requires UniqueIds(items) && items != []
    ensures items[0].id !in Ids(items[1..]) && UniqueIds(items[1..])
  {
    UniqueIdsCons(items);
  }

  lemma {:induction false} UniqueIdsCons(items: seq<Item>)
    requires items != []
    ensures UniqueIds(items) <==> items[0].id !in Ids(items[1..]) && UniqueIds(items[1..])
  {
    IdsIndex(items[1..], items[0].id);
    if UniqueIds(items) {
      forall k | 0 <= k < |items| - 1 ensures items[1..][k].id != items[0].id {
        assert items[1..][k] == items[k + 1] && DistinctIds(items, 0, k + 1);
      }
      forall i: nat, j: nat | i < j < |items| - 1 ensures DistinctIds(items[1..], i, j) {
        assert items[1..][i] == items[i + 1] && items[1..][j] == items[j + 1];
        assert DistinctIds(items, i + 1, j + 1);
      }
    }
    if items[0].id !in Ids(items[1..]) && UniqueIds(items[1..]) {
      forall i: nat, j: nat | i < j < |items| ensures DistinctIds(items, i, j) {
        if i == 0 {
          assert items[j] == items[1..][j - 1];
        } else {
          assert items[i] == items[1..][i - 1] && items[j] == items[1..][j - 1];
          assert DistinctIds(items[1..], i - 1, j - 1);
        }
      }
    }
  }

  /** Removing an id keeps both cart invariants. */
  lemma {:induction false} WithoutIdWellFormed(items: seq<Item>, id: int)
    requires WellFormed(items)
    ensures WellFormed(WithoutId(items, id))
  {
    if items != [] {
      UniqueIdsCons(items);
      assert PositiveQuantities(items[1..]) by {
        forall k | 0 <= k < |items| - 1 ensures items[1..][k].quantity >= 1 {
          assert items[1..][k] == items[k + 1];
        }
      }
      WithoutIdWellFormed(items[1..], id);
      var rest := WithoutId(items[1..], id);
      if items[0].id != id {
        UniqueIdsCons([items[0]] + rest);
        assert ([items[0]] + rest)[1..] == rest;
        forall k | 0 <= k < |rest| + 1 ensures ([items[0]] + rest)[k].quantity >= 1 {
          if k > 0 { assert ([items[0]] + rest)[k] == rest[k - 1]; }
        }
      }
    }
  }

  /** Sum of `f` over the line items, front to back. */
  function SumBy(items: seq<Item>, f: Item -> int): int
  {
    if items == [] then 0 else f(items[0]) + SumBy(items[1..], f)
  }

  lemma {:induction false} SumByAppend(a: seq<Item>, b: seq<Item>, f: Item -> int)
    ensures SumBy(a + b, f) == SumBy(a, f) + SumBy(b, f)
  {
    if a == [] {
      assert a + b == b;
    } else {
      assert (a + b)[0] == a[0];
      assert (a + b)[1..] == a[1..] + b;
      SumByAppend(a[1..], b, f);
    }
  }

  /** Replacing one line item changes the sum by the difference of its terms. */
  lemma {:induction false} SumByUpdate(items: seq<Item>, i: nat, it: Item, f: Item -> int)
    requires i < |items|
    ensures SumBy(items[i := it], f) == SumBy(items, f) - f(items[i]) + f(it)
  {
    assert items == items[..i] + ([items[i]] + items[i + 1..]);
    assert items[i := it] == items[..i] + ([it] + items[i + 1..]);
    SumByAppend(items[..i], [items[i]] + items[i + 1..], f);
    SumByAppend(items[..i], [it] + items[i + 1..], f);
    SumByAppend([items[i]], items[i + 1..], f);
    SumByAppend([it], items[i + 1..], f);
  }

  /** The units of product `id` a line item accounts for. */
  function QuantityWeight(id: int): Item -> int
  {
    (it: Item) => if it.id == id then it.quantity else 0
  }

  /** The number of units of product `id` the cart holds, over all its line
      items (0 when the product is absent). */
  function QuantityOf(items: seq<Item>, id: int): int
  {
    SumBy(items, QuantityWeight(id))
  }

  /** An absent product has no units in the cart. */
  lemma {:induction false} QuantityOfAbsent(items: seq<Item>, id: int)
    requires id !in Ids(items)
    ensures QuantityOf(items, id) == 0
  {
    if items != [] {
      QuantityOfAbsent(items[1..], id);
    }
  }

  /** In a cart with unique ids, the units of a present product are the
      quantity of its line item. */
  lemma {:induction false} QuantityOfUnique(items: seq<Item>, k: nat)
    requires UniqueIds(items)
    requires k < |items|
    ensures QuantityOf(items, items[k].id) == items[k].quantity
  {
    UniqueIdsTail(items);
    if k == 0 {
      QuantityOfAbsent(items[1..], items[0].id);
    } else {
      assert items[k] == items[1..][k - 1];
      assert DistinctIds(items, 0, k);
      QuantityOfUnique(items[1..], k - 1);
    }
  }

  /** With every quantity at least 1, a product has units in the cart exactly
      when it is present: the two states of a product are "absent" and
      "present with a positive quantity". */
  lemma {:induction false} QuantityPositiveIffPresent(items: seq<Item>, id: int)
    requires PositiveQuantities(items)
    ensures QuantityOf(items, id) >= 1 <==> id in Ids(items)
    ensures QuantityOf(items, id) >= 0
  {
    if items != [] {
      assert PositiveQuantities(items[1..]) by {
        forall k | 0 <= k < |items| - 1 ensures items[1..][k].quantity >= 1 {
          assert items[1..][k] == items[k + 1];
        }
      }
      QuantityPositiveIffPresent(items[1..], id);
    }
  }

  /** Removing an id leaves no units of it and every other product's units
      unchanged. */
  lemma {:induction false} QuantityOfWithoutId(items: seq<Item>, id: int, x: int)
    ensures QuantityOf(WithoutId(items, id), x) == if x == id then 0 else QuantityOf(items, x)
  {
    if items != [] {
      QuantityOfWithoutId(items[1..], id, x);
      var rest := WithoutId(items[1..], id);
      if items[0].id != id {
        assert ([items[0]] + rest)[1..] == rest;
      }
    }
  }
}
