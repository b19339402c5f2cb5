/** What each mutating cart operation does to the list of line items, as
    functions of the old list, and what is proved about them: the two cart
    invariants are kept, the units held per product change as intended, the
    order of the line items is kept and the total moves accordingly. */
module CartOps {
  import opened LineItems
  import opened CartTotal

  /** `agregarProducto`: raise the quantity of the first line item with the
      product's id by one, or append the product with quantity 1. */
  function AddProduct(items: seq<Item>, p: Product): seq<Item>
  {
    match Find(items, p.id)
    case Some(i) => items[i := items[i].(quantity := items[i].quantity + 1)]
    case None => items + [Item(p.id, p.price, 1)]
  }

  /** `cambiarCantidad`: on an absent id nothing changes; otherwise the first
      line item with the id gets `delta` added to its quantity, and when that
      leaves it at 0 or below every line item with the id is filtered out. */
  function ChangeQuantity(items: seq<Item>, id: int, delta: int): seq<Item>
  {
    match Find(items, id)
    case None => items
    case Some(i) =>
      var updated := items[i := items[i].(quantity := items[i].quantity + delta)];
      if updated[i].quantity <= 0 then WithoutId(updated, id) else updated
  }

  /** A product whose id is not in the cart is appended, with quantity 1,
      after the unchanged earlier line items. */
  lemma {:induction false} AddProductNew(items: seq<Item>, p: Product)
    requires p.id !in Ids(items)
    ensures |AddProduct(items, p)| == |items| + 1
    ensures AddProduct(items, p)[..|items|] == items
    ensures AddProduct(items, p)[|items|] == Item(p.id, p.price, 1)
  {
    assert (items + [Item(p.id, p.price, 1)])[..|items|] == items;
  }

  /** A product whose id is in a cart with unique ids raises that line item's
      quantity by one; length, order and every other line item are unchanged. */
  lemma {:induction false} AddProductExisting(items: seq<Item>, p: Product)
    requires UniqueIds(items)
    requires p.id in Ids(items)
    ensures |AddProduct(items, p)| == |items|
    ensures forall k :: 0 <= k < |items| ==>
      AddProduct(items, p)[k] ==
        if items[k].id == p.id then items[k].(quantity := items[k].quantity + 1) else items[k]
  {
    var i := Find(items, p.id).value;
    forall k | 0 <= k < |items| && k != i ensures items[k].id != p.id {
      if k < i {} else { assert DistinctIds(items, i, k); }
    }
  }

  /** Adding a product keeps the line-item ids distinct and every quantity at
      least 1. */
  lemma {:induction false} AddProductWellFormed(items: seq<Item>, p: Product)
    requires WellFormed(items)
    ensures WellFormed(AddProduct(items, p))
  {
    var r := AddProduct(items, p);
    match Find(items, p.id)
    case Some(i) =>
      forall k | 0 <= k < |r| ensures r[k].quantity >= 1 {
        assert k != i ==> r[k] == items[k];
      }
      forall a: nat, b: nat | a < b < |r| ensures DistinctIds(r, a, b) {
        assert r[a].id == items[a].id && r[b].id == items[b].id;
        assert DistinctIds(items, a, b);
      }
    case None =>
      forall k | 0 <= k < |r| ensures r[k].quantity >= 1 {
        assert k < |items| ==> r[k] == items[k];
      }
      forall a: nat, b: nat | a < b < |r| ensures DistinctIds(r, a, b) {
        assert r[a] == items[a];
        if b < |items| {
          assert r[b] == items[b];
          assert DistinctIds(items, a, b);
        }
      }
  }

  /** Adding a product gives it exactly one more unit and leaves every other
      product's units unchanged; this holds even when ids repeat. */
  lemma {:induction false} AddProductQuantity(items: seq<Item>, p: Product, x: int)
    ensures QuantityOf(AddProduct(items, p), x) == QuantityOf(items, x) + (if x == p.id then 1 else 0)
  {
    match Find(items, p.id)
    case Some(i) =>
      SumByUpdate(items, i, items[i].(quantity := items[i].quantity + 1), QuantityWeight(x));
    case None =>
      SumByAppend(items, [Item(p.id, p.price, 1)], QuantityWeight(x));
      assert [Item(p.id, p.price, 1)][1..] == [];
  }

  /** Adding a product raises the total by the price of the line item that
      gains the unit: the product's own price when it is new, the stored line
      item's price otherwise. */
  lemma {:induction false} AddProductTotal(items: seq<Item>, p: Product)
    ensures Total(AddProduct(items, p)) ==
      Total(items) + match Find(items, p.id) case None => p.price case Some(i) => items[i].price
  {
    match Find(items, p.id)
    case Some(i) =>
      SumByUpdate(items, i, items[i].(quantity := items[i].quantity + 1), Subtotal);
    case None =>
      SumByAppend(items, [Item(p.id, p.price, 1)], Subtotal);
      assert [Item(p.id, p.price, 1)][1..] == [];
  }

  /** Adding the products of `ps` one after the other, in order. */
  function AddAll(items: seq<Item>, ps: seq<Product>): seq<Item>
    decreases ps
  {
    if ps == [] then items else AddAll(AddProduct(items, ps[0]), ps[1..])
  }

  /** How many of the products in `ps` carry the id `x`. */
  function CountId(ps: seq<Product>, x: int): nat
  {
    if ps == [] then 0 else (if ps[0].id == x then 1 else 0) + CountId(ps[1..], x)
  }

  /** Any sequence of additions keeps the line-item ids distinct and every
      quantity at least 1; in particular from an empty cart. */
  lemma {:induction false} AddAllWellFormed(items: seq<Item>, ps: seq<Product>)
    requires WellFormed(items)
    ensures WellFormed(AddAll(items, ps))
    decreases ps
  {
    if ps != [] {
      AddProductWellFormed(items, ps[0]);
      AddAllWellFormed(AddProduct(items, ps[0]), ps[1..]);
    }
  }

  /** After any sequence of additions, a product holds as many more units as
      it was added times; starting from an empty cart, exactly that many.
      Where ids are unique (see `AddAllWellFormed`), `QuantityOf` is the
      quantity of the product's one line item (`QuantityOfUnique`). */
  lemma {:induction false} AddAllQuantity(items: seq<Item>, ps: seq<Product>, x: int)
    ensures QuantityOf(AddAll(items, ps), x) == QuantityOf(items, x) + CountId(ps, x)
    decreases ps
  {
    if ps != [] {
      AddProductQuantity(items, ps[0], x);
      AddAllQuantity(AddProduct(items, ps[0]), ps[1..], x);
    }
  }

  /** Changing the quantity of an absent id changes nothing. */
  lemma {:induction false} ChangeQuantityAbsent(items: seq<Item>, id: int, delta: int)
    requires id !in Ids(items)
    ensures ChangeQuantity(items, id, delta) == items
  {
  }

  /** In a cart with unique ids, a change that leaves the quantity above 0
      sets that line item's quantity to old + delta and nothing else changes. */
  lemma {:induction false} ChangeQuantityKeeps(items: seq<Item>, k: nat, delta: int)
    requires UniqueIds(items)
    requires k < |items| && items[k].quantity + delta > 0
    ensures ChangeQuantity(items, items[k].id, delta) == items[k := items[k].(quantity := items[k].quantity + delta)]
  {
    var i := Find(items, items[k].id).value;
    assert i == k by {
      assert i <= k;
      assert i < k ==> DistinctIds(items, i, k);
    }
  }

  /** In a cart with unique ids, a change that takes the quantity to 0 or
      below removes that line item and keeps the others in order. */
  lemma {:induction false} ChangeQuantityRemoves(items: seq<Item>, k: nat, delta: int)
    requires UniqueIds(items)
    requires k < |items| && items[k].quantity + delta <= 0
    ensures ChangeQuantity(items, items[k].id, delta) == items[..k] + items[k + 1..]
  {
    var id := items[k].id;
    var i := Find(items, id).value;
    assert i == k by {
      assert i <= k;
      assert i < k ==> DistinctIds(items, i, k);
    }
    var updated := items[k := items[k].(quantity := items[k].quantity + delta)];
    assert UniqueIds(updated) by {
      forall a: nat, b: nat | a < b < |updated| ensures DistinctIds(updated, a, b) {
        assert updated[a].id == items[a].id && updated[b].id == items[b].id;
        assert DistinctIds(items, a, b);
      }
    }
    WithoutIdUnique(updated, k, id);
    assert updated[..k] == items[..k];
    assert updated[k + 1..] == items[k + 1..];
  }

  /** Changing a quantity keeps the line-item ids distinct and every
      quantity at least 1. */
  lemma {:induction false} ChangeQuantityWellFormed(items: seq<Item>, id: int, delta: int)
    requires WellFormed(items)
    ensures WellFormed(ChangeQuantity(items, id, delta))
  {
    match Find(items, id)
    case None =>
    case Some(i) =>
      if items[i].quantity + delta <= 0 {
        ChangeQuantityRemoves(items, i, delta);
        WithoutIdWellFormed(items, id);
        WithoutIdUnique(items, i, id);
      } else {
        var r := ChangeQuantity(items, id, delta);
        forall k | 0 <= k < |r| ensures r[k].quantity >= 1 {
          assert k != i ==> r[k] == items[k];
        }
        forall a: nat, b: nat | a < b < |r| ensures DistinctIds(r, a, b) {
          assert r[a].id == items[a].id && r[b].id == items[b].id;
          assert DistinctIds(items, a, b);
        }
      }
  }

  /** In a cart with unique ids, changing the quantity of `id` by `delta`
      leaves it old + delta units when that is positive and none otherwise
      (none either when it was absent); every other product keeps its units. */
  lemma {:induction false} ChangeQuantityQuantity(items: seq<Item>, id: int, delta: int, x: int)
    requires UniqueIds(items)
    ensures QuantityOf(ChangeQuantity(items, id, delta), x) ==
      if x != id || id !in Ids(items) then QuantityOf(items, x)
      else if QuantityOf(items, id) + delta > 0 then QuantityOf(items, id) + delta
      else 0
  {
    match Find(items, id)
    case None =>
    case Some(i) =>
      var q := items[i].quantity;
      var updated := items[i := items[i].(quantity := q + delta)];
      assert ChangeQuantity(items, id, delta) == if q + delta <= 0 then WithoutId(updated, id) else updated;
      assert QuantityOf(items, id) == q by {
        QuantityOfUnique(items, i);
      }
      assert QuantityOf(updated, x) == QuantityOf(items, x) + (if x == id then delta else 0) by {
        SumByUpdate(items, i, updated[i], QuantityWeight(x));
      }
      if q + delta <= 0 {
        QuantityOfWithoutId(updated, id, x);
      }
  }

  /** In a cart with unique ids, removing the id of the line item at `k`
      lowers the total by that line item's price times quantity. */
  lemma {:induction false} WithoutIdTotal(items: seq<Item>, k: nat)
    requires UniqueIds(items)
    requires k < |items|
    ensures Total(WithoutId(items, items[k].id)) == Total(items) - Subtotal(items[k])
  {
    WithoutIdUnique(items, k, items[k].id);
    assert items == items[..k] + ([items[k]] + items[k + 1..]);
    TotalAppend(items[..k], [items[k]] + items[k + 1..]);
    TotalAppend([items[k]], items[k + 1..]);
    TotalAppend(items[..k], items[k + 1..]);
    assert [items[k]][1..] == [];
  }
}
