/** The shopping-cart state manager: an object holding the list of line items
    (`articulos`) and writing it to the browser-storage slot under the key
    "carrito" after every change. JSON serialisation is the identity here, so
    the slot holds the list itself, or None when the key is absent. */
module Carrito {
  import opened LineItems
  import opened CartTotal
  import opened CartOps

  /** `JSON.parse(localStorage.getItem('carrito')) || []`: the stored list,
      or an empty cart when the key is absent. */
  function Load(slot: Option<seq<Item>>): seq<Item>
  {
    match slot
    case None => []
    case Some(items) => items
  }

  class CarritoDeCompras {
    /** The line items, in insertion order. */
    var articulos: seq<Item>
    /** The storage slot under the key "carrito". */
    var stored: Option<seq<Item>>

    /** Rebuilding a cart from storage would give back the list in memory. */
    ghost predicate Persisted()
      reads this
    {
      Load(stored) == articulos
    }

    /** Loads the cart from the storage slot; an absent key gives an empty cart. */
    constructor (initial: Option<seq<Item>>)
      ensures stored == initial
      ensures articulos == Load(initial)
      ensures initial.None? ==> articulos == []
      ensures Persisted()
    {
      articulos := Load(initial);
      stored := initial;
    }

    /** Adds one unit of `producto`: an existing line item with its id gains a
        unit, otherwise the product is appended with quantity 1; then saves. */
    method AgregarProducto(producto: Product)
      modifies this
      ensures articulos == AddProduct(old(articulos), producto)
      ensures stored == Some(articulos) && Persisted()
      ensures QuantityOf(articulos, producto.id) == old(QuantityOf(articulos, producto.id)) + 1
      ensures old(WellFormed(articulos)) ==> WellFormed(articulos)
    {
      ghost var before := articulos;
      var existente := Find(articulos, producto.id);
      match existente {
        case Some(i) =>
          articulos := articulos[i := articulos[i].(quantity := articulos[i].quantity + 1)];
        case None =>
          articulos := articulos + [Item(producto.id, producto.price, 1)];
      }
      GuardarCarrito();
      AddProductQuantity(before, producto, producto.id);
      if WellFormed(before) {
        AddProductWellFormed(before, producto);
      }
    }

    /** Adds `cantidad` (of either sign) to the quantity of the line item with
        `id`; a line item left at 0 or below is removed. An absent id changes
        nothing, not even the storage slot. */
    method CambiarCantidad(id: int, cantidad: int)
      modifies this
      ensures articulos == ChangeQuantity(old(articulos), id, cantidad)
      ensures id in Ids(old(articulos)) ==> stored == Some(articulos)
      ensures id !in Ids(old(articulos)) ==> articulos == old(articulos) && stored == old(stored)
      ensures old(Persisted()) ==> Persisted()
      ensures old(WellFormed(articulos)) ==> WellFormed(articulos)
    {
      ghost var before := articulos;
      var producto := Find(articulos, id);
      if producto.Some? {
        var i := producto.value;
        articulos := articulos[i := articulos[i].(quantity := articulos[i].quantity + cantidad)];
        if articulos[i].quantity <= 0 {
          EliminarProducto(id);
        }
        GuardarCarrito();
      }
      if WellFormed(before) {
        ChangeQuantityWellFormed(before, id, cantidad);
      }
    }

    /** Keeps exactly the line items whose id differs from `id`, in their
        order, and saves, whether or not `id` was present. */
    method EliminarProducto(id: int)
      modifies this
      ensures articulos == WithoutId(old(articulos), id)
      ensures id !in Ids(articulos)
      ensures stored == Some(articulos) && Persisted()
      ensures old(WellFormed(articulos)) ==> WellFormed(articulos)
    {
      ghost var before := articulos;
      articulos := WithoutId(articulos, id);
      GuardarCarrito();
      if WellFormed(before) {
        WithoutIdWellFormed(before, id);
      }
    }

    /** The `reduce` over the line items: the sum of price times quantity,
        0 for an empty cart. */
    function CalcularTotal(): (total: int)
      reads this
      ensures total == Total(articulos)
      ensures articulos == [] ==> total == 0
    {
      FoldTotalIsTotal(0, articulos);
      FoldTotal(0, articulos)
    }

    /** Writes the whole list to the storage slot. */
    method GuardarCarrito()
      modifies this`stored
      ensures stored == Some(articulos) && Persisted()
    {
      stored := Some(articulos);
    }

    /** Deletes the storage key (rather than storing an empty list) and
        empties the cart. */
    method LimpiarCarrito()
      modifies this
      ensures stored == None && articulos == [] && Persisted()
    {
      stored := None;
      articulos := [];
    }
  }

  /** A page reload: a new cart built from the storage slot an old cart left
      behind holds the same line items, ids, quantities and order alike. */
  method Reload(carrito: CarritoDeCompras) returns (recargado: CarritoDeCompras)
    requires carrito.Persisted()
    ensures fresh(recargado)
    ensures recargado.stored == carrito.stored
    ensures recargado.articulos == carrito.articulos
  {
    recargado := new CarritoDeCompras(carrito.stored);
  }

  /** Two additions of the same product give one line item of quantity 2. */
  method AddTwiceScenario() returns (carrito: CarritoDeCompras)
    ensures carrito.articulos == [Item(1, 100, 2)]
    ensures carrito.CalcularTotal() == 200
    ensures carrito.stored == Some([Item(1, 100, 2)])
  {
    carrito := new CarritoDeCompras(None);
    carrito.AgregarProducto(Product(1, 100));
    carrito.AgregarProducto(Product(1, 100));
    assert [Item(1, 100, 2)][1..] == [];
  }

  /** Lowering a quantity of 1 by 1 removes the line item; the slot then holds
      an empty list (the key is written, not deleted). */
  method DecrementToZeroScenario() returns (carrito: CarritoDeCompras)
    ensures carrito.articulos == []
    ensures carrito.CalcularTotal() == 0
    ensures carrito.stored == Some([])
  {
    carrito := new CarritoDeCompras(None);
    carrito.AgregarProducto(Product(1, 50));
    carrito.CambiarCantidad(1, -1);
  }

  /** Removing the first of two products keeps the second. */
  method RemoveScenario() returns (carrito: CarritoDeCompras)
    ensures carrito.articulos == [Item(2, 20, 1)]
    ensures carrito.CalcularTotal() == 20
  {
    carrito := new CarritoDeCompras(None);
    carrito.AgregarProducto(Product(1, 10));
    carrito.AgregarProducto(Product(2, 20));
    carrito.EliminarProducto(1);
    assert [Item(2, 20, 1)][1..] == [];
  }

  /** Clearing a cart loaded from a non-empty slot deletes the key, so a
      reload starts empty. */
  method ClearScenario(saved: seq<Item>) returns (recargado: CarritoDeCompras)
    ensures recargado.articulos == []
    ensures recargado.stored == None
  {
    var carrito := new CarritoDeCompras(Some(saved));
    carrito.LimpiarCarrito();
    recargado := Reload(carrito);
  }
}
