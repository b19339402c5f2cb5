# Shopping-cart state manager, modelled in Dafny

This project models the cart of a browser storefront: the class
`CarritoDeCompras` in `main.js`. The class holds the cart's line items in the
field `articulos`. It adds a product (`agregarProducto`), changes a quantity by
a signed amount (`cambiarCantidad`), removes a product by id
(`eliminarProducto`), totals price times quantity (`calcularTotal`), saves
the list under the browser-storage key `"carrito"` (`guardarCarrito`) and
clears the cart by deleting that key (`limpiarCarrito`). The constructor
loads the list from that key.

Layout:

- `line_items.dfy`, module `LineItems`. It defines products, line items, the
  ids present (`Ids`) and the two cart invariants (`UniqueIds`,
  `PositiveQuantities`, together `WellFormed`). It models the two array
  helpers the class uses: `find` by id is `Find`, which gives the first
  matching position, and `filter` on `id !==` is `WithoutId`. It also defines
  the units held per product id (`QuantityOf`).
- `cart_total.dfy`, module `CartTotal`. `FoldTotal` is the `reduce` the
  class evaluates, and `Total` is the reference sum it is proved equal to.
- `cart_ops.dfy`, module `CartOps`. `AddProduct` and `ChangeQuantity` say what
  the two mutations do to the list. Their lemmas prove the invariants are
  kept, per-product quantities, order and totals.
- `carrito.dfy`, module `Carrito`. It holds the class `CarritoDeCompras`,
  with the field `articulos: seq<Item>` and the field
  `stored: Option<seq<Item>>`, which stands for the storage slot under
  `"carrito"` (`None` means the key is absent). Each method is proved
  against the functions above and states the new value of the slot. The
  object invariant `Persisted()` says a reload from storage gives back the
  in-memory list. The module also has a page reload (`Reload`) and the
  worked scenarios of adding twice, decrementing to zero, removing and
  clearing.

Inputs and effects that become parameters or are abstracted:

- Browser storage becomes the field `stored`.
- JSON encoding and decoding are the identity on the list of line items.
- Prices are integers, for example cents.

The constructor (main.js:18) has no guard around `JSON.parse`. An absent key
gives an empty cart; a malformed stored string makes the constructor throw.
The model covers the absent key and a stored list of line items, and does
not claim anything about malformed strings.

## Model

| member | source | states |
|---|---|---|
| `LineItems.Find` | main.js:22 | `find` by id: None exactly when the id is absent; otherwise a position holding that id with no earlier position holding it |
| `LineItems.WithoutId` | main.js:44 | `filter` on `id !==`: keeps exactly the line items whose id differs, its ids are the old ids minus `id`, and an absent id leaves the list unchanged |
| `LineItems.WithoutIdMembers` | main.js:44 | a line item survives the filter exactly when it was in the cart and its id differs from `id` |
| `LineItems.WithoutIdAppend` | main.js:44 | the filter distributes over concatenation, so the surviving line items keep their relative order |
| `LineItems.WithoutIdUnique` | main.js:44 | with unique ids, removing the id at position i gives exactly the list without position i, others in order |
| `LineItems.WithoutIdWellFormed` | main.js:44 | removal keeps ids distinct and every quantity at least 1 |
| `LineItems.QuantityOfWithoutId` | main.js:44 | after removal the id holds no units and every other id keeps its units |
| `LineItems.QuantityPositiveIffPresent` | main.js:35-38 | with positive quantities, a product has units in the cart exactly when its id is present (absent or present with quantity at least 1) |
| `CartTotal.FoldTotal` | main.js:49 | definition, no contract: the `reduce`, left to right from an accumulator; its properties are in `CartTotal.FoldTotalIsTotal` and `Carrito.CarritoDeCompras.CalcularTotal` |
| `CartTotal.FoldTotalIsTotal` | main.js:49 | the left fold from an accumulator equals the accumulator plus the sum of price times quantity; from 0 it is the total, 0 for an empty cart |
| `CartTotal.TotalAppend` | main.js:49 | the total of two lists laid end to end is the sum of their totals |
| `CartTotal.TotalBounds` | main.js:49 | with non-negative prices and positive quantities the total is non-negative; with positive prices it is 0 exactly for an empty cart |
| `CartOps.AddProduct` | main.js:21-28 | definition, no contract: raise the first matching line item by 1 or append the product with quantity 1; its properties are in `CartOps.AddProductNew`, `CartOps.AddProductExisting`, `CartOps.AddProductWellFormed`, `CartOps.AddProductQuantity`, `CartOps.AddProductTotal` and `CartOps.AddAllQuantity` |
| `CartOps.AddProductNew` | main.js:25-27 | a new id is appended as one line item with quantity 1 after the unchanged earlier items |
| `CartOps.AddProductExisting` | main.js:22-24 | with unique ids, an existing id has only its line item's quantity raised by 1; length, order and every other item unchanged |
| `CartOps.AddProductWellFormed` | main.js:21-28 | adding keeps ids distinct and every quantity at least 1 |
| `CartOps.AddProductQuantity` | main.js:21-28 | adding gives the product exactly one more unit and every other product the same units |
| `CartOps.AddProductTotal` | main.js:21-28 | adding raises the total by the price of the line item that gained the unit |
| `CartOps.AddAllWellFormed` | main.js:21-29 | any sequence of additions to a well-formed cart, the empty cart included, keeps ids distinct and every quantity at least 1 |
| `CartOps.AddAllQuantity` | main.js:21-29 | after any sequence of additions each product holds as many more units as the times it was added |
| `CartOps.ChangeQuantity` | main.js:32-41 | definition, no contract: add delta to the first matching line item and filter out the id when that leaves 0 or below; its properties are in `CartOps.ChangeQuantityAbsent`, `CartOps.ChangeQuantityKeeps`, `CartOps.ChangeQuantityRemoves`, `CartOps.ChangeQuantityWellFormed` and `CartOps.ChangeQuantityQuantity` |
| `CartOps.ChangeQuantityAbsent` | main.js:33-34 | a change on an absent id leaves the list unchanged |
| `CartOps.ChangeQuantityKeeps` | main.js:35-36 | with unique ids, when old quantity + delta > 0 that item's quantity becomes old + delta and nothing else changes |
| `CartOps.ChangeQuantityRemoves` | main.js:35-38 | with unique ids, when old quantity + delta <= 0 the item is removed and the others keep their order |
| `CartOps.ChangeQuantityWellFormed` | main.js:32-41 | changing a quantity keeps ids distinct and every quantity at least 1 |
| `CartOps.ChangeQuantityQuantity` | main.js:33-38 | with unique ids the product ends with old + delta units when positive and none otherwise; other products are unchanged |
| `CartOps.WithoutIdTotal` | main.js:44 | with unique ids, removing an item lowers the total by its price times quantity |
| `Carrito.Load` | main.js:18 | definition, no contract: the stored list, or an empty cart when the key is absent; its properties are in `Carrito.CarritoDeCompras.constructor`, `Carrito.Reload` and `Carrito.ClearScenario` |
| `Carrito.CarritoDeCompras.constructor` | main.js:17-19 | the cart is the stored list, empty when the key is absent; the slot is untouched, so `Persisted()` holds |
| `Carrito.CarritoDeCompras.AgregarProducto` | main.js:21-30 | the list becomes `AddProduct` of the old one, the product gains one unit, the slot holds the new list, and the invariants are kept |
| `Carrito.CarritoDeCompras.CambiarCantidad` | main.js:32-41 | the list becomes `ChangeQuantity` of the old one; for a present id the slot holds the new list; for an absent id neither the list nor the slot changes; the invariants are kept |
| `Carrito.CarritoDeCompras.EliminarProducto` | main.js:43-46 | the list is the filtered old list, the id is gone, the slot is written even when the id was absent, and the invariants are kept |
| `Carrito.CarritoDeCompras.CalcularTotal` | main.js:48-50 | the `reduce` equals the sum of price times quantity over the line items, 0 for an empty cart |
| `Carrito.CarritoDeCompras.GuardarCarrito` | main.js:52-54 | the slot holds the whole current list |
| `Carrito.CarritoDeCompras.LimpiarCarrito` | main.js:56-59 | the key is deleted (the slot is None, not an empty list) and the cart is empty |
| `Carrito.Reload` | main.js:17-19 | rebuilding from the slot that a cart satisfying `Persisted()` left gives the same line items (ids, quantities, order) |
| `Carrito.AddTwiceScenario` | main.js:21-30 | adding product 1 at price 100 twice gives `[id 1, quantity 2]`, total 200, and that list stored |
| `Carrito.DecrementToZeroScenario` | main.js:32-41 | adding a product and changing it by -1 empties the cart, total 0, and an empty list stored (the key is kept) |
| `Carrito.RemoveScenario` | main.js:43-46 | adding products 1 and 2 then removing 1 leaves `[id 2, quantity 1]`, total 20 |
| `Carrito.ClearScenario` | main.js:56-59 | clearing a cart loaded from any stored list, then reloading, gives an empty cart and an absent key |

## Left out

- Catalogue fetching (`fetchProducts`) is network I/O with asynchronous control flow and is not modelled.
- Rendering, modals, toasts and the event wiring are not modelled: `displayProducts`, `updateCart`, `showProductDetails`, the listeners, and the handlers `addToCart`, `changeQuantity`, `removeFromCart`, `finalizePurchase` and `initApp`. They are presentation code that only calls the cart's methods.
- `formatCurrency` is a locale call on a floating-point number and is not modelled.
- Prices and quantities are JavaScript floating-point numbers. They are modelled as unbounded integers, so rounding and the loss of exactness above 2^53 are not modelled.
- JSON encoding and decoding are the identity. A malformed stored string, which makes the constructor throw, is not modelled. Other falsy decoded values, which `|| []` would turn into an empty cart, are not modelled either. The storage slot holds either a list of line items or nothing; a stored list is not validated, so it may repeat ids or hold quantities of 0 or below.
- Storage failures are not modelled. `localStorage.getItem` (main.js:18) and `localStorage.setItem` (main.js:53) can throw, for example when storage is disabled or full. Every read and write is assumed to succeed. When a write fails after `agregarProducto`, `cambiarCantidad` or `eliminarProducto` has already changed the list, the slot keeps the old list. `Persisted()` and `Reload` hold only under the assumption that writes succeed.
- Other storage keys are not modelled. The cart reads and writes only `"carrito"`, and the field `stored` is that one slot.
- Object sharing is not modelled. `agregarProducto` sets `quantity` on the catalogue product and pushes that same object. The model uses values, so the catalogue product does not see later quantity changes.
- When a quantity drops to 0 or below, the slot is written twice. The model keeps only the last value written, which is the same list.
- Product fields the cart never reads (name, image, description) are not modelled. Ids are integers compared by value.
- Carrito.CarritoDeCompras.CambiarCantidad: it does not restate the per-product unit count, which `CartOps.ChangeQuantityQuantity` states for carts with unique ids.
