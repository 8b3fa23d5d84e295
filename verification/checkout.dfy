/** `/checkout`: the two gates, the order header (`ventas` row), one detail
    row (`detalle_ventas` row) per cart line, and the cart reset. The
    database is modelled as two append-only tables; the generated header id
    is an input, as the database chooses it. */
module Orders {
  import opened Wrappers
  import opened CartLines

  /** The logged-in user attached to the session. */
  datatype User = User(id: int, nombre: string, email: string)

  /** Order header: id, owning user, total in cents. */
  datatype Venta = Venta(id: int, usuarioId: int, total: int)

  /** Order line: header id, product id, quantity, unit price in cents. */
  datatype Detalle = Detalle(ventaId: int, productoId: ProductId, cantidad: int, precioUnitario: int)

  /** The rows the storefront has written to its two order tables. */
  datatype Store = Store(ventas: seq<Venta>, detalles: seq<Detalle>)

  /** What the checkout answers with: a redirect to the login page, a
      redirect to the catalog, or the confirmation page for an order. */
  datatype Outcome = RedirectLogin | RedirectHome | Confirmed(ventaId: int)

  datatype CheckoutResult = CheckoutResult(cart: Cart, store: Store, outcome: Outcome)

  /** `cart.map(p => [ventaId, p.id, p.cantidad, p.precio])`. */
  function DetailRows(ventaId: int, cart: Cart): (rows: seq<Detalle>)
    ensures |rows| == |cart|
    ensures forall k :: 0 <= k < |cart| ==>
      rows[k] == Detalle(ventaId, cart[k].id, cart[k].cantidad, cart[k].precio)
  {
    if cart == [] then [] else [Detalle(ventaId, cart[0].id, cart[0].cantidad, cart[0].precio)] + DetailRows(ventaId, cart[1..])
  }

  /** Sum of quantity times unit price over order lines. */
  function RowsTotal(rows: seq<Detalle>): (s: int) {
    if rows == [] then 0 else rows[0].cantidad * rows[0].precioUnitario + RowsTotal(rows[1..])
  }

  /** The order placed by a successful checkout: the header with the cart
      total and the detail rows of the cart. */
  function Checkout(user: Option<User>, cart: Cart, store: Store, ventaId: int): (r: CheckoutResult)
    ensures user.None? ==> r == CheckoutResult(cart, store, RedirectLogin)
    ensures user.Some? && cart == [] ==> r == CheckoutResult(cart, store, RedirectHome)
    ensures user.Some? && cart != [] ==>
      && r.outcome == Confirmed(ventaId)
      && r.cart == []
      && r.store.ventas == store.ventas + [Venta(ventaId, user.value.id, Sum(cart))]
      && |r.store.detalles| == |store.detalles| + |cart|
      && r.store.detalles[..|store.detalles|] == store.detalles
      && (forall k :: 0 <= k < |cart| ==>
            r.store.detalles[|store.detalles| + k] == Detalle(ventaId, cart[k].id, cart[k].cantidad, cart[k].precio))
  {
    if user.None? then CheckoutResult(cart, store, RedirectLogin)
    else if |cart| == 0 then CheckoutResult(cart, store, RedirectHome)
    else
      var total := CartTotal(cart);
      var header := Venta(ventaId, user.value.id, total);
      var rows := DetailRows(ventaId, cart);
      CheckoutResult([], Store(store.ventas + [header], store.detalles + rows), Confirmed(ventaId))
  }

  /** The detail rows of a cart add up to the cart total. */
  lemma {:induction false} RowsTotalIsCartTotal(ventaId: int, cart: Cart)
    ensures RowsTotal(DetailRows(ventaId, cart)) == CartTotal(cart)
  {
    if cart != [] {
      RowsTotalIsCartTotal(ventaId, cart[1..]);
      assert DetailRows(ventaId, cart)[1..] == DetailRows(ventaId, cart[1..]);
    }
  }

  /** A successful checkout writes exactly one header, whose total equals
      the sum over the detail rows written with it, and these rows are as
      many as the cart had lines. */
  lemma CheckoutHeaderMatchesRows(user: User, cart: Cart, store: Store, ventaId: int)
    requires cart != []
    ensures var r := Checkout(Some(user), cart, store, ventaId);
      && |r.store.ventas| == |store.ventas| + 1
      && var header := r.store.ventas[|store.ventas|];
         var rows := r.store.detalles[|store.detalles|..];
         && header.id == ventaId
         && |rows| == |cart|
         && (forall k :: 0 <= k < |rows| ==> rows[k].ventaId == header.id)
         && RowsTotal(rows) == header.total
  {
    var r := Checkout(Some(user), cart, store, ventaId);
    assert r.store.detalles[|store.detalles|..] == DetailRows(ventaId, cart);
    RowsTotalIsCartTotal(ventaId, cart);
  }

  /** The worked example: two lines worth 2 x 10.00 and 1 x 5.00 give one
      order of 25.00 with two detail rows, and an empty cart. */
  lemma CheckoutExample(user: User)
    ensures var cart := [LineItem("1", "A", 1000, "a.png", 2), LineItem("2", "B", 500, "b.png", 1)];
      Checkout(Some(user), cart, Store([], []), 7)
        == CheckoutResult([], Store([Venta(7, user.id, 2500)], [Detalle(7, "1", 2, 1000), Detalle(7, "2", 1, 500)]), Confirmed(7))
  {
  }
}
