/** The three cart handlers: `/cart/add`, `/cart/remove/:id` and
    `/cart/update`, each as a pure function from the old cart to the new
    cart (plus, for update, the JSON it answers with). */
module CartHandlers {
  import opened Wrappers
  import opened CartLines

  /** The body of a `/cart/add` post. `cantidad` is the result of
      `parseInt` (`None` for NaN); `precio` is the client-supplied price,
      already parsed. */
  datatype AddRequest = AddRequest(id: ProductId, nombre: string, precio: int, imagen: string, cantidad: Option<int>)

  /** The quantity an add contributes: 1 for NaN or anything below 1,
      otherwise the parsed value. */
  function ClampQuantity(parsed: Option<int>): (q: int)
    ensures q >= 1
    ensures parsed.Some? && parsed.value >= 1 ==> q == parsed.value
    ensures parsed.None? || parsed.value < 1 ==> q == 1
  {
    if parsed.None? || parsed.value < 1 then 1 else parsed.value
  }

  /** `/cart/add`: merge into the first line with the same id, or append a
      new line carrying the request's name, price and image. */
  function AddToCart(cart: Cart, req: AddRequest): (r: Cart)
    ensures Contains(cart, req.id) ==>
      var i := FindIndex(cart, req.id).value;
      && |r| == |cart|
      && r[i] == cart[i].(cantidad := cart[i].cantidad + ClampQuantity(req.cantidad))
      && (forall k :: 0 <= k < |cart| && k != i ==> r[k] == cart[k])
    ensures !Contains(cart, req.id) ==>
      && |r| == |cart| + 1
      && r[..|cart|] == cart
      && r[|cart|] == LineItem(req.id, req.nombre, req.precio, req.imagen, ClampQuantity(req.cantidad))
    ensures WellFormed(cart) ==> WellFormed(r)
  {
    var q := ClampQuantity(req.cantidad);
    match FindIndex(cart, req.id)
    case Some(i) => cart[i := cart[i].(cantidad := cart[i].cantidad + q)]
    case None => cart + [LineItem(req.id, req.nombre, req.precio, req.imagen, q)]
  }

  /** `/cart/remove/:id`: keep exactly the lines whose id differs. */
  function RemoveFromCart(cart: Cart, id: ProductId): (r: Cart)
    ensures forall k :: 0 <= k < |r| ==> r[k].id != id
    ensures forall x :: x in r ==> x in cart
    ensures forall k :: 0 <= k < |cart| && cart[k].id != id ==> cart[k] in r
    ensures !Contains(cart, id) ==> r == cart
    ensures |r| <= |cart|
  {
    if cart == [] then []
    else if cart[0].id == id then RemoveFromCart(cart[1..], id)
    else [cart[0]] + RemoveFromCart(cart[1..], id)
  }

  const Sumar: string := "sumar"
  const Restar: string := "restar"

  /** The new cart of an update and its JSON reply `{newQty, total}`. */
  datatype UpdateResult = UpdateResult(cart: Cart, newQty: int, total: int)

  /** `/cart/update`: `sumar` adds one unit to the line, `restar` takes one
      away only while more than one is left; any other action changes
      nothing. An absent id answers `newQty = 0`. */
  function UpdateQuantity(cart: Cart, id: ProductId, accion: string): (r: UpdateResult)
    ensures r.total == Sum(r.cart)
    ensures !Contains(cart, id) ==> r.cart == cart && r.newQty == 0
    ensures Contains(cart, id) ==>
      var i := FindIndex(cart, id).value;
      var q := cart[i].cantidad;
      && |r.cart| == |cart|
      && r.cart[i] == cart[i].(cantidad := r.newQty)
      && (forall k :: 0 <= k < |cart| && k != i ==> r.cart[k] == cart[k])
      && (accion == Sumar ==> r.newQty == q + 1)
      && (accion == Restar && q > 1 ==> r.newQty == q - 1)
      && (accion == Restar && q <= 1 ==> r.newQty == q)
      && (accion != Sumar && accion != Restar ==> r.newQty == q)
    ensures WellFormed(cart) ==> WellFormed(r.cart)
  {
    match FindIndex(cart, id)
    case None => UpdateResult(cart, 0, CartTotal(cart))
    case Some(i) =>
      var q := cart[i].cantidad;
      var afterSumar := if accion == Sumar then q + 1 else q;
      var afterRestar := if accion == Restar && afterSumar > 1 then afterSumar - 1 else afterSumar;
      var updated := cart[i := cart[i].(cantidad := afterRestar)];
      UpdateResult(updated, afterRestar, CartTotal(updated))
  }
}
