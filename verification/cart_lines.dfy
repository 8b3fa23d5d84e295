/** The session cart of the storefront: an ordered sequence of line items,
    the invariant every handler keeps, and the two reductions the server
    computes over it (the money total and the item count). */
module CartLines {
  import opened Wrappers

  /** Product identifiers arrive as request text and are compared with `==`. */
  type ProductId = string

  /** One cart line: product id, display name, unit-price snapshot, image
      reference and quantity, named as in the session objects. Prices are
      exact, counted in cents. */
  datatype LineItem = LineItem(id: ProductId, nombre: string, precio: int, imagen: string, cantidad: int)

  type Cart = seq<LineItem>

  /** No product appears on two lines. */
  predicate UniqueIds(cart: Cart) {
    forall i, j :: 0 <= i < j < |cart| ==> cart[i].id != cart[j].id
  }

  /** Every line holds at least one unit. */
  predicate PositiveQuantities(cart: Cart) {
    forall i :: 0 <= i < |cart| ==> cart[i].cantidad >= 1
  }

  predicate WellFormed(cart: Cart) {
    UniqueIds(cart) && PositiveQuantities(cart)
  }

  /** Dropping the first line keeps a cart well formed. */
  lemma TailWellFormed(cart: Cart)
    requires WellFormed(cart) && cart != []
    ensures WellFormed(cart[1..])
  {
  }

  predicate Contains(cart: Cart, id: ProductId) {
    exists k :: 0 <= k < |cart| && cart[k].id == id
  }

  /** Price times quantity of one line. */
  function Subtotal(p: LineItem): (s: int) {
    p.precio * p.cantidad
  }

  /** Adding `q` units to a line adds `q` times its price to its subtotal. */
  lemma SubtotalGrow(p: LineItem, q: int)
    ensures Subtotal(p.(cantidad := p.cantidad + q)) == Subtotal(p) + p.precio * q
  {
  }

  /** Reference definition of the cart total: the sum of the line subtotals. */
  function Sum(cart: Cart): (s: int) {
    if cart == [] then 0 else Subtotal(cart[0]) + Sum(cart[1..])
  }

  /** Reference definition of the item count: the sum of the quantities. */
  function Quantity(cart: Cart): (n: int) {
    if cart == [] then 0 else cart[0].cantidad + Quantity(cart[1..])
  }

  /** The server's total: a running `total += precio * cantidad` over the
      lines in cart order, starting from `acc`. */
  function TotalFrom(acc: int, cart: Cart): (total: int)
    ensures total == acc + Sum(cart)
    decreases |cart|
  {
    if cart == [] then acc else TotalFrom(acc + Subtotal(cart[0]), cart[1..])
  }

  /** The total shown on the cart page and reported after an update or at checkout. */
  function CartTotal(cart: Cart): (total: int)
    ensures total == Sum(cart)
  {
    TotalFrom(0, cart)
  }

  /** The middleware's `reduce((sum, item) => sum + item.cantidad, acc)`. */
  function CountFrom(acc: int, cart: Cart): (count: int)
    ensures count == acc + Quantity(cart)
    decreases |cart|
  {
    if cart == [] then acc else CountFrom(acc + cart[0].cantidad, cart[1..])
  }

  function CartCount(cart: Cart): (count: int)
    ensures count == Quantity(cart)
  {
    CountFrom(0, cart)
  }

  /** `cart.find(p => p.id == id)`: the index of the FIRST line with the id. */
  function FindIndex(cart: Cart, id: ProductId): (r: Option<nat>)
    ensures r.Some? ==> r.value < |cart| && cart[r.value].id == id
    ensures r.Some? ==> forall k :: 0 <= k < r.value ==> cart[k].id != id
    ensures r.None? <==> !Contains(cart, id)
    ensures UniqueIds(cart) ==> forall k :: 0 <= k < |cart| && cart[k].id == id ==> r == Some(k)
  {
    if cart == [] then None
    else if cart[0].id == id then Some(0)
    else match FindIndex(cart[1..], id)
      case None => None
      case Some(k) => Some(k + 1)
  }

  /** When every quantity is at least 1, a cart holds at least as many units as lines. */
  lemma {:induction false} CountAtLeastLines(cart: Cart)
    requires PositiveQuantities(cart)
    ensures CartCount(cart) >= |cart|
    ensures cart != [] ==> CartCount(cart) >= 1
  {
    QuantityAtLeastLines(cart);
  }

  lemma {:induction false} QuantityAtLeastLines(cart: Cart)
    requires PositiveQuantities(cart)
    ensures Quantity(cart) >= |cart|
  {
    if cart != [] {
      QuantityAtLeastLines(cart[1..]);
    }
  }

  lemma {:induction false} SumAppend(a: Cart, b: Cart)
    ensures Sum(a + b) == Sum(a) + Sum(b)
  {
    if a == [] {
      assert a + b == b;
    } else {
      assert (a + b)[1..] == a[1..] + b;
      SumAppend(a[1..], b);
    }
  }

  lemma {:induction false} QuantityAppend(a: Cart, b: Cart)
    ensures Quantity(a + b) == Quantity(a) + Quantity(b)
  {
    if a == [] {
      assert a + b == b;
    } else {
      assert (a + b)[1..] == a[1..] + b;
      QuantityAppend(a[1..], b);
    }
  }

  /** Replacing one line changes the total by the difference of the two subtotals. */
  lemma SumUpdate(cart: Cart, i: nat, x: LineItem)
    requires i < |cart|
    ensures Sum(cart[i := x]) == Sum(cart) - Subtotal(cart[i]) + Subtotal(x)
  {
    var before, after := cart[..i], cart[i+1..];
    assert cart == before + ([cart[i]] + after);
    assert cart[i := x] == before + ([x] + after);
    SumAppend(before, [cart[i]] + after);
    SumAppend(before, [x] + after);
    assert ([cart[i]] + after)[1..] == after;
    assert ([x] + after)[1..] == after;
  }

  lemma QuantityUpdate(cart: Cart, i: nat, x: LineItem)
    requires i < |cart|
    ensures Quantity(cart[i := x]) == Quantity(cart) - cart[i].cantidad + x.cantidad
  {
    var before, after := cart[..i], cart[i+1..];
    assert cart == before + ([cart[i]] + after);
    assert cart[i := x] == before + ([x] + after);
    QuantityAppend(before, [cart[i]] + after);
    QuantityAppend(before, [x] + after);
    assert ([cart[i]] + after)[1..] == after;
    assert ([x] + after)[1..] == after;
  }

  /** Deleting one line lowers the total by that line's subtotal. */
  lemma SumDelete(cart: Cart, i: nat)
    requires i < |cart|
    ensures Sum(cart[..i] + cart[i+1..]) == Sum(cart) - Subtotal(cart[i])
  {
    var before, after := cart[..i], cart[i+1..];
    assert cart == before + ([cart[i]] + after);
    SumAppend(before, [cart[i]] + after);
    SumAppend(before, after);
    assert ([cart[i]] + after)[1..] == after;
  }

  lemma QuantityDelete(cart: Cart, i: nat)
    requires i < |cart|
    ensures Quantity(cart[..i] + cart[i+1..]) == Quantity(cart) - cart[i].cantidad
  {
    var before, after := cart[..i], cart[i+1..];
    assert cart == before + ([cart[i]] + after);
    QuantityAppend(before, [cart[i]] + after);
    QuantityAppend(before, after);
    assert ([cart[i]] + after)[1..] == after;
  }
}
