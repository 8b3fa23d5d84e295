/** Properties that relate several cart operations, or an operation to the
    cart total and item count. */
module CartProperties {
  import opened Wrappers
  import opened CartLines
  import opened CartHandlers

  /** The unit price an add is charged at: the snapshot already in the cart
      when the product is there, the request's price otherwise. */
  function ChargedPrice(cart: Cart, req: AddRequest): (price: int) {
    match FindIndex(cart, req.id)
    case Some(i) => cart[i].precio
    case None => req.precio
  }

  /** An add raises the total by the charged price times the clamped
      quantity. */
  lemma AddTotal(cart: Cart, req: AddRequest)
    ensures CartTotal(AddToCart(cart, req)) == CartTotal(cart) + ChargedPrice(cart, req) * ClampQuantity(req.cantidad)
  {
    var q := ClampQuantity(req.cantidad);
    match FindIndex(cart, req.id)
    case Some(i) =>
      assert AddToCart(cart, req) == cart[i := cart[i].(cantidad := cart[i].cantidad + q)];
      MergeTotal(cart, i, q);
    case None =>
      var x := LineItem(req.id, req.nombre, req.precio, req.imagen, q);
      assert AddToCart(cart, req) == cart + [x];
      AppendTotal(cart, x);
  }

  /** Merging `q` units into line `i` adds `q` times that line's price. */
  lemma MergeTotal(cart: Cart, i: nat, q: int)
    requires i < |cart|
    ensures Sum(cart[i := cart[i].(cantidad := cart[i].cantidad + q)]) == Sum(cart) + cart[i].precio * q
  {
    var x := cart[i].(cantidad := cart[i].cantidad + q);
    var before := Sum(cart);
    var after := Sum(cart[i := x]);
    var s0 := Subtotal(cart[i]);
    var s1 := Subtotal(x);
    SumUpdate(cart, i, x);
    assert after == before - s0 + s1;
    SubtotalGrow(cart[i], q);
    assert s1 == s0 + cart[i].precio * q;
  }

  /** Appending a line adds its subtotal. */
  lemma AppendTotal(cart: Cart, x: LineItem)
    ensures Sum(cart + [x]) == Sum(cart) + x.precio * (x.cantidad)
  {
    SumAppend(cart, [x]);
    assert Sum([x]) == Subtotal(x) + Sum([]);
  }

  /** An add raises the item count by the clamped quantity. */
  lemma AddCount(cart: Cart, req: AddRequest)
    ensures CartCount(AddToCart(cart, req)) == CartCount(cart) + ClampQuantity(req.cantidad)
  {
    var q := ClampQuantity(req.cantidad);
    match FindIndex(cart, req.id)
    case Some(i) =>
      var x := cart[i].(cantidad := cart[i].cantidad + q);
      assert AddToCart(cart, req) == cart[i := x];
      QuantityUpdate(cart, i, x);
    case None =>
      var x := LineItem(req.id, req.nombre, req.precio, req.imagen, q);
      assert AddToCart(cart, req) == cart + [x];
      QuantityAppend(cart, [x]);
  }

  /** Adding the same product twice never yields a second line: the cart
      grows by at most one line in total, and the product's single line
      holds both clamped quantities on top of what it held before. */
  lemma AddTwiceMerges(cart: Cart, first: AddRequest, second: AddRequest)
    requires WellFormed(cart)
    requires first.id == second.id
    ensures var once := AddToCart(cart, first);
      var twice := AddToCart(once, second);
      && |twice| == |once|
      && |twice| == (if Contains(cart, first.id) then |cart| else |cart| + 1)
      && WellFormed(twice)
      && var i := FindIndex(twice, first.id).value;
         twice[i].cantidad == (if Contains(cart, first.id) then cart[i].cantidad else 0)
                              + ClampQuantity(first.cantidad) + ClampQuantity(second.cantidad)
  {
  }

  /** Removal keeps the remaining lines in their order, so it keeps ids unique. */
  lemma {:induction false} RemovePreservesWellFormed(cart: Cart, id: ProductId)
    requires WellFormed(cart)
    ensures WellFormed(RemoveFromCart(cart, id))
  {
    if cart != [] {
      var rest := RemoveFromCart(cart[1..], id);
      RemovePreservesWellFormed(cart[1..], id);
      if cart[0].id != id {
        var r := [cart[0]] + rest;
        assert RemoveFromCart(cart, id) == r;
        forall j | 0 < j < |r|
          ensures r[0].id != r[j].id
        {
          assert r[j] == rest[j - 1];
          assert rest[j - 1] in cart[1..];
        }
      }
    }
  }

  /** Removal works line by line: removing from two carts joined end to end
      is removing from each and joining the results. With the single-line
      cases (a line with the id goes, any other stays) this fixes the result
      of every cart as its other lines in their original order. */
  lemma {:induction false} RemoveKeepsOrder(a: Cart, b: Cart, id: ProductId)
    ensures RemoveFromCart(a + b, id) == RemoveFromCart(a, id) + RemoveFromCart(b, id)
    ensures forall x: LineItem :: RemoveFromCart([x], id) == (if x.id == id then [] else [x])
  {
    if a != [] {
      assert (a + b)[1..] == a[1..] + b;
      RemoveKeepsOrder(a[1..], b, id);
    } else {
      assert a + b == b;
    }
    forall x: LineItem
      ensures RemoveFromCart([x], id) == (if x.id == id then [] else [x])
    {
      assert [x][1..] == [];
    }
  }

  /** In a well-formed cart, removing a present id deletes exactly its line,
      the others keeping their order. */
  lemma {:induction false} RemoveDeletesOneLine(cart: Cart, i: nat)
    requires WellFormed(cart)
    requires i < |cart|
    ensures RemoveFromCart(cart, cart[i].id) == cart[..i] + cart[i+1..]
  {
    if i == 0 {
      assert !Contains(cart[1..], cart[0].id);
    } else {
      var id := cart[i].id;
      var tail := cart[1..];
      TailWellFormed(cart);
      assert tail[i - 1].id == id;
      RemoveDeletesOneLine(tail, i - 1);
      assert cart[0].id != id;
      assert RemoveFromCart(cart, id) == [cart[0]] + RemoveFromCart(tail, id);
      DeleteShift(cart, i);
    }
  }

  /** Putting the head back in front of a tail with one line deleted. */
  lemma DeleteShift(cart: Cart, i: nat)
    requires 0 < i < |cart|
    ensures [cart[0]] + (cart[1..][..i - 1] + cart[1..][i..]) == cart[..i] + cart[i+1..]
  {
  }

  /** Removing a present id lowers the total by that line's subtotal and
      the item count by its quantity. */
  lemma RemoveTotalAndCount(cart: Cart, i: nat)
    requires WellFormed(cart)
    requires i < |cart|
    ensures CartTotal(RemoveFromCart(cart, cart[i].id)) == CartTotal(cart) - Subtotal(cart[i])
    ensures CartCount(RemoveFromCart(cart, cart[i].id)) == CartCount(cart) - cart[i].cantidad
  {
    RemoveDeletesOneLine(cart, i);
    SumDelete(cart, i);
    QuantityDelete(cart, i);
  }

  /** `sumar` followed by `restar` on the same id gives back the original cart. */
  lemma IncrementThenDecrement(cart: Cart, id: ProductId)
    requires WellFormed(cart)
    ensures UpdateQuantity(UpdateQuantity(cart, id, Sumar).cart, id, Restar).cart == cart
  {
  }

  /** `restar` on a line holding one unit is a no-op: a quantity never
      reaches zero through the update handler. */
  lemma DecrementAtOneIsNoOp(cart: Cart, i: nat)
    requires WellFormed(cart)
    requires i < |cart| && cart[i].cantidad == 1
    ensures UpdateQuantity(cart, cart[i].id, Restar).cart == cart
    ensures UpdateQuantity(cart, cart[i].id, Restar).newQty == 1
  {
  }
}
