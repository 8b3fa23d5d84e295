/** The per-session state machine: the middleware that prepares every
    request, one step per cart or checkout request, and runs of steps. */
module Sessions {
  import opened Wrappers
  import opened CartLines
  import opened CartHandlers
  import opened CartProperties
  import opened Orders

  /** A session as stored between requests: the cart may not exist yet. */
  datatype StoredSession = StoredSession(cart: Option<Cart>, user: Option<User>)

  /** A session once the middleware has run: the cart always exists. */
  datatype Session = Session(cart: Cart, user: Option<User>)

  /** The values the middleware exposes to every page. */
  datatype Locals = Locals(user: Option<User>, cartCount: int)

  datatype Prepared = Prepared(session: Session, locals: Locals)

  /** The middleware: create an empty cart when there is none, and count
      the units in the cart for the header badge. */
  function Middleware(stored: StoredSession): (r: Prepared)
    ensures stored.cart.None? ==> r.session.cart == [] && r.locals.cartCount == 0
    ensures stored.cart.Some? ==> r.session.cart == stored.cart.value
    ensures r.locals.cartCount == Quantity(r.session.cart)
    ensures r.session.user == stored.user && r.locals.user == stored.user
  {
    var cart := if stored.cart.None? then [] else stored.cart.value;
    Prepared(Session(cart, stored.user), Locals(stored.user, CartCount(cart)))
  }

  /** The cart and checkout requests. A checkout carries the id the
      database generates for the new header. */
  datatype Request =
    | ViewCart
    | AddItem(add: AddRequest)
    | RemoveItem(id: ProductId)
    | UpdateItem(id: ProductId, accion: string)
    | PlaceOrder(ventaId: int)

  datatype Response =
    | CartPage(lines: Cart, total: int)
    | Redirect(location: string)
    | Json(success: bool, newQty: int, total: int)
    | OrderConfirmed(ventaId: int)

  datatype StepResult = StepResult(session: Session, store: Store, response: Response)

  /** One request against a prepared session. */
  function Step(s: Session, store: Store, req: Request): (r: StepResult)
    ensures r.session.user == s.user
    ensures !req.PlaceOrder? ==> r.store == store
    ensures req.ViewCart? ==> r.session == s && r.response == CartPage(s.cart, Sum(s.cart))
    ensures req.AddItem? ==> r.response == Redirect("/?added=true")
    ensures req.RemoveItem? ==> r.response == Redirect("/cart")
    ensures req.UpdateItem? ==> r.response.Json? && r.response.success && r.response.total == Sum(r.session.cart)
    ensures req.PlaceOrder? && s.user.None? ==> r.session == s && r.store == store && r.response == Redirect("/login")
    ensures req.PlaceOrder? && s.user.Some? && s.cart == [] ==> r.session == s && r.store == store && r.response == Redirect("/")
    ensures req.PlaceOrder? && s.user.Some? && s.cart != [] ==> r.session.cart == [] && r.response == OrderConfirmed(req.ventaId)
    ensures WellFormed(s.cart) ==> WellFormed(r.session.cart)
  {
    match req
    case ViewCart => StepResult(s, store, CartPage(s.cart, CartTotal(s.cart)))
    case AddItem(add) => StepResult(s.(cart := AddToCart(s.cart, add)), store, Redirect("/?added=true"))
    case RemoveItem(id) =>
      var remaining := RemoveFromCart(s.cart, id);
      assert WellFormed(s.cart) ==> WellFormed(remaining) by {
        if WellFormed(s.cart) {
          RemovePreservesWellFormed(s.cart, id);
        }
      }
      StepResult(s.(cart := remaining), store, Redirect("/cart"))
    case UpdateItem(id, accion) =>
      var u := UpdateQuantity(s.cart, id, accion);
      StepResult(s.(cart := u.cart), store, Json(true, u.newQty, u.total))
    case PlaceOrder(ventaId) =>
      var c := Checkout(s.user, s.cart, store, ventaId);
      var response := match c.outcome
        case RedirectLogin => Redirect("/login")
        case RedirectHome => Redirect("/")
        case Confirmed(id) => OrderConfirmed(id);
      StepResult(s.(cart := c.cart), c.store, response)
  }

  datatype RunResult = RunResult(session: Session, store: Store)

  /** A sequence of requests handled one after the other in one session. */
  function Run(s: Session, store: Store, reqs: seq<Request>): (r: RunResult)
    ensures r.session.user == s.user
    ensures WellFormed(s.cart) ==> WellFormed(r.session.cart)
    ensures (forall k :: 0 <= k < |reqs| ==> !reqs[k].PlaceOrder?) ==> r.store == store
    decreases |reqs|
  {
    if reqs == [] then RunResult(s, store)
    else
      var next := Step(s, store, reqs[0]);
      Run(next.session, next.store, reqs[1..])
  }

  /** Starting from a session that has no cart yet, every line of the cart
      holds a distinct product and at least one unit, whatever requests
      follow, and the badge counts at least one unit per line. */
  lemma FreshSessionStaysWellFormed(user: Option<User>, store: Store, reqs: seq<Request>)
    ensures var r := Run(Middleware(StoredSession(None, user)).session, store, reqs);
      && WellFormed(r.session.cart)
      && Middleware(StoredSession(Some(r.session.cart), user)).locals.cartCount >= |r.session.cart|
  {
    var r := Run(Middleware(StoredSession(None, user)).session, store, reqs);
    CountAtLeastLines(r.session.cart);
  }
}
