/** The cart store: the current cart as last returned by the server, a
    loading flag, the derived item count, and the fetch/add/update/remove/
    clear transitions. Every mutation replaces the whole cart with the
    server's reply; the client never merges or recomputes. */
module CartStore {
  import opened Common
  import Api
  import Session

  /** Prices and totals are server-computed amounts the client only shows. */
  datatype CartItem = CartItem(productId: string, productName: string, price: int, quantity: nat)

  datatype Cart = Cart(id: string, items: seq<CartItem>, totalPrice: int)

  /** The fallback cart used when a fetch fails. */
  const EmptyCart := Cart("", [], 0)

  datatype CartState = CartState(cart: Option<Cart>, isLoading: bool)

  /** The provider as mounted: no cart yet, not loading. */
  const Initial := CartState(None, false)

  /** Sum of the quantities, as a left-to-right reduction. */
  function SumQuantities(items: seq<CartItem>): nat {
    if |items| == 0 then 0 else SumQuantities(items[..|items| - 1]) + items[|items| - 1].quantity
  }

  /** `cart?.items.reduce((sum, item) => sum + item.quantity, 0) ?? 0`. */
  function ItemCount(cart: Option<Cart>): nat {
    if cart.None? then 0 else SumQuantities(cart.value.items)
  }

  /** The reduction as the source runs it, one item at a time. */
  method ReduceQuantities(items: seq<CartItem>) returns (sum: nat)
    ensures sum == SumQuantities(items)
  {
    sum := 0;
    var i := 0;
    while i < |items|
      invariant 0 <= i <= |items|
      invariant sum == SumQuantities(items[..i])
    {
      assert items[..i + 1][..i] == items[..i];
      sum := sum + items[i].quantity;
      i := i + 1;
    }
    assert items[..i] == items;
  }

  lemma {:induction false} SumZeroIff(items: seq<CartItem>)
    ensures SumQuantities(items) == 0 <==> forall i :: 0 <= i < |items| ==> items[i].quantity == 0
    decreases |items|
  {
    if |items| > 0 {
      var init := items[..|items| - 1];
      SumZeroIff(init);
      assert forall i :: 0 <= i < |init| ==> init[i] == items[i];
    }
  }

  lemma {:induction false} SumBoundsEachQuantity(items: seq<CartItem>, k: int)
    requires 0 <= k < |items|
    ensures items[k].quantity <= SumQuantities(items)
    decreases |items|
  {
    if k < |items| - 1 {
      var init := items[..|items| - 1];
      assert init[k] == items[k];
      SumBoundsEachQuantity(init, k);
    }
  }

  /** The count is zero exactly when there is no cart or every line has
      quantity zero; in particular it is zero for no cart and for an empty
      item list, and it bounds every line's quantity. */
  lemma ItemCountZeroIff(cart: Option<Cart>)
    ensures ItemCount(cart) == 0 <==>
      cart.None? || forall i :: 0 <= i < |cart.value.items| ==> cart.value.items[i].quantity == 0
    ensures cart.Some? ==> forall i :: 0 <= i < |cart.value.items| ==> cart.value.items[i].quantity <= ItemCount(cart)
  {
    if cart.Some? {
      SumZeroIff(cart.value.items);
      forall i | 0 <= i < |cart.value.items|
        ensures cart.value.items[i].quantity <= ItemCount(cart)
      {
        SumBoundsEachQuantity(cart.value.items, i);
      }
    }
  }

  /** `fetchCart` start: the loading flag goes up; the request carries the
      token only when it is truthy. */
  function StartFetch(s: CartState, token: Option<string>): (r: (CartState, Api.Request))
    ensures r.0 == s.(isLoading := true)
    ensures r.1.url == Api.Path("/cart") && r.1.verb == Api.GET
    ensures Api.Authorization(r.1).Some? <==> Present(token)
  {
    (s.(isLoading := true), Api.GetCart(token))
  }

  /** `fetchCart` completion: the reply replaces the cart verbatim; a failure
      falls back to the empty cart, never to an error state. Loading ends on
      both branches. */
  function FinishFetch(s: CartState, reply: Reply<Cart>): (r: CartState)
    ensures !r.isLoading && r.cart.Some?
    ensures reply.Ok? ==> r.cart == Some(reply.value)
    ensures reply.Err? ==> r.cart == Some(EmptyCart) && ItemCount(r.cart) == 0
  {
    match reply
    case Ok(c) => CartState(Some(c), false)
    case Err(_) => CartState(Some(EmptyCart), false)
  }

  /** The outcome of a cart mutation: the new state, the request sent and
      the notification shown. */
  datatype CartStep = CartStep(state: CartState, request: Api.Request, notice: Notice)

  /** The shared shape of add/update/remove: success replaces the whole
      cart with the reply; failure leaves the state alone and reports the
      error message, or the fallback when it is empty. */
  function Mutate(s: CartState, request: Api.Request, reply: Reply<Cart>, done: string, fallback: string): (r: CartStep)
    ensures r.request == request
    ensures reply.Ok? ==> r.state == s.(cart := Some(reply.value)) && r.notice == Success(done)
    ensures reply.Err? ==> r.state == s && r.notice == Failure(Or(reply.message, fallback))
  {
    match reply
    case Ok(c) => CartStep(s.(cart := Some(c)), request, Success(done))
    case Err(m) => CartStep(s, request, Failure(Or(m, fallback)))
  }

  function AddToCart(s: CartState, productId: string, quantity: int, token: Option<string>, reply: Reply<Cart>): (r: CartStep)
    ensures r.request == Api.AddItemToCart(productId, quantity, token)
    ensures reply.Ok? ==> r.state.cart == Some(reply.value) && r.notice == Success("Item added to cart!")
    ensures reply.Err? ==> r.state == s && r.notice == Failure(Or(reply.message, "Failed to add item to cart."))
    ensures r.state.isLoading == s.isLoading
  {
    Mutate(s, Api.AddItemToCart(productId, quantity, token), reply, "Item added to cart!", "Failed to add item to cart.")
  }

  function UpdateQuantity(s: CartState, productId: string, quantity: int, token: Option<string>, reply: Reply<Cart>): (r: CartStep)
    ensures r.request == Api.UpdateItemQuantity(productId, quantity, token)
    ensures reply.Ok? ==> r.state.cart == Some(reply.value) && r.notice == Success("Cart updated.")
    ensures reply.Err? ==> r.state == s && r.notice == Failure(Or(reply.message, "Failed to update cart."))
    ensures r.state.isLoading == s.isLoading
  {
    Mutate(s, Api.UpdateItemQuantity(productId, quantity, token), reply, "Cart updated.", "Failed to update cart.")
  }

  function RemoveFromCart(s: CartState, productId: string, token: Option<string>, reply: Reply<Cart>): (r: CartStep)
    ensures r.request == Api.RemoveItemFromCart(productId, token)
    ensures reply.Ok? ==> r.state.cart == Some(reply.value) && r.notice == Success("Item removed from cart.")
    ensures reply.Err? ==> r.state == s && r.notice == Failure(Or(reply.message, "Failed to remove item."))
    ensures r.state.isLoading == s.isLoading
  {
    Mutate(s, Api.RemoveItemFromCart(productId, token), reply, "Item removed from cart.", "Failed to remove item.")
  }

  /** `clearCart`: local only, back to no cart. */
  function ClearCart(s: CartState): (r: CartState)
    ensures r.cart.None? && ItemCount(r.cart) == 0
    ensures r.isLoading == s.isLoading
  {
    s.(cart := None)
  }

  /** How many cart fetches a change of the session token triggers:
      `fetchCart` is re-created whenever the token changes, and the effect
      that depends on it runs once per re-creation. */
  function FetchesOnTokenChange(before: Option<string>, after: Option<string>): (n: nat)
    ensures n <= 1
    ensures n == 1 <==> before != after
  {
    if before != after then 1 else 0
  }

  /** The badge count after a mutation: unchanged when the server refused,
      the total quantity of the returned cart when it answered, so it drops
      to zero exactly when every returned line has quantity zero. */
  lemma MutationsSetItemCount(s: CartState, productId: string, quantity: int, token: Option<string>, reply: Reply<Cart>)
    ensures reply.Err? ==>
      ItemCount(AddToCart(s, productId, quantity, token, reply).state.cart) == ItemCount(s.cart)
      && ItemCount(UpdateQuantity(s, productId, quantity, token, reply).state.cart) == ItemCount(s.cart)
      && ItemCount(RemoveFromCart(s, productId, token, reply).state.cart) == ItemCount(s.cart)
    ensures reply.Ok? ==>
      ItemCount(AddToCart(s, productId, quantity, token, reply).state.cart) == SumQuantities(reply.value.items)
      && ItemCount(UpdateQuantity(s, productId, quantity, token, reply).state.cart) == SumQuantities(reply.value.items)
      && ItemCount(RemoveFromCart(s, productId, token, reply).state.cart) == SumQuantities(reply.value.items)
    ensures reply.Ok? ==>
      (ItemCount(RemoveFromCart(s, productId, token, reply).state.cart) == 0
       <==> forall i :: 0 <= i < |reply.value.items| ==> reply.value.items[i].quantity == 0)
  {
    if reply.Ok? {
      SumZeroIff(reply.value.items);
    }
  }

  /** How many times the cart is fetched while the provider sees the token
      values `tokens` in turn, the first at mount: the effect runs on mount
      and again whenever the token differs from the one before it. */
  function FetchesOverHistory(tokens: seq<Option<string>>): (n: nat)
    ensures n == 0 <==> |tokens| == 0
    ensures n <= |tokens|
    ensures |tokens| > 0 ==> (n == 1 <==> forall i :: 0 < i < |tokens| ==> tokens[i] == tokens[0])
    ensures n == |tokens| <==> forall i :: 0 < i < |tokens| ==> tokens[i] != tokens[i - 1]
  {
    if |tokens| <= 1 then |tokens|
    else
      var prefix := tokens[..|tokens| - 1];
      assert forall i :: 0 <= i < |prefix| ==> prefix[i] == tokens[i];
      FetchesOverHistory(prefix) + FetchesOnTokenChange(tokens[|tokens| - 2], tokens[|tokens| - 1])
  }

  /** A mutation's outcome depends only on the reply: two successive
      successful mutations leave the cart of the second reply. */
  lemma LastReplyWins(s: CartState, p: string, q: int, token: Option<string>, c1: Cart, c2: Cart)
    ensures var mid := AddToCart(s, p, q, token, Ok(c1)).state;
            UpdateQuantity(mid, p, q, token, Ok(c2)).state.cart == Some(c2)
  {
  }

  /** The session transitions and the cart fetches they trigger: signing in
      from anonymous, or a verified startup, fetches once; signing in again
      with the same token does not refetch; logging out a signed-in session
      fetches once (the anonymous cart). */
  lemma SessionChangesRefetchCart(s: Session.AuthState, t: string, u: Session.User,
                                  stored: Session.Storage, verification: Api.Outcome<Session.User>)
    ensures Session.Anonymous(s) ==> FetchesOnTokenChange(s.token, Session.Login(s, t, u).token) == 1
    ensures s.token == Some(t) ==> FetchesOnTokenChange(s.token, Session.Login(s, t, u).token) == 0
    ensures s.token.Some? ==> FetchesOnTokenChange(s.token, Session.Logout(s).state.token) == 1
    ensures var m := Session.Mount(stored);
            FetchesOnTokenChange(m.token, Session.AttemptAutoLogin(m, verification).state.token)
            == (if Present(stored.authToken) && verification.Delivered? && verification.response.Okay? then 1 else 0)
  {
  }
}
