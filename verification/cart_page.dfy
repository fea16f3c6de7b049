/** The cart page: which view is shown, how the three quantity controls
    turn into an update or a removal, and placing the order. */
module CartPage {
  import opened Common
  import opened Strings
  import opened Query
  import Api
  import CartStore

  datatype View = LoadingView | EmptyView | ItemsView(items: seq<CartStore.CartItem>)

  /** Loading first; then the empty view when there is no cart or it has no
      lines; otherwise the lines. */
  function Render(s: CartStore.CartState): (v: View)
    ensures v.LoadingView? <==> s.isLoading
    ensures v.EmptyView? <==> !s.isLoading && (s.cart.None? || |s.cart.value.items| == 0)
    ensures v.ItemsView? ==> s.cart.Some? && v.items == s.cart.value.items && |v.items| > 0
  {
    if s.isLoading then LoadingView
    else if s.cart.None? || |s.cart.value.items| == 0 then EmptyView
    else ItemsView(s.cart.value.items)
  }

  /** The empty view implies a zero item count; a positive item count
      implies the lines are shown once loading ends. The empty view is
      decided on the number of lines, not the count, so lines that all have
      quantity zero are still listed. */
  lemma EmptyViewAndItemCount(s: CartStore.CartState)
    ensures Render(s).EmptyView? ==> CartStore.ItemCount(s.cart) == 0
    ensures !s.isLoading && CartStore.ItemCount(s.cart) > 0 ==> Render(s).ItemsView?
    ensures var z := CartStore.CartState(Some(CartStore.Cart("c", [CartStore.CartItem("p", "n", 1, 0)], 0)), false);
            Render(z).ItemsView? && CartStore.ItemCount(z.cart) == 0
  {
    var z := CartStore.CartState(Some(CartStore.Cart("c", [CartStore.CartItem("p", "n", 1, 0)], 0)), false);
    assert z.cart.value.items[..0] == [];
  }

  /** What `handleQuantityChange` asks the cart store to do. */
  datatype QuantityAction = Update(productId: string, quantity: int) | Remove(productId: string)

  /** A positive quantity is an update; zero or less is a removal. */
  function HandleQuantityChange(productId: string, newQuantity: int): (a: QuantityAction)
    ensures a.Update? <==> newQuantity > 0
    ensures a.productId == productId
    ensures a.Update? ==> a.quantity == newQuantity
  {
    if newQuantity > 0 then Update(productId, newQuantity) else Remove(productId)
  }

  /** The cart request the action sends. */
  function ActionRequest(a: QuantityAction, token: Option<string>): (r: Api.Request)
    ensures a.Update? ==> r == Api.UpdateItemQuantity(a.productId, a.quantity, token)
    ensures a.Remove? ==> r == Api.RemoveItemFromCart(a.productId, token)
  {
    match a
    case Update(p, q) => Api.UpdateItemQuantity(p, q, token)
    case Remove(p) => Api.RemoveItemFromCart(p, token)
  }

  /** The minus button: one less than the line's quantity. */
  function MinusQuantity(item: CartStore.CartItem): int {
    item.quantity - 1
  }

  /** The plus button: one more than the line's quantity. */
  function PlusQuantity(item: CartStore.CartItem): int {
    item.quantity + 1
  }

  /** The number input: `parseInt(value, 10) || 0`, so text that is not a
      number, and zero, both become 0. */
  function InputQuantity(text: string): (q: int)
    ensures ParseInt(text).None? ==> q == 0
    ensures ParseInt(text).Some? ==> q == ParseInt(text).value
  {
    match ParseInt(text)
    case None => 0
    case Some(v) => if v == 0 then 0 else v
  }

  /** The three controls: minus on a line of one removes it and otherwise
      lowers it by one; plus always updates; typing the decimal form of a
      positive number updates to it, while typing text that is not a
      number, zero or a negative number removes the line. */
  lemma QuantityControls(item: CartStore.CartItem, text: string, n: int)
    ensures HandleQuantityChange(item.productId, MinusQuantity(item)).Remove? <==> item.quantity <= 1
    ensures HandleQuantityChange(item.productId, PlusQuantity(item)) == Update(item.productId, item.quantity + 1)
    ensures n > 0 ==> HandleQuantityChange(item.productId, InputQuantity(IntToString(n))) == Update(item.productId, n)
    ensures n <= 0 ==> HandleQuantityChange(item.productId, InputQuantity(IntToString(n))).Remove?
    ensures ParseInt(text).None? ==> HandleQuantityChange(item.productId, InputQuantity(text)).Remove?
  {
    ParseIntOfIntToString(n);
  }

  /** The outcome of `handlePlaceOrder`. */
  datatype PlaceOrderStep = PlaceOrderStep(request: Option<Api.Request>, notice: Notice, navigate: Option<Url>,
                                           cart: CartStore.CartState, isPlacingOrder: bool)

  /** Without a token: an error and a redirect to the login page, nothing
      sent. With one: the order is placed; success announces it, clears the
      cart and goes to the orders page; failure reports the error and stays.
      The in-progress flag is down again afterwards. */
  function HandlePlaceOrder(s: CartStore.CartState, token: Option<string>, isPlacingOrder: bool, reply: Reply<()>): (r: PlaceOrderStep)
    ensures !Present(token) ==>
      r == PlaceOrderStep(None, Failure("You must be logged in to place an order."), Some(Url("/login", [])), s, isPlacingOrder)
    ensures Present(token) ==> r.request == Some(Api.PlaceOrder(token.value)) && !r.isPlacingOrder
    ensures Present(token) && reply.Ok? ==>
      r.notice == Success("Order placed successfully!") && r.navigate == Some(Url("/orders", []))
      && r.cart == CartStore.ClearCart(s) && CartStore.ItemCount(r.cart.cart) == 0
    ensures Present(token) && reply.Err? ==>
      r.notice == Failure(Or(reply.message, "Failed to place order.")) && r.navigate.None? && r.cart == s
  {
    if !Present(token) then
      PlaceOrderStep(None, Failure("You must be logged in to place an order."), Some(Url("/login", [])), s, isPlacingOrder)
    else
      var request := Some(Api.PlaceOrder(token.value));
      match reply
      case Ok(_) => PlaceOrderStep(request, Success("Order placed successfully!"), Some(Url("/orders", [])), CartStore.ClearCart(s), false)
      case Err(m) => PlaceOrderStep(request, Failure(Or(m, "Failed to place order.")), None, s, false)
  }

  /** After a placed order the page shows the empty view. */
  lemma PlacedOrderEmptiesPage(s: CartStore.CartState, token: string)
    requires token != "" && !s.isLoading
    ensures Render(HandlePlaceOrder(s, Some(token), false, Ok(())).cart) == EmptyView
  {
  }
}
