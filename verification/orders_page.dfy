/** The customer's order history page: the status text shown for a numeric
    status, the sign-in redirect, the fetch, and which view is rendered. */
module OrdersPage {
  import opened Common
  import opened Query
  import Api
  import Session
  import Middleware
  import AdminOrders

  /** `getStatusText`: only the first three codes have text here. */
  function StatusText(status: int): (t: string)
    ensures 0 <= status <= 2 <==> t != "Unknown"
  {
    match status
    case 0 => "Pending"
    case 1 => "Processing"
    case 2 => "Shipped"
    case _ => "Unknown"
  }

  /** The customer page and the admin page agree on codes 0 to 2; codes 3
      and 4, which the admin page labels "Delivered" and "Cancelled", read
      "Unknown" here, and so does every code outside 0 to 4. */
  lemma StatusTextAgainstAdminMap(status: int)
    ensures 0 <= status <= 2 ==> status in AdminOrders.OrderStatusMap && StatusText(status) == AdminOrders.OrderStatusMap[status]
    ensures status in AdminOrders.OrderStatusMap && StatusText(status) != AdminOrders.OrderStatusMap[status] <==> status == 3 || status == 4
    ensures status !in AdminOrders.OrderStatusMap ==> StatusText(status) == "Unknown"
  {
    AdminOrders.StatusMapIsBijection();
  }

  datatype OrderItem = OrderItem(productId: string, productName: string, quantity: nat, price: int)

  /** An order as the customer list receives it: its status is a number. */
  datatype Order = Order(id: string, orderDate: string, totalPrice: int, status: int, orderItems: seq<OrderItem>)

  /** The page state; it starts out loading with no orders and no error. */
  datatype PageState = PageState(orders: seq<Order>, isLoading: bool, error: Option<string>)

  const Initial := PageState([], true, None)

  /** What the page's effect does on a render. */
  datatype Effect = Effect(navigate: Option<Url>, fetch: Option<Api.Request>)

  /** The effect: nothing while auth loads; an anonymous visitor is sent to
      sign in with a return path to this page; a signed-in user's orders are
      fetched, but only when the token is truthy. */
  function OrdersEffect(isAuthLoading: bool, user: Option<Session.User>, token: Option<string>): (e: Effect)
    ensures isAuthLoading ==> e == Effect(None, None)
    ensures e.navigate.Some? <==> !isAuthLoading && user.None?
    ensures e.navigate.Some? ==> e.navigate.value == Middleware.LoginRedirect("/orders")
    ensures e.fetch.Some? <==> !isAuthLoading && user.Some? && Present(token)
    ensures e.fetch.Some? ==> e.fetch.value == Api.GetOrders(token.value)
  {
    if isAuthLoading then Effect(None, None)
    else if user.None? then Effect(Some(Url("/login", [("redirect", "/orders")])), None)
    else Effect(None, if Present(token) then Some(Api.GetOrders(token.value)) else None)
  }

  /** Completion of the fetch: success replaces the list; failure records
      the message. Loading ends either way. */
  function FinishFetch(s: PageState, reply: Reply<seq<Order>>): (r: PageState)
    ensures !r.isLoading
    ensures reply.Ok? ==> r.orders == reply.value && r.error == s.error
    ensures reply.Err? ==> r.orders == s.orders && r.error == Some(Or(reply.message, "Failed to fetch orders."))
  {
    match reply
    case Ok(data) => s.(orders := data, isLoading := false)
    case Err(m) => s.(error := Some(Or(m, "Failed to fetch orders.")), isLoading := false)
  }

  datatype View = LoadingView | ErrorView(message: string) | NoOrdersView | ListView(orders: seq<Order>)

  /** Which of the four renders is shown: loading first, then an error, then
      the empty message, then the list. */
  function Render(s: PageState, isAuthLoading: bool): (v: View)
    ensures v.LoadingView? <==> s.isLoading || isAuthLoading
    ensures v.ErrorView? <==> !s.isLoading && !isAuthLoading && s.error.Some? && s.error.value != ""
    ensures v.ListView? ==> v.orders == s.orders && |s.orders| > 0
    ensures v.NoOrdersView? ==> |s.orders| == 0
  {
    if s.isLoading || isAuthLoading then LoadingView
    else if s.error.Some? && s.error.value != "" then ErrorView(s.error.value)
    else if |s.orders| == 0 then NoOrdersView
    else ListView(s.orders)
  }

  /** A signed-in user whose token is empty is never fetched for, so the
      page, which starts out loading, keeps showing the loading view. */
  lemma EmptyTokenStaysLoading(u: Session.User)
    ensures OrdersEffect(false, Some(u), Some("")).fetch.None?
    ensures Render(Initial, false) == LoadingView
  {
  }

  /** A failed fetch always shows an error, never the empty-list message. */
  lemma FailedFetchShowsError(reply: Reply<seq<Order>>)
    requires reply.Err?
    ensures Render(FinishFetch(Initial, reply), false).ErrorView?
  {
  }
}
