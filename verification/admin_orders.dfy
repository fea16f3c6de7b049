/** The admin order-management page: the five-entry status code/label map
    and its reverse, the access guard, the order fetch, and the in-place
    status patch after a successful status change. */
module AdminOrders {
  import opened Common
  import opened Strings
  import opened Query
  import Api
  import Session

  // ---------------------------------------------------------------------
  // Maps built from entry lists (`Object.fromEntries`)
  // ---------------------------------------------------------------------

  /** A map built from entries in order; a later entry overrides an earlier
      one with the same key. */
  function FromEntries<K, V>(e: seq<(K, V)>): map<K, V> {
    if |e| == 0 then map[] else FromEntries(e[..|e| - 1])[e[|e| - 1].0 := e[|e| - 1].1]
  }

  /** The entries with keys and values exchanged. */
  function Swap<K, V>(e: seq<(K, V)>): (r: seq<(V, K)>)
    ensures |r| == |e|
    ensures forall i :: 0 <= i < |e| ==> r[i].0 == e[i].1 && r[i].1 == e[i].0
  {
    seq(|e|, i requires 0 <= i < |e| => (e[i].1, e[i].0))
  }

  predicate DistinctKeys<K(==), V>(e: seq<(K, V)>) {
    forall i, j :: 0 <= i < j < |e| ==> e[i].0 != e[j].0
  }

  /** With distinct keys, the map holds exactly the entries. */
  lemma {:induction false} FromEntriesHoldsEntries<K, V>(e: seq<(K, V)>)
    requires DistinctKeys(e)
    ensures forall i :: 0 <= i < |e| ==> e[i].0 in FromEntries(e) && FromEntries(e)[e[i].0] == e[i].1
    ensures forall k :: k in FromEntries(e) ==> exists i :: 0 <= i < |e| && e[i].0 == k
    decreases |e|
  {
    if |e| > 0 {
      var n := |e| - 1;
      var init := e[..n];
      assert forall i :: 0 <= i < n ==> init[i] == e[i];
      FromEntriesHoldsEntries(init);
      forall i | 0 <= i < |e|
        ensures e[i].0 in FromEntries(e) && FromEntries(e)[e[i].0] == e[i].1
      {
        if i < n {
          assert init[i] == e[i];
          assert e[i].0 != e[n].0;
        }
      }
      forall k | k in FromEntries(e)
        ensures exists i :: 0 <= i < |e| && e[i].0 == k
      {
        if k != e[n].0 {
          assert k in FromEntries(init);
          var i :| 0 <= i < |init| && init[i].0 == k;
          assert e[i].0 == k;
        } else {
          assert e[n].0 == k;
        }
      }
    }
  }

  /** With distinct keys and distinct values, the map built from the
      swapped entries is the inverse of the map built from the entries. */
  lemma EntriesInverse<K, V>(e: seq<(K, V)>)
    requires DistinctKeys(e) && DistinctKeys(Swap(e))
    ensures forall k :: k in FromEntries(e) ==>
      FromEntries(e)[k] in FromEntries(Swap(e)) && FromEntries(Swap(e))[FromEntries(e)[k]] == k
    ensures forall v :: v in FromEntries(Swap(e)) ==>
      FromEntries(Swap(e))[v] in FromEntries(e) && FromEntries(e)[FromEntries(Swap(e))[v]] == v
  {
    var m := FromEntries(e);
    var w := FromEntries(Swap(e));
    FromEntriesHoldsEntries(e);
    FromEntriesHoldsEntries(Swap(e));
    forall k | k in m
      ensures m[k] in w && w[m[k]] == k
    {
      var i :| 0 <= i < |e| && e[i].0 == k;
      assert Swap(e)[i].0 == m[k];
    }
    forall v | v in w
      ensures w[v] in m && m[w[v]] == v
    {
      var i :| 0 <= i < |Swap(e)| && Swap(e)[i].0 == v;
      assert e[i].0 == w[v];
    }
  }

  // ---------------------------------------------------------------------
  // The status encoding
  // ---------------------------------------------------------------------

  const StatusEntries: seq<(int, string)> :=
    [(0, "Pending"), (1, "Processing"), (2, "Shipped"), (3, "Delivered"), (4, "Cancelled")]

  /** `orderStatusMap`. */
  const OrderStatusMap: map<int, string> := FromEntries(StatusEntries)

  /** `statusNameToValueMap`, built from the entries of `orderStatusMap`. */
  const StatusNameToValueMap: map<string, int> := FromEntries(Swap(StatusEntries))

  lemma StatusEntriesDistinct()
    ensures DistinctKeys(StatusEntries) && DistinctKeys(Swap(StatusEntries))
  {
    var s := Swap(StatusEntries);
    assert s[0].0 == "Pending" && s[1].0 == "Processing" && s[2].0 == "Shipped"
           && s[3].0 == "Delivered" && s[4].0 == "Cancelled";
  }

  /** The code-to-label map is defined on exactly 0..4 with the five labels,
      and the reverse map undoes it in both directions. */
  lemma StatusMapIsBijection()
    ensures OrderStatusMap.Keys == {0, 1, 2, 3, 4}
    ensures OrderStatusMap[0] == "Pending" && OrderStatusMap[1] == "Processing" && OrderStatusMap[2] == "Shipped"
            && OrderStatusMap[3] == "Delivered" && OrderStatusMap[4] == "Cancelled"
    ensures StatusNameToValueMap.Keys == {"Pending", "Processing", "Shipped", "Delivered", "Cancelled"}
    ensures forall c :: c in OrderStatusMap ==>
      OrderStatusMap[c] in StatusNameToValueMap && StatusNameToValueMap[OrderStatusMap[c]] == c
    ensures forall l :: l in StatusNameToValueMap ==>
      StatusNameToValueMap[l] in OrderStatusMap && OrderStatusMap[StatusNameToValueMap[l]] == l
  {
    StatusEntriesDistinct();
    FromEntriesHoldsEntries(StatusEntries);
    FromEntriesHoldsEntries(Swap(StatusEntries));
    EntriesInverse(StatusEntries);
    var e := StatusEntries;
    assert e[0].0 == 0 && e[1].0 == 1 && e[2].0 == 2 && e[3].0 == 3 && e[4].0 == 4;
    var s := Swap(StatusEntries);
    assert s[0].0 == "Pending" && s[1].0 == "Processing" && s[2].0 == "Shipped"
           && s[3].0 == "Delivered" && s[4].0 == "Cancelled";
  }

  /** The select's value for an order's status label: the code in decimal,
      or nothing when the label is not one of the five. */
  function SelectValue(status: string): Option<string> {
    if status in StatusNameToValueMap then Some(IntToString(StatusNameToValueMap[status])) else None
  }

  /** A label outside the map shows no value; for each of the five labels,
      the value the select shows parses back (`parseInt`) to the code whose
      label it is. */
  lemma SelectValueRoundTrip(status: string)
    ensures SelectValue(status).None? <==> status !in StatusNameToValueMap
    ensures SelectValue(status).Some? ==>
      var code := ParseInt(SelectValue(status).value);
      code.Some? && code.value in OrderStatusMap && OrderStatusMap[code.value] == status
  {
    StatusMapIsBijection();
    if status in StatusNameToValueMap {
      ParseIntOfIntToString(StatusNameToValueMap[status]);
    }
  }

  // ---------------------------------------------------------------------
  // Orders and the page's transitions
  // ---------------------------------------------------------------------

  datatype OrderItem = OrderItem(productId: string, productName: string, quantity: nat, price: int)

  /** An order as the admin list receives it: its status is a label. */
  datatype Order = Order(id: string, userId: string, orderDate: string, totalPrice: int,
                         status: string, orderItems: seq<OrderItem>)

  /** `prevOrders.map(o => o.id === orderId ? {...o, status} : o)`. */
  function PatchStatus(orders: seq<Order>, id: string, status: string): (r: seq<Order>)
    ensures |r| == |orders|
    ensures forall i :: 0 <= i < |r| ==> r[i].id == orders[i].id
    ensures forall i :: 0 <= i < |r| && orders[i].id == id ==> r[i] == orders[i].(status := status)
    ensures forall i :: 0 <= i < |r| && orders[i].id != id ==> r[i] == orders[i]
  {
    if |orders| == 0 then []
    else
      var head := if orders[0].id == id then orders[0].(status := status) else orders[0];
      [head] + PatchStatus(orders[1..], id, status)
  }

  /** Patching is idempotent, and patching an id no order has changes
      nothing. */
  lemma PatchStatusProperties(orders: seq<Order>, id: string, status: string)
    ensures PatchStatus(PatchStatus(orders, id, status), id, status) == PatchStatus(orders, id, status)
    ensures (forall i :: 0 <= i < |orders| ==> orders[i].id != id) ==> PatchStatus(orders, id, status) == orders
  {
  }

  /** The first eight characters of an order id, as shown in messages. */
  function ShortId(id: string): (r: string)
    ensures r <= id && |r| == if |id| <= 8 then |id| else 8
  {
    if |id| <= 8 then id else id[..8]
  }

  /** How a status value reads in the success message (`undefined` for a
      value outside the map). */
  function LabelText(value: Option<int>): string {
    if value.Some? && value.value in OrderStatusMap then OrderStatusMap[value.value] else "undefined"
  }

  datatype StatusChange = StatusChange(orders: seq<Order>, request: Option<Api.Request>, refetch: bool, notice: Option<Notice>)

  /** The success toast: the short order id and the label of the value
      that was sent, not of the status the server returned. */
  function UpdatedMessage(orderId: string, value: Option<int>): string {
    "Order #" + ShortId(orderId) + " status updated to " + LabelText(value) + "."
  }

  /** `handleStatusChange(orderId, newStatus)`: without a token nothing
      happens. Otherwise the parsed value is sent; on success only the order
      with that id takes the status the server returned, and the toast names
      the label of the value sent; on failure the list is left alone and a
      full refetch is issued. */
  function HandleStatusChange(orders: seq<Order>, token: Option<string>, orderId: string, newStatus: string,
                              reply: Reply<Order>): (r: StatusChange)
    ensures !Present(token) ==> r == StatusChange(orders, None, false, None)
    ensures Present(token) ==> r.request == Some(Api.UpdateOrderStatus(orderId, ParseInt(newStatus), token.value))
    ensures Present(token) && reply.Ok? ==> r.orders == PatchStatus(orders, orderId, reply.value.status) && !r.refetch
    ensures Present(token) && reply.Ok? ==> r.notice == Some(Success(UpdatedMessage(orderId, ParseInt(newStatus))))
    ensures Present(token) && reply.Err? ==>
      r.orders == orders && r.refetch && r.notice == Some(Failure(Or(reply.message, "Failed to update order status.")))
  {
    if !Present(token) then StatusChange(orders, None, false, None)
    else
      var value := ParseInt(newStatus);
      var request := Some(Api.UpdateOrderStatus(orderId, value, token.value));
      match reply
      case Ok(updated) =>
        StatusChange(PatchStatus(orders, orderId, updated.status), request, false, Some(Success(UpdatedMessage(orderId, value))))
      case Err(m) =>
        StatusChange(orders, request, true, Some(Failure(Or(m, "Failed to update order status."))))
  }

  /** Picking a status from the select for an order in the list, with a
      token, sends that status's code; when the server echoes the label the
      order shows it, and the toast names that label after the first eight
      characters of the id. */
  lemma StatusChangeFromSelect(orders: seq<Order>, token: string, k: int, code: int)
    requires token != "" && 0 <= k < |orders| && code in OrderStatusMap
    ensures var name := OrderStatusMap[code];
            var o := orders[k].(status := name);
            var r := HandleStatusChange(orders, Some(token), orders[k].id, IntToString(code), Ok(o));
            r.request == Some(Api.UpdateOrderStatus(orders[k].id, Some(code), token))
            && r.orders[k].status == name
            && SelectValue(r.orders[k].status) == Some(IntToString(code))
            && r.notice == Some(Success("Order #" + ShortId(orders[k].id) + " status updated to " + name + "."))
  {
    StatusMapIsBijection();
    ParseIntOfIntToString(code);
  }

  /** The toast reads the label from the value sent, whatever status the
      server returns; text that does not parse reads "undefined". */
  lemma ToastIgnoresReturnedStatus(orders: seq<Order>, token: string, orderId: string, newStatus: string, a: Order, b: Order)
    requires token != ""
    ensures HandleStatusChange(orders, Some(token), orderId, newStatus, Ok(a)).notice
            == HandleStatusChange(orders, Some(token), orderId, newStatus, Ok(b)).notice
    ensures ParseInt(newStatus).None? ==>
      HandleStatusChange(orders, Some(token), orderId, newStatus, Ok(a)).notice
      == Some(Success("Order #" + ShortId(orderId) + " status updated to undefined."))
  {
    var value := ParseInt(newStatus);
    var ra := HandleStatusChange(orders, Some(token), orderId, newStatus, Ok(a));
    var rb := HandleStatusChange(orders, Some(token), orderId, newStatus, Ok(b));
    assert ra.notice == rb.notice == Some(Success(UpdatedMessage(orderId, value)));
    if value.None? {
      assert LabelText(value) == "undefined";
      var head := "Order #" + ShortId(orderId);
      assert UpdatedMessage(orderId, value) == head + " status updated to " + "undefined" + ".";
      assert head + " status updated to " + "undefined" + "." == head + " status updated to undefined.";
    }
  }

  // ---------------------------------------------------------------------
  // Access guard and fetch
  // ---------------------------------------------------------------------

  /** What the page's guard effect does on a render. */
  datatype GuardEffect = GuardEffect(navigate: Option<Url>, notice: Option<Notice>, fetch: Option<Api.Request>)

  /** Once auth has loaded: a missing or non-admin user is sent home with
      "Access Denied" and nothing is fetched; an admin fetches all orders,
      provided a token is present. */
  function OrdersGuard(isAuthLoading: bool, user: Option<Session.User>, token: Option<string>): (g: GuardEffect)
    ensures isAuthLoading ==> g == GuardEffect(None, None, None)
    ensures !isAuthLoading && !Session.IsAdmin(user) ==>
      g == GuardEffect(Some(Url("/", [])), Some(Failure("Access Denied")), None)
    ensures g.fetch.Some? <==> !isAuthLoading && Session.IsAdmin(user) && Present(token)
    ensures g.fetch.Some? ==> g.fetch.value == Api.GetAllOrders(token.value)
    ensures g.navigate.None? || g.fetch.None?
  {
    if isAuthLoading then GuardEffect(None, None, None)
    else if !Session.IsAdmin(user) then GuardEffect(Some(Url("/", [])), Some(Failure("Access Denied")), None)
    else GuardEffect(None, None, if Present(token) then Some(Api.GetAllOrders(token.value)) else None)
  }

  datatype ListState = ListState(orders: seq<Order>, isLoading: bool, error: Option<string>)

  /** The outcome of a fetch: the list state and the toast shown, if any. */
  datatype FetchDone = FetchDone(state: ListState, notice: Option<Notice>)

  /** `fetchOrders` completion: success replaces the list silently; failure
      records the message and shows the same text as an error toast.
      Loading ends either way. */
  function FinishFetch(s: ListState, reply: Reply<seq<Order>>): (r: FetchDone)
    ensures !r.state.isLoading
    ensures reply.Ok? ==> r.state.orders == reply.value && r.state.error == s.error && r.notice.None?
    ensures reply.Err? ==>
      var text := Or(reply.message, "Failed to fetch orders.");
      r.state.orders == s.orders && r.state.error == Some(text) && r.notice == Some(Failure(text))
  {
    match reply
    case Ok(data) => FetchDone(s.(orders := data, isLoading := false), None)
    case Err(m) =>
      var text := Or(m, "Failed to fetch orders.");
      FetchDone(s.(error := Some(text), isLoading := false), Some(Failure(text)))
  }
}
