/** The REST service layer: the requests each endpoint helper sends, and how
    a raw HTTP response becomes a value or a thrown error message. Paths are
    relative to the configured API base URL, which is a deployment setting. */
module Api {
  import opened Common
  import opened Strings
  import opened Query

  datatype Method = GET | POST | PUT | DELETE

  type Header = (string, string)

  /** A JSON field value sent in a request body. `JNull` is what
      `JSON.stringify` writes for NaN. */
  datatype JsonValue = JStr(s: string) | JNum(n: int) | JNull

  /** An uploaded file, identified by its name; its bytes are not modelled. */
  datatype FileRef = FileRef(name: string)

  /** One entry of a multipart form. */
  datatype FormValue = Field(text: string) | Upload(file: FileRef)

  datatype Body =
    | NoBody
    | Json(fields: seq<(string, JsonValue)>)
    | Multipart(entries: seq<(string, FormValue)>)

  datatype Request = Request(verb: Method, url: Url, headers: seq<Header>, body: Body)

  /** The parsed error body of a non-ok response: its `Message` and
      `message` string fields (absent fields are `None`), or `Unparsable`
      when the body is not JSON. */
  datatype ErrorBody = ErrorFields(upper: Option<string>, lower: Option<string>) | Unparsable

  /** An HTTP response: ok with its parsed body, or not ok with its status,
      status text and error body. */
  datatype Response<+T> =
    | Okay(payload: T)
    | NotOk(status: nat, statusText: string, errorBody: ErrorBody)

  /** What `fetch` produced: a response, or a rejection (network failure). */
  datatype Outcome<+T> = Delivered(response: Response<T>) | NetworkError(message: string)

  // ---------------------------------------------------------------------
  // Response handling
  // ---------------------------------------------------------------------

  /** The fallback message of `handleResponse` for a non-ok status. */
  function StatusMessage(status: nat): string {
    "API request failed with status " + NatToString(status)
  }

  /** The message `handleResponse` throws for a non-ok response. */
  function ErrorMessage(status: nat, body: ErrorBody): (m: string)
    ensures Truthy(m)
  {
    match body
    case Unparsable => "An unknown error occurred"
    case ErrorFields(upper, lower) => Or(Text(upper), Or(Text(lower), StatusMessage(status)))
  }

  /** `handleResponse`: an ok response yields its parsed body; any other
      throws an error whose message is never empty. */
  function HandleResponse<T>(r: Response<T>): (reply: Reply<T>)
    ensures reply.Ok? <==> r.Okay?
    ensures r.Okay? ==> reply.value == r.payload
    ensures r.NotOk? ==> reply.message == ErrorMessage(r.status, r.errorBody) && Truthy(reply.message)
  {
    match r
    case Okay(p) => Ok(p)
    case NotOk(status, _, body) => Err(ErrorMessage(status, body))
  }

  /** The message precedence of `handleResponse`: `Message`, then
      `message`, then the status text; an unparsable body reads as
      `{Message: "An unknown error occurred"}`. */
  lemma ErrorMessagePrecedence(status: nat, upper: Option<string>, lower: Option<string>)
    ensures Present(upper) ==> ErrorMessage(status, ErrorFields(upper, lower)) == upper.value
    ensures !Present(upper) && Present(lower) ==> ErrorMessage(status, ErrorFields(upper, lower)) == lower.value
    ensures !Present(upper) && !Present(lower) ==>
      ErrorMessage(status, ErrorFields(upper, lower)) == "API request failed with status " + IntToString(status)
    ensures ErrorMessage(status, Unparsable) == ErrorMessage(status, ErrorFields(Some("An unknown error occurred"), lower))
  {
  }

  /** The status number can be read back from the fallback message. */
  lemma StatusMessageNamesStatus(status: nat)
    ensures var m := StatusMessage(status);
            var prefix := "API request failed with status ";
            prefix <= m && ParseInt(m[|prefix|..]) == Some(status)
  {
    var prefix := "API request failed with status ";
    assert StatusMessage(status)[|prefix|..] == IntToString(status);
    ParseIntOfIntToString(status);
  }

  /** An awaited endpoint helper that ends in `handleResponse`: a rejected
      `fetch` propagates its own error. */
  function Call<T>(o: Outcome<T>): (reply: Reply<T>)
    ensures reply.Ok? <==> o.Delivered? && o.response.Okay?
    ensures o.NetworkError? ==> reply == Err(o.message)
  {
    match o
    case Delivered(r) => HandleResponse(r)
    case NetworkError(m) => Err(m)
  }

  /** `deleteCategory` / `deleteProduct`: success does not read the body;
      failure throws the body's `message`, else "API Error: <statusText>";
      an unparsable body reads as a fixed deletion message. */
  function DeleteCall<T>(o: Outcome<T>): (reply: Reply<()>)
    ensures reply.Ok? <==> o.Delivered? && o.response.Okay?
    ensures o.Delivered? && o.response.NotOk? && o.response.errorBody.ErrorFields? ==>
      reply.message == Or(Text(o.response.errorBody.lower), "API Error: " + o.response.statusText)
    ensures o.Delivered? && o.response.NotOk? && o.response.errorBody.Unparsable? ==>
      reply == Err("An unknown error occurred during deletion.")
    ensures o.NetworkError? ==> reply == Err(o.message)
  {
    match o
    case NetworkError(m) => Err(m)
    case Delivered(Okay(_)) => Ok(())
    case Delivered(NotOk(_, statusText, Unparsable)) => Err("An unknown error occurred during deletion.")
    case Delivered(NotOk(_, statusText, ErrorFields(_, lower))) => Err(Or(Text(lower), "API Error: " + statusText))
  }

  /** The delete helpers ignore the `Message` field that `handleResponse`
      prefers, so the same reply yields different messages. */
  lemma DeleteIgnoresUpperMessage()
    ensures var r: Response<()> := NotOk(404, "Not Found", ErrorFields(Some("Category not found."), None));
            HandleResponse(r) == Err("Category not found.")
            && DeleteCall(Delivered(r)) == Err("API Error: Not Found")
  {
  }

  /** The delete helpers succeed and fail exactly when the ordinary helpers
      do, pass a network error through unchanged, and throw the same
      message when the body has a truthy `message` and no truthy `Message`;
      otherwise only their fallbacks differ. */
  lemma DeleteCallAgreesWithCall<T>(o: Outcome<T>)
    ensures DeleteCall(o).Ok? == Call(o).Ok?
    ensures o.NetworkError? ==> DeleteCall(o) == Err(Call(o).message)
    ensures o.Delivered? && o.response.NotOk? && o.response.errorBody.ErrorFields?
            && !Present(o.response.errorBody.upper) && Present(o.response.errorBody.lower) ==>
      DeleteCall(o) == Err(Call(o).message) && Call(o).message == o.response.errorBody.lower.value
  {
    if o.Delivered? && o.response.NotOk? && o.response.errorBody.ErrorFields? {
      ErrorMessagePrecedence(o.response.status, o.response.errorBody.upper, o.response.errorBody.lower);
    }
  }

  // ---------------------------------------------------------------------
  // logoutUserApi
  // ---------------------------------------------------------------------

  /** What `logoutUserApi` resolves with: the server's body, or the
      client-side fallback message. */
  datatype LogoutAck<+T> = ServerAck(body: T) | ClientSide(message: string)

  const LogoutFallback := "Client-side logout initiated after API error."

  /** `logoutUserApi` as written: `handleResponse` is returned without
      `await` inside the `try`, so only a rejected `fetch` reaches the
      `catch`; an HTTP error still rejects. */
  function LogoutUserApiAsWritten<T>(o: Outcome<T>): (reply: Reply<LogoutAck<T>>)
    ensures o.NetworkError? ==> reply == Ok(ClientSide(LogoutFallback))
    ensures o.Delivered? && o.response.NotOk? ==> reply.Err?
  {
    match o
    case NetworkError(_) => Ok(ClientSide(LogoutFallback))
    case Delivered(r) =>
      match HandleResponse(r)
      case Ok(p) => Ok(ServerAck(p))
      case Err(m) => Err(m)
  }

  /** The as-written helper rejects on a 401 reply, though its comment
      promises to resolve for every failure. */
  lemma LogoutUserApiAsWrittenRejects()
    ensures LogoutUserApiAsWritten<()>(Delivered(NotOk(401, "Unauthorized", Unparsable)))
            == Err("An unknown error occurred")
  {
  }

  /** `logoutUserApi` as intended: it never rejects; any failure resolves
      with the client-side fallback. */
  function LogoutUserApi<T>(o: Outcome<T>): (reply: Reply<LogoutAck<T>>)
    ensures reply.Ok?
    ensures reply.value.ServerAck? <==> o.Delivered? && o.response.Okay?
    ensures reply.value.ClientSide? ==> reply.value.message == LogoutFallback
  {
    match o
    case Delivered(Okay(p)) => Ok(ServerAck(p))
    case _ => Ok(ClientSide(LogoutFallback))
  }

  /** The two agree wherever the as-written helper resolves. */
  lemma LogoutUserApiAgrees<T>(o: Outcome<T>)
    ensures LogoutUserApiAsWritten(o).Ok? ==> LogoutUserApiAsWritten(o) == LogoutUserApi(o)
  {
  }

  // ---------------------------------------------------------------------
  // Requests
  // ---------------------------------------------------------------------

  const JsonContent: Header := ("Content-Type", "application/json")

  function Bearer(token: string): Header {
    ("Authorization", "Bearer " + token)
  }

  /** The `Authorization` header value of a request, if it has one. */
  function Authorization(r: Request): Option<string> {
    Get(r.headers, "Authorization")
  }

  /** Headers of the cart helpers: JSON content type, plus a bearer token
      only when the token is truthy. */
  function CartHeaders(token: Option<string>): (h: seq<Header>)
    ensures Get(h, "Authorization").Some? <==> Present(token)
    ensures Present(token) ==> Get(h, "Authorization") == Some("Bearer " + token.value)
    ensures Get(h, "Content-Type") == Some("application/json")
  {
    if Present(token) then [JsonContent, Bearer(token.value)] else [JsonContent]
  }

  function Path(p: string): Url {
    Url(p, [])
  }

  function LoginUser(email: string, password: string): Request {
    Request(POST, Path("/auth/login"), [JsonContent], Json([("email", JStr(email)), ("password", JStr(password))]))
  }

  /** The session's own best-effort logout call: bearer token only. */
  function LogoutRequest(token: string): Request {
    Request(POST, Path("/auth/logout"), [Bearer(token)], NoBody)
  }

  /** The logout helper's call: bearer token and a JSON content type. */
  function LogoutUserApiRequest(token: string): Request {
    Request(POST, Path("/auth/logout"), [Bearer(token), JsonContent], NoBody)
  }

  function GetCurrentUser(token: string): Request {
    Request(GET, Path("/auth/me"), [Bearer(token)], NoBody)
  }

  function GetCategories(): Request {
    Request(GET, Path("/categories"), [JsonContent], NoBody)
  }

  function DeleteCategory(id: string, token: string): Request {
    Request(DELETE, Path("/categories/" + id), [Bearer(token)], NoBody)
  }

  /** `getProducts`: `/products`, with `categoryId` only when it is truthy.
      The source pastes the value into the URL without encoding; the model
      reads it as the single pair it is when it holds no `&`, `=`, `#`,
      `%` or `+`. */
  function GetProducts(categoryId: Option<string>): (r: Request)
    ensures r.url.path == "/products"
    ensures Get(r.url.query, "categoryId") == (if Present(categoryId) then categoryId else None)
    ensures |r.url.query| <= 1
  {
    var query := if Present(categoryId) then [("categoryId", categoryId.value)] else [];
    Request(GET, Url("/products", query), [JsonContent], NoBody)
  }

  function GetProductById(id: string): Request {
    Request(GET, Path("/products/" + id), [JsonContent], NoBody)
  }

  function CreateProduct(form: seq<(string, FormValue)>, token: string): Request {
    Request(POST, Path("/products"), [Bearer(token)], Multipart(form))
  }

  function UpdateProduct(id: int, form: seq<(string, FormValue)>, token: string): Request {
    Request(PUT, Path("/products/" + IntToString(id)), [Bearer(token)], Multipart(form))
  }

  function DeleteProduct(id: int, token: string): Request {
    Request(DELETE, Path("/products/" + IntToString(id)), [Bearer(token)], NoBody)
  }

  /** `searchProducts`: `q` always comes first; `categoryId` follows it
      only when truthy. */
  function SearchProducts(q: string, categoryId: Option<string>): (r: Request)
    ensures r.url.path == "/products/search"
    ensures |r.url.query| >= 1 && r.url.query[0] == ("q", q)
    ensures Get(r.url.query, "q") == Some(q)
    ensures Get(r.url.query, "categoryId") == (if Present(categoryId) then categoryId else None)
    ensures |r.url.query| == (if Present(categoryId) then 2 else 1)
  {
    var withQ := Append([], "q", q);
    var query := if Present(categoryId) then Append(withQ, "categoryId", categoryId.value) else withQ;
    Request(GET, Url("/products/search", query), [JsonContent], NoBody)
  }

  function GetCart(token: Option<string>): Request {
    Request(GET, Path("/cart"), CartHeaders(token), NoBody)
  }

  function AddItemToCart(productId: string, quantity: int, token: Option<string>): Request {
    Request(POST, Path("/cart/items"), CartHeaders(token),
            Json([("productId", JStr(productId)), ("quantity", JNum(quantity))]))
  }

  function UpdateItemQuantity(productId: string, quantity: int, token: Option<string>): Request {
    Request(PUT, Path("/cart/items/" + productId), CartHeaders(token), Json([("quantity", JNum(quantity))]))
  }

  function RemoveItemFromCart(productId: string, token: Option<string>): Request {
    Request(DELETE, Path("/cart/items/" + productId), CartHeaders(token), NoBody)
  }

  predicate IsCartRequest(r: Request) {
    r.url.path == "/cart" || (|r.url.path| >= 11 && r.url.path[..11] == "/cart/items")
  }

  /** Every cart helper sends `Authorization: Bearer <token>` exactly when
      the token is truthy. */
  lemma CartAuthorizationRule(productId: string, quantity: int, token: Option<string>)
    ensures forall r :: r in [GetCart(token), AddItemToCart(productId, quantity, token),
                              UpdateItemQuantity(productId, quantity, token), RemoveItemFromCart(productId, token)]
              ==> IsCartRequest(r)
                  && Authorization(r) == (if Present(token) then Some("Bearer " + token.value) else None)
  {
  }

  function PlaceOrder(token: string): Request {
    Request(POST, Path("/Orders"), [Bearer(token), JsonContent], NoBody)
  }

  function GetOrders(token: string): Request {
    Request(GET, Path("/Orders"), [Bearer(token)], NoBody)
  }

  function GetAllOrders(token: string): Request {
    Request(GET, Path("/Orders/all"), [Bearer(token)], NoBody)
  }

  /** `updateOrderStatus`; a NaN status serialises as `null`. */
  function UpdateOrderStatus(orderId: string, status: Option<int>, token: string): Request {
    var value := if status.Some? then JNum(status.value) else JNull;
    Request(PUT, Path("/Orders/" + orderId + "/status"), [Bearer(token), JsonContent], Json([("status", value)]))
  }
}
