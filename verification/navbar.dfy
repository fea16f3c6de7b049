/** The navigation bar: logout, the search box, the cart badge and the
    admin menu. */
module Navbar {
  import opened Common
  import opened Strings
  import opened Query
  import Api
  import Session
  import CartStore
  import HomePage

  /** The outcome of `handleLogout`: the session afterwards, the requests
      sent in order, the toast and the navigation. */
  datatype LogoutRun = LogoutRun(auth: Session.AuthState, requests: seq<Api.Request>, notice: Notice, navigate: Url)

  /** `handleLogout`: with a truthy in-memory token, call the backend logout
      helper and swallow whatever it does; then log out of the session
      (which may notify the backend again), announce it and go to the login
      page. `ack` is what the helper produced; nothing reads it. */
  function HandleLogout(auth: Session.AuthState, ack: Reply<Api.LogoutAck<()>>): (r: LogoutRun)
    ensures Session.Anonymous(r.auth) && r.auth.storage == Session.Cleared
    ensures r.notice == Titled("You have been logged out.") && r.navigate == Url("/login", [])
    ensures |r.requests| == (if Present(auth.token) then 1 else 0) + (if Present(auth.storage.authToken) then 1 else 0)
    ensures Present(auth.token) ==> r.requests[0] == Api.LogoutUserApiRequest(auth.token.value)
    ensures Present(auth.storage.authToken) ==> r.requests[|r.requests| - 1] == Api.LogoutRequest(auth.storage.authToken.value)
    ensures forall i :: 0 <= i < |r.requests| ==> r.requests[i].url == Api.Path("/auth/logout")
  {
    var first := if Present(auth.token) then [Api.LogoutUserApiRequest(auth.token.value)] else [];
    var step := Session.Logout(auth);
    var second := if step.backendCall.Some? then [step.backendCall.value] else [];
    LogoutRun(step.state, first + second, Titled("You have been logged out."), Url("/login", []))
  }

  /** The helper's result, a resolution or a rejection, changes nothing:
      the call sits in a `try` whose `catch` is empty. In particular the
      helper as written, which rejects on an HTTP error, and the helper as
      intended lead to the same logout. */
  lemma LogoutIgnoresHelperResult(auth: Session.AuthState, a: Reply<Api.LogoutAck<()>>,
                                  b: Reply<Api.LogoutAck<()>>, o: Api.Outcome<()>)
    ensures HandleLogout(auth, a) == HandleLogout(auth, b)
    ensures HandleLogout(auth, Api.LogoutUserApiAsWritten(o)) == HandleLogout(auth, Api.LogoutUserApi(o))
  {
  }

  /** A signed-in session whose storage mirrors it posts to the logout
      endpoint twice with the same bearer token: first through the helper,
      which also declares a JSON body, then from the session's own logout,
      which does not. */
  lemma SignedInLogoutSendsTwice(s: Session.AuthState, t: string, u: Session.User, ack: Reply<Api.LogoutAck<()>>)
    requires t != ""
    ensures var r := HandleLogout(Session.Login(s, t, u), ack);
            r.requests == [Api.LogoutUserApiRequest(t), Api.LogoutRequest(t)]
            && r.requests[0].verb == r.requests[1].verb == Api.POST
            && Api.Authorization(r.requests[0]) == Api.Authorization(r.requests[1]) == Some("Bearer " + t)
            && Get(r.requests[0].headers, "Content-Type") == Some("application/json")
            && Get(r.requests[1].headers, "Content-Type").None?
  {
    var r := HandleLogout(Session.Login(s, t, u), ack);
    assert Get(r.requests[0].headers, "Authorization") == Some("Bearer " + t);
    assert Get(r.requests[1].headers, "Authorization") == Some("Bearer " + t);
  }

  /** The outcome of a key press in the search box: where the browser goes
      and what the box holds afterwards. */
  datatype SearchStep = SearchStep(navigate: Option<Url>, input: string)

  /** Where a submitted search goes: the home page with `q` set to the
      trimmed text and every other parameter kept. */
  function SearchTarget(input: string, params: Params): (u: Url)
    ensures u.path == "/" && Get(u.query, "q") == Some(Trim(input))
    ensures forall k :: k != "q" ==> Get(u.query, k) == Get(params, k)
    ensures Others(u.query, "q") == Others(params, "q")
  {
    Url("/", Set(params, "q", Trim(input)))
  }

  /** `handleSearchSubmit`: Enter with a non-blank box sets `q` to the
      trimmed text, keeping the other parameters, and clears the box; any
      other key, or a blank box, does nothing. */
  function HandleSearchSubmit(key: string, input: string, params: Params): (r: SearchStep)
    ensures r.navigate.Some? <==> key == "Enter" && !Blank(input)
    ensures r.navigate.None? ==> r.input == input
    ensures r.navigate.Some? ==> r.input == "" && r.navigate.value == SearchTarget(input, params)
  {
    TrimEmptyIffBlank(input);
    if key == "Enter" && Trim(input) != "" then SearchStep(Some(SearchTarget(input, params)), "")
    else SearchStep(None, input)
  }

  /** A submitted search carries a truthy `q` that is already trimmed. */
  lemma SubmittedQueryIsTrimmed(input: string, params: Params)
    requires !Blank(input)
    ensures HandleSearchSubmit("Enter", input, params).navigate == Some(SearchTarget(input, params))
    ensures Get(SearchTarget(input, params).query, "q") == Some(Trim(input)) && Trim(input) != ""
    ensures Trim(Trim(input)) == Trim(input)
  {
    TrimEmptyIffBlank(input);
    TrimIdempotent(input);
  }

  /** The query a submitted search produces: the trimmed, non-empty text
      as `q`, and `categoryId` as it was. */
  lemma SubmittedQuery(input: string, params: Params)
    requires !Blank(input)
    ensures var q := SearchTarget(input, params).query;
            Present(Get(q, "q")) && Get(q, "q").value == Trim(input)
            && Get(q, "categoryId") == Get(params, "categoryId")
  {
    TrimEmptyIffBlank(input);
  }

  /** A submitted search, with no category selected, makes the home page
      search for exactly the trimmed text and head the results with it. */
  lemma SearchReachesHomePage(input: string, params: Params, data: seq<HomePage.Product>,
                              categories: Reply<seq<HomePage.Category>>)
    requires !Blank(input)
    requires Get(params, "categoryId").None?
    ensures var run := HomePage.FetchProductsAndTitle(HomePage.Initial, SearchTarget(input, params).query, Ok(data), categories);
            run.requests == [Api.SearchProducts(Trim(input), None)]
            && run.state.title == "Search results for \"" + Trim(input) + "\""
  {
    SubmittedQuery(input, params);
    HomePage.SearchWithoutCategory(SearchTarget(input, params).query, data, categories);
  }

  /** What the bar shows: a loading placeholder, or the bar with its cart
      badge, the admin menu and the user menu or the sign-in links. */
  datatype NavView = NavLoading | NavBar(badge: Option<nat>, manageMenu: bool, userMenu: bool)

  function Render(isAuthLoading: bool, user: Option<Session.User>, itemCount: nat): (v: NavView)
    ensures v.NavLoading? <==> isAuthLoading
    ensures v.NavBar? ==> (v.badge.Some? <==> itemCount > 0) && (v.badge.Some? ==> v.badge.value == itemCount)
    ensures v.NavBar? ==> (v.userMenu <==> user.Some?) && (v.manageMenu <==> Session.IsAdmin(user))
  {
    if isAuthLoading then NavLoading
    else NavBar(if itemCount > 0 then Some(itemCount) else None, Session.IsAdmin(user), user.Some?)
  }

  /** Once loaded, the badge shows exactly when some cart line has a
      positive quantity, signed in or not; the admin menu only ever appears
      next to the user menu. */
  lemma BadgeAndMenus(user: Option<Session.User>, cart: Option<CartStore.Cart>)
    ensures var v := Render(false, user, CartStore.ItemCount(cart));
            (v.badge.Some? <==> cart.Some? && exists i :: 0 <= i < |cart.value.items| && cart.value.items[i].quantity > 0)
            && (v.manageMenu ==> v.userMenu)
  {
    CartStore.ItemCountZeroIff(cart);
  }
}
