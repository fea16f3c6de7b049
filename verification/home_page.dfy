/** The storefront home page: the product fetch driven by the `q` and
    `categoryId` query parameters, the heading it computes, category
    selection, and the add-to-cart button. */
module HomePage {
  import opened Common
  import opened Strings
  import opened Query
  import Api
  import CartStore

  datatype Product = Product(id: int, name: string, description: string, price: int, stockQuantity: int,
                             imageUrl: Option<string>, categoryId: int, categoryName: string)

  datatype Category = Category(id: int, name: string)

  /** `categories.find(c => c.id === parseInt(categoryId))`: the first
      category with that id; a NaN id matches nothing. */
  function FindCategory(categories: seq<Category>, id: Option<int>): (r: Option<Category>)
    ensures id.None? ==> r.None?
    ensures r.None? && id.Some? ==> forall i :: 0 <= i < |categories| ==> categories[i].id != id.value
    ensures r.Some? ==> exists i :: 0 <= i < |categories| && categories[i] == r.value && r.value.id == id.value
                                    && forall j :: 0 <= j < i ==> categories[j].id != id.value
  {
    if id.None? || |categories| == 0 then None
    else if categories[0].id == id.value then Some(categories[0])
    else
      var rest := FindCategory(categories[1..], id);
      if rest.Some? then
        var i :| 0 <= i < |categories[1..]| && categories[1..][i] == rest.value && rest.value.id == id.value
                 && forall j :: 0 <= j < i ==> categories[1..][j].id != id.value;
        assert categories[i + 1] == rest.value;
        rest
      else rest
  }

  /** The heading: "Our Products", or the search heading when `q` is
      truthy; a found category either extends the search heading or
      replaces the default one. */
  function PageTitle(q: Option<string>, category: Option<Category>): string {
    var base := if Present(q) then "Search results for \"" + q.value + "\"" else "Our Products";
    if category.None? then base
    else if Present(q) then base + " in " + category.value.name
    else "Products in " + category.value.name
  }

  /** The four headings. */
  lemma PageTitleCases(q: string, c: Category)
    ensures PageTitle(None, None) == PageTitle(Some(""), None) == "Our Products"
    ensures q != "" ==> PageTitle(Some(q), None) == "Search results for \"" + q + "\""
    ensures PageTitle(None, Some(c)) == PageTitle(Some(""), Some(c)) == "Products in " + c.name
    ensures q != "" ==> PageTitle(Some(q), Some(c)) == "Search results for \"" + q + "\" in " + c.name
  {
  }

  /** The product request: a search when `q` is truthy (with the category
      passed along), else the category listing. */
  function ProductsRequest(q: Option<string>, categoryId: Option<string>): (r: Api.Request)
    ensures Present(q) ==> r == Api.SearchProducts(q.value, categoryId)
    ensures !Present(q) ==> r == Api.GetProducts(categoryId)
  {
    if Present(q) then Api.SearchProducts(q.value, categoryId) else Api.GetProducts(categoryId)
  }

  datatype HomeState = HomeState(products: seq<Product>, isLoading: bool, error: Option<string>, title: string)

  const Initial := HomeState([], true, None, "Our Products")

  /** One run of the fetch effect and the requests it sent, in order. */
  datatype FetchRun = FetchRun(state: HomeState, requests: seq<Api.Request>)

  /** `fetchProductsAndTitle` for the current query parameters: the product
      request first; then, only after it succeeded and when `categoryId` is
      truthy, the category list to name the heading. A failure of either
      empties the list and records the message; the heading then stays as
      it was. */
  function FetchProductsAndTitle(s: HomeState, params: Params, products: Reply<seq<Product>>,
                                 categories: Reply<seq<Category>>): (r: FetchRun)
    ensures !r.state.isLoading
    ensures |r.requests| >= 1 && r.requests[0] == ProductsRequest(Get(params, "q"), Get(params, "categoryId"))
    ensures |r.requests| == 2 <==> products.Ok? && Present(Get(params, "categoryId"))
    ensures |r.requests| == 2 ==> r.requests[1] == Api.GetCategories()
    ensures r.state.error.None? <==> products.Ok? && (!Present(Get(params, "categoryId")) || categories.Ok?)
    ensures r.state.error.None? ==> r.state.products == products.value
    ensures r.state.error.None? && !Present(Get(params, "categoryId")) ==> r.state.title == PageTitle(Get(params, "q"), None)
    ensures r.state.error.None? && Present(Get(params, "categoryId")) ==>
      r.state.title == PageTitle(Get(params, "q"), FindCategory(categories.value, ParseIntAuto(Get(params, "categoryId").value)))
    ensures r.state.error.Some? ==> r.state.products == [] && r.state.title == s.title && Truthy(r.state.error.value)
  {
    var q := Get(params, "q");
    var categoryId := Get(params, "categoryId");
    var first := ProductsRequest(q, categoryId);
    match products
    case Err(m) => FetchRun(HomeState([], false, Some(Or(m, "Failed to fetch products.")), s.title), [first])
    case Ok(data) =>
      if !Present(categoryId) then FetchRun(HomeState(data, false, None, PageTitle(q, None)), [first])
      else
        var requests := [first, Api.GetCategories()];
        match categories
        case Err(m) => FetchRun(HomeState([], false, Some(Or(m, "Failed to fetch products.")), s.title), requests)
        case Ok(cats) =>
          var found := FindCategory(cats, ParseIntAuto(categoryId.value));
          FetchRun(HomeState(data, false, None, PageTitle(q, found)), requests)
  }

  /** A search without a category sends one search request and heads the
      results with the search text. */
  lemma SearchWithoutCategory(params: Params, data: seq<Product>, categories: Reply<seq<Category>>)
    requires Present(Get(params, "q")) && Get(params, "categoryId").None?
    ensures var run := FetchProductsAndTitle(Initial, params, Ok(data), categories);
            run.requests == [Api.SearchProducts(Get(params, "q").value, None)]
            && run.state.title == "Search results for \"" + Get(params, "q").value + "\""
            && run.state.products == data
  {
  }

  /** The `selectedCategoryId` the category list receives: null, NaN, or
      a number. */
  datatype Selection = All | NotANumber | Selected(id: int)

  /** `categoryId ? parseInt(categoryId, 10) : null`. */
  function SelectedCategoryId(params: Params): Selection {
    var c := Get(params, "categoryId");
    if !Present(c) then All
    else match ParseInt(c.value)
      case None => NotANumber
      case Some(i) => Selected(i)
  }

  /** The "All" button is highlighted when the selection is `=== null`. */
  predicate AllHighlighted(sel: Selection) {
    sel.All?
  }

  /** A category's button is highlighted when the selection `===` its id;
      NaN equals no id. */
  predicate CategoryHighlighted(sel: Selection, id: int) {
    sel.Selected? && sel.id == id
  }

  // ---------------------------------------------------------------------
  // The category list component
  // ---------------------------------------------------------------------

  /** The category list's own state: it fetches the categories itself,
      once, when mounted. */
  datatype CategoryListState = CategoryListState(categories: seq<Category>, isLoading: bool, error: Option<string>)

  const CategoryListInitial := CategoryListState([], true, None)

  /** Completion of the list's fetch: the categories on success, the
      message or "Failed to fetch categories." on failure; loading ends
      either way. */
  function FinishCategoryFetch(s: CategoryListState, reply: Reply<seq<Category>>): (r: CategoryListState)
    ensures !r.isLoading
    ensures reply.Ok? ==> r.categories == reply.value && r.error == s.error
    ensures reply.Err? ==>
      r.categories == s.categories && r.error == Some(Or(reply.message, "Failed to fetch categories."))
      && Truthy(r.error.value)
  {
    match reply
    case Ok(data) => s.(categories := data, isLoading := false)
    case Err(m) => s.(error := Some(Or(m, "Failed to fetch categories.")), isLoading := false)
  }

  /** A button of the list: its caption and whether it shows as selected. */
  datatype Button = Button(caption: string, selected: bool)

  datatype CategoryListView =
    | CategoriesLoading
    | CategoriesError(message: string)
    | Buttons(all: Button, categories: seq<Button>)

  /** What the list shows: a loading line, then a truthy error, else the
      "All" button followed by one button per category in order, each
      highlighted by the selection rule. */
  function RenderCategoryList(s: CategoryListState, sel: Selection): (v: CategoryListView)
    ensures v.CategoriesLoading? <==> s.isLoading
    ensures v.CategoriesError? <==> !s.isLoading && s.error.Some? && Truthy(s.error.value)
    ensures v.CategoriesError? ==> v.message == s.error.value
    ensures v.Buttons? ==>
      v.all == Button("All", AllHighlighted(sel)) && |v.categories| == |s.categories|
      && forall i :: 0 <= i < |v.categories| ==>
           v.categories[i] == Button(s.categories[i].name, CategoryHighlighted(sel, s.categories[i].id))
  {
    if s.isLoading then CategoriesLoading
    else if s.error.Some? && Truthy(s.error.value) then CategoriesError(s.error.value)
    else
      Buttons(Button("All", AllHighlighted(sel)),
              seq(|s.categories|, i requires 0 <= i < |s.categories| =>
                Button(s.categories[i].name, CategoryHighlighted(sel, s.categories[i].id))))
  }

  /** After the mount fetch the list shows the error exactly when the fetch
      failed, and otherwise one button per fetched category. */
  lemma MountedListShowsFetch(reply: Reply<seq<Category>>, sel: Selection)
    ensures var v := RenderCategoryList(FinishCategoryFetch(CategoryListInitial, reply), sel);
            (v.CategoriesError? <==> reply.Err?)
            && (reply.Err? ==> v.message == Or(reply.message, "Failed to fetch categories."))
            && (reply.Ok? ==> v.Buttons? && |v.categories| == |reply.value|)
  {
  }

  /** In a shown list "All" and a category are never selected together, a
      NaN selection selects nothing, and a numeric selection selects some
      button exactly when a listed category has that id. */
  lemma SelectedButtons(s: CategoryListState, sel: Selection)
    requires RenderCategoryList(s, sel).Buttons?
    ensures var v := RenderCategoryList(s, sel);
            (v.all.selected ==> forall i :: 0 <= i < |v.categories| ==> !v.categories[i].selected)
            && (sel.NotANumber? ==> !v.all.selected && forall i :: 0 <= i < |v.categories| ==> !v.categories[i].selected)
            && (sel.Selected? ==>
                  ((exists i :: 0 <= i < |v.categories| && v.categories[i].selected)
                   <==> exists i :: 0 <= i < |s.categories| && s.categories[i].id == sel.id))
  {
    var v := RenderCategoryList(s, sel);
    if sel.Selected? {
      if i :| 0 <= i < |s.categories| && s.categories[i].id == sel.id {
        assert v.categories[i].selected;
      }
    }
  }

  /** The highlight the list shows for the current parameters: "All"
      exactly when `categoryId` is absent or empty; one id exactly when it
      parses to that id; nothing at all when it does not parse. */
  lemma HighlightOfParams(params: Params)
    ensures var sel := SelectedCategoryId(params);
            var c := Get(params, "categoryId");
            (AllHighlighted(sel) <==> !Present(c))
            && (forall id :: CategoryHighlighted(sel, id) <==> Present(c) && ParseInt(c.value) == Some(id))
            && (Present(c) && ParseInt(c.value).None? ==>
                  !AllHighlighted(sel) && forall id :: !CategoryHighlighted(sel, id))
            && !(AllHighlighted(sel) && exists id :: CategoryHighlighted(sel, id))
  {
  }

  /** A non-numeric `categoryId` highlights neither "All" nor any category,
      unlike an absent one. */
  lemma NonNumericHighlightsNothing(id: int)
    ensures var sel := SelectedCategoryId([("categoryId", "abc")]);
            !AllHighlighted(sel) && !CategoryHighlighted(sel, id)
    ensures AllHighlighted(SelectedCategoryId([]))
  {
    var params := [("categoryId", "abc")];
    assert Get(params, "categoryId") == Some("abc");
    assert TrimStart("abc") == "abc";
    assert SignSplit("abc") == (1, "abc");
    assert LeadingDigits("abc") == "";
  }

  /** `handleSelectCategory`: set or remove `categoryId`; every other name
      reads as before and keeps its pairs in order. */
  function SelectCategory(params: Params, selected: Option<int>): (u: Url)
    ensures u.path == "/"
    ensures forall k :: k != "categoryId" ==> Get(u.query, k) == Get(params, k)
    ensures Others(u.query, "categoryId") == Others(params, "categoryId")
  {
    if selected.Some? then Url("/", Set(params, "categoryId", IntToString(selected.value)))
    else
      OthersOfAbsent(Delete(params, "categoryId"), "categoryId");
      Url("/", Delete(params, "categoryId"))
  }

  /** Selecting a category, or none, is what the category list then
      highlights: that category's button, or "All". */
  lemma SelectCategoryRoundTrip(params: Params, selected: Option<int>)
    ensures SelectedCategoryId(SelectCategory(params, selected).query)
            == (if selected.Some? then Selected(selected.value) else All)
  {
    if selected.Some? {
      ParseIntOfIntToString(selected.value);
    }
  }

  /** After selecting a category that the category list contains, with no
      search active, the heading names that category. */
  lemma SelectedCategoryNamesHeading(params: Params, id: int, categories: seq<Category>, data: seq<Product>)
    requires Get(params, "q").None?
    requires exists i :: 0 <= i < |categories| && categories[i].id == id
    ensures var run := FetchProductsAndTitle(Initial, SelectCategory(params, Some(id)).query, Ok(data), Ok(categories));
            var found := FindCategory(categories, Some(id));
            found.Some? && found.value.id == id && run.state.title == "Products in " + found.value.name
  {
    var p := SelectCategory(params, Some(id)).query;
    ParseIntAutoOfIntToString(id);
    assert Get(p, "categoryId") == Some(IntToString(id));
    assert Get(p, "q") == Get(params, "q");
  }

  /** The heading and the category list read `categoryId` with different
      radixes: for "0x1A" the heading looks up category 26 while the list
      highlights category 0. */
  lemma HeadingAndHighlightCanDisagree(data: seq<Product>, categories: seq<Category>)
    ensures var params := [("categoryId", "0x1A")];
            var run := FetchProductsAndTitle(Initial, params, Ok(data), Ok(categories));
            SelectedCategoryId(params) == Selected(0)
            && run.state.title == PageTitle(None, FindCategory(categories, Some(26)))
  {
    var params := [("categoryId", "0x1A")];
    assert Get(params, "categoryId") == Some("0x1A");
    assert Get(params, "q") == None;
    RadixMatters();
  }

  /** `handleAddToCart`: one unit of the product, its id sent as a decimal
      string. */
  function HandleAddToCart(s: CartStore.CartState, productId: int, token: Option<string>,
                           reply: Reply<CartStore.Cart>): (r: CartStore.CartStep)
    ensures r.request == Api.AddItemToCart(IntToString(productId), 1, token)
    ensures ParseInt(r.request.body.fields[0].1.s) == Some(productId)
    ensures reply.Ok? ==> r.state.cart == Some(reply.value)
    ensures reply.Err? ==> r.state == s
  {
    ParseIntOfIntToString(productId);
    CartStore.AddToCart(s, IntToString(productId), 1, token, reply)
  }

  datatype AddButton = AddButton(disabled: bool, caption: string)

  /** The add-to-cart button: disabled while the cart is busy or the
      product's stock is exactly zero. */
  function AddToCartButton(isCartLoading: bool, stockQuantity: int): (b: AddButton)
    ensures b.disabled <==> isCartLoading || stockQuantity == 0
    ensures b.caption == "Adding..." <==> isCartLoading
    ensures !b.disabled ==> b.caption == "Add to Cart"
    ensures !isCartLoading && stockQuantity == 0 ==> b.caption == "Out of Stock"
  {
    AddButton(isCartLoading || stockQuantity == 0,
              if isCartLoading then "Adding..." else if stockQuantity == 0 then "Out of Stock" else "Add to Cart")
  }

  /** The stock test is an equality, so a negative stock still offers the
      product. */
  lemma NegativeStockIsOffered()
    ensures !AddToCartButton(false, -1).disabled
  {
  }
}
