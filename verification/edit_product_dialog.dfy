/** The edit-product dialog: prefilling the form from the product's
    details, and a submission that updates the product. */
module EditProductDialog {
  import opened Common
  import opened Strings
  import Api
  import ProductForm

  /** The product the dialog is opened for. */
  datatype ProductRef = ProductRef(id: int, name: string)

  datatype Category = Category(id: int, name: string)

  /** The product as the details endpoint returns it. */
  datatype ProductDetails = ProductDetails(name: string, description: string, price: int, stockQuantity: int,
                                           categoryId: int, imageUrl: Option<string>)

  /** The empty form; this dialog's form carries `imageUrl`. */
  const EmptyForm := ProductForm.FormData("", "", "", "", "", Some(""))

  datatype DialogState = DialogState(categories: seq<Category>, form: ProductForm.FormData,
                                     image: Option<Api.FileRef>, isLoading: bool, isDataLoading: bool)

  const Initial := DialogState([], EmptyForm, None, false, true)

  /** The form filled from the details: numbers in decimal, the image URL
      copied. */
  function Prefill(d: ProductDetails): (f: ProductForm.FormData)
    ensures ParseInt(f.price) == Some(d.price)
    ensures ParseInt(f.stockQuantity) == Some(d.stockQuantity)
    ensures ParseInt(f.categoryId) == Some(d.categoryId)
    ensures f.name == d.name && f.description == d.description && f.imageUrl == d.imageUrl
  {
    ParseIntOfIntToString(d.price);
    ParseIntOfIntToString(d.stockQuantity);
    ParseIntOfIntToString(d.categoryId);
    ProductForm.FormData(d.name, d.description, IntToString(d.price), IntToString(d.stockQuantity),
                         IntToString(d.categoryId), d.imageUrl)
  }

  datatype LoadStep = LoadStep(state: DialogState, requests: seq<Api.Request>, notice: Option<Notice>)

  /** `fetchInitialData`: only with a product and a token, fetch its
      details and the categories together; both must succeed to fill the
      form and the list, otherwise one error toast. Data loading ends only
      on this path: without a product or token the dialog stays loading. */
  function FetchInitialData(s: DialogState, product: Option<ProductRef>, token: Option<string>,
                            details: Reply<ProductDetails>, categories: Reply<seq<Category>>): (r: LoadStep)
    ensures product.None? || !Present(token) ==> r == LoadStep(s, [], None)
    ensures product.Some? && Present(token) ==>
      r.requests == [Api.GetProductById(IntToString(product.value.id)), Api.GetCategories()] && !r.state.isDataLoading
    ensures product.Some? && Present(token) && details.Ok? && categories.Ok? ==>
      r.state.form == Prefill(details.value) && r.state.categories == categories.value && r.notice.None?
    ensures product.Some? && Present(token) && !(details.Ok? && categories.Ok?) ==>
      r.state.form == s.form && r.state.categories == s.categories
      && r.notice == Some(Failure("Failed to fetch data for editing."))
  {
    if product.None? || !Present(token) then LoadStep(s, [], None)
    else
      var requests := [Api.GetProductById(IntToString(product.value.id)), Api.GetCategories()];
      if details.Ok? && categories.Ok? then
        LoadStep(s.(categories := categories.value, form := Prefill(details.value), isDataLoading := false), requests, None)
      else
        LoadStep(s.(isDataLoading := false), requests, Some(Failure("Failed to fetch data for editing.")))
  }

  datatype SubmitStep = SubmitStep(state: DialogState, request: Option<Api.Request>, notice: Notice, productUpdated: bool)

  /** `handleSubmit`: the guard stops a submission without a product, a
      category or a token. Otherwise the form is sent as multipart to the
      product's id; success announces it and tells the page, without
      resetting the form; failure reports the message. */
  function Submit(s: DialogState, product: Option<ProductRef>, token: Option<string>, reply: Reply<()>): (r: SubmitStep)
    ensures product.None? || !Truthy(s.form.categoryId) || !Present(token) ==>
      r.state == s && r.request.None? && !r.productUpdated
      && r.notice == Failure(ProductForm.GuardMessage(product.Some?, s.form, token).value)
    ensures product.Some? && Truthy(s.form.categoryId) && Present(token) ==>
      r.request == Some(Api.UpdateProduct(product.value.id, ProductForm.Payload(s.form, s.image), token.value))
      && r.state.form == s.form && !r.state.isLoading
    ensures product.Some? && Truthy(s.form.categoryId) && Present(token) && reply.Ok? ==>
      r.notice == Success("Product updated successfully!") && r.productUpdated
    ensures product.Some? && Truthy(s.form.categoryId) && Present(token) && reply.Err? ==>
      r.notice == Failure(Or(reply.message, "Failed to update product.")) && !r.productUpdated
  {
    var guard := ProductForm.GuardMessage(product.Some?, s.form, token);
    if guard.Some? then SubmitStep(s, None, Failure(guard.value), false)
    else
      var request := Some(Api.UpdateProduct(product.value.id, ProductForm.Payload(s.form, s.image), token.value));
      match reply
      case Ok(_) => SubmitStep(s.(isLoading := false), request, Success("Product updated successfully!"), true)
      case Err(m) => SubmitStep(s.(isLoading := false), request, Failure(Or(m, "Failed to update product.")), false)
  }

  /** Saving the prefilled form unchanged sends that form, without its
      image URL. */
  lemma UnchangedSaveSendsForm(p: ProductRef, token: string, d: ProductDetails, cats: seq<Category>)
    requires token != ""
    ensures var loaded := FetchInitialData(Initial, Some(p), Some(token), Ok(d), Ok(cats)).state;
            var r := Submit(loaded, Some(p), Some(token), Ok(()));
            r.request.Some? && r.request.value.body.Multipart?
            && ProductForm.Decode(r.request.value.body.entries).0 == Prefill(d).(imageUrl := None)
  {
    var f := Prefill(d);
    assert f.categoryId != "";
    var loaded := FetchInitialData(Initial, Some(p), Some(token), Ok(d), Ok(cats)).state;
    assert loaded.form == f && loaded.image.None?;
    var r := Submit(loaded, Some(p), Some(token), Ok(()));
    assert r.request == Some(Api.UpdateProduct(p.id, ProductForm.Payload(f, None), token));
    ProductForm.PayloadRoundTrip(f, None);
  }

  /** Opening the dialog and saving without changes sends the product's
      own values back: the numbers parse to what was loaded, and only the
      image URL is not sent. */
  lemma UnchangedSaveSendsLoadedValues(p: ProductRef, token: string, d: ProductDetails, cats: seq<Category>)
    requires token != ""
    ensures var loaded := FetchInitialData(Initial, Some(p), Some(token), Ok(d), Ok(cats)).state;
            var r := Submit(loaded, Some(p), Some(token), Ok(()));
            r.request.Some? && r.request.value.body.Multipart?
            && var sent := ProductForm.Decode(r.request.value.body.entries).0;
               sent.name == d.name && sent.description == d.description
               && ParseInt(sent.price) == Some(d.price) && ParseInt(sent.stockQuantity) == Some(d.stockQuantity)
               && ParseInt(sent.categoryId) == Some(d.categoryId) && sent.imageUrl.None?
  {
    UnchangedSaveSendsForm(p, token, d, cats);
  }

  /** With a token and a category but no product, the guard blames the
      category. */
  lemma MissingProductBlamesCategory(s: DialogState, token: string)
    requires token != "" && s.form.categoryId != ""
    ensures Submit(s, None, Some(token), Ok(())).notice == Failure("Please select a category.")
  {
  }
}
