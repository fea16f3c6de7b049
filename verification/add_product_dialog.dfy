/** The add-product dialog: its category list, and a submission that
    creates the product and resets the form. */
module AddProductDialog {
  import opened Common
  import Api
  import ProductForm

  datatype Category = Category(id: string, name: string)

  /** The empty form; this dialog's form has no `imageUrl`. */
  const EmptyForm := ProductForm.FormData("", "", "", "", "", None)

  datatype DialogState = DialogState(categories: seq<Category>, form: ProductForm.FormData,
                                     image: Option<Api.FileRef>, isLoading: bool, isCategoriesLoading: bool)

  const Initial := DialogState([], EmptyForm, None, false, true)

  /** The category fetch on mount: the list on success, an error toast on
      failure; the category select is enabled either way. */
  function LoadCategories(s: DialogState, reply: Reply<seq<Category>>): (r: (DialogState, Option<Notice>))
    ensures !r.0.isCategoriesLoading && r.0.form == s.form && r.0.image == s.image
    ensures reply.Ok? ==> r.0.categories == reply.value && r.1.None?
    ensures reply.Err? ==> r.0.categories == s.categories && r.1 == Some(Failure("Failed to fetch categories."))
  {
    match reply
    case Ok(data) => (s.(categories := data, isCategoriesLoading := false), None)
    case Err(_) => (s.(isCategoriesLoading := false), Some(Failure("Failed to fetch categories.")))
  }

  datatype SubmitStep = SubmitStep(state: DialogState, request: Option<Api.Request>, notice: Notice, productAdded: bool)

  /** `handleSubmit`: the guard stops a submission without a category or a
      token. Otherwise the form is sent as multipart; success announces it,
      tells the page, and resets the form and the file; failure reports the
      message and keeps what was typed. */
  function Submit(s: DialogState, token: Option<string>, reply: Reply<()>): (r: SubmitStep)
    ensures !Truthy(s.form.categoryId) || !Present(token) ==>
      r.state == s && r.request.None? && !r.productAdded
      && r.notice == Failure(ProductForm.GuardMessage(true, s.form, token).value)
    ensures Truthy(s.form.categoryId) && Present(token) ==>
      r.request == Some(Api.CreateProduct(ProductForm.Payload(s.form, s.image), token.value)) && !r.state.isLoading
    ensures Truthy(s.form.categoryId) && Present(token) && reply.Ok? ==>
      r.notice == Success("Product added successfully!") && r.productAdded
      && r.state.form == EmptyForm && r.state.image.None?
    ensures Truthy(s.form.categoryId) && Present(token) && reply.Err? ==>
      r.notice == Failure(Or(reply.message, "Failed to add product.")) && !r.productAdded
      && r.state.form == s.form && r.state.image == s.image
  {
    var guard := ProductForm.GuardMessage(true, s.form, token);
    if guard.Some? then SubmitStep(s, None, Failure(guard.value), false)
    else
      var request := Some(Api.CreateProduct(ProductForm.Payload(s.form, s.image), token.value));
      match reply
      case Ok(_) => SubmitStep(s.(form := EmptyForm, image := None, isLoading := false), request,
                               Success("Product added successfully!"), true)
      case Err(m) => SubmitStep(s.(isLoading := false), request, Failure(Or(m, "Failed to add product.")), false)
  }

  /** Filling in the form and submitting sends exactly what was typed, and
      after success the dialog is ready for the next product. */
  lemma FilledFormIsSent(name: string, description: string, price: string, stock: string, category: string,
                         token: string, file: Api.FileRef)
    requires category != "" && token != ""
    ensures var f0 := ProductForm.HandleChange(EmptyForm, ProductForm.NameField, name);
            var f1 := ProductForm.HandleChange(f0, ProductForm.DescriptionField, description);
            var f2 := ProductForm.HandleChange(f1, ProductForm.PriceField, price);
            var f3 := ProductForm.HandleChange(f2, ProductForm.StockField, stock);
            var f4 := ProductForm.HandleCategoryChange(f3, category);
            var s := Initial.(form := f4, image := ProductForm.HandleFileChange(None, [file]));
            var r := Submit(s, Some(token), Ok(()));
            r.request.Some? && r.request.value.body.Multipart?
            && ProductForm.Decode(r.request.value.body.entries)
               == (ProductForm.FormData(name, description, price, stock, category, None), Some(file))
            && r.state.form == Initial.form && r.state.image == Initial.image
  {
    var f0 := ProductForm.HandleChange(EmptyForm, ProductForm.NameField, name);
    var f1 := ProductForm.HandleChange(f0, ProductForm.DescriptionField, description);
    var f2 := ProductForm.HandleChange(f1, ProductForm.PriceField, price);
    var f3 := ProductForm.HandleChange(f2, ProductForm.StockField, stock);
    var f4 := ProductForm.HandleCategoryChange(f3, category);
    assert f4 == ProductForm.FormData(name, description, price, stock, category, None);
    ProductForm.PayloadRoundTrip(f4, Some(file));
  }
}
