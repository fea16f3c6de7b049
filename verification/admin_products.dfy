/** The admin product list: the shared admin list with numeric product
    ids, the product endpoints and the product wording. */
module AdminProducts {
  import opened Common
  import Api
  import Session
  import AdminList

  datatype Product = Product(id: int, name: string, price: int, stockQuantity: int, categoryName: string,
                             imageUrl: Option<string>)

  const Words := AdminList.Wording("product", "Product", "products")

  function IdOf(p: Product): int { p.id }

  function NameOf(p: Product): string { p.name }

  /** The list is fetched with the unfiltered product listing, for an
      admin only. */
  function FetchProducts(user: Option<Session.User>): (r: Option<Api.Request>)
    ensures r.Some? <==> Session.IsAdmin(user)
    ensures r.Some? ==> r.value.url == Api.Path("/products")
  {
    AdminList.FetchRequest(user, Api.GetProducts(None))
  }

  /** The confirmed delete of the pending product, by its numeric id. */
  function DeleteConfirm(s: AdminList.ListPage<Product>, token: Option<string>, reply: Reply<()>): (r: AdminList.DeleteStep<Product>)
    ensures s.toDelete.None? || !Present(token) ==>
      r.state == s && r.request.None? && r.notice == Failure("Cannot delete product. Missing information.")
    ensures s.toDelete.Some? && Present(token) ==>
      r.request == Some(Api.DeleteProduct(s.toDelete.value.id, token.value)) && r.state.toDelete.None?
    ensures s.toDelete.Some? && Present(token) && reply.Ok? ==>
      r.notice == Success("Product \"" + s.toDelete.value.name + "\" deleted successfully.")
      && r.state.items == AdminList.RemoveId(s.items, IdOf, s.toDelete.value.id)
    ensures s.toDelete.Some? && Present(token) && reply.Err? ==>
      r.state.items == s.items && r.notice == Failure(Or(reply.message, "Failed to delete product."))
  {
    assert AdminList.MissingMessage(Words) == "Cannot delete product. Missing information.";
    AdminList.DeleteConfirm(s, token, IdOf, NameOf, (id, t) => Api.DeleteProduct(id, t), Words, reply)
  }

  /** Without a token the confirmation reports missing information but
      leaves the product pending, so the next confirmation with a token
      deletes it. */
  lemma PendingSurvivesMissingToken(s: AdminList.ListPage<Product>, p: Product, token: string)
    requires token != ""
    ensures var pending := AdminList.DeleteClick(s, p);
            var first := DeleteConfirm(pending, None, Ok(()));
            first.state.toDelete == Some(p)
            && DeleteConfirm(first.state, Some(token), Ok(())).request == Some(Api.DeleteProduct(p.id, token))
  {
  }
}
