/** The admin category list: the shared admin list with string category
    ids, the category endpoints and the category wording. */
module AdminCategories {
  import opened Common
  import Api
  import Session
  import AdminList

  datatype Category = Category(id: string, name: string)

  const Words := AdminList.Wording("category", "Category", "categories")

  function IdOf(c: Category): string { c.id }

  function NameOf(c: Category): string { c.name }

  /** The list is fetched with the category listing, for an admin only. */
  function FetchCategories(user: Option<Session.User>): (r: Option<Api.Request>)
    ensures r.Some? <==> Session.IsAdmin(user)
    ensures r.Some? ==> r.value.url == Api.Path("/categories")
  {
    AdminList.FetchRequest(user, Api.GetCategories())
  }

  /** The confirmed delete of the pending category, by its string id. */
  function DeleteConfirm(s: AdminList.ListPage<Category>, token: Option<string>, reply: Reply<()>): (r: AdminList.DeleteStep<Category>)
    ensures s.toDelete.None? || !Present(token) ==>
      r.state == s && r.request.None? && r.notice == Failure("Cannot delete category. Missing information.")
    ensures s.toDelete.Some? && Present(token) ==>
      r.request == Some(Api.DeleteCategory(s.toDelete.value.id, token.value)) && r.state.toDelete.None?
    ensures s.toDelete.Some? && Present(token) && reply.Ok? ==>
      r.notice == Success("Category \"" + s.toDelete.value.name + "\" deleted successfully.")
      && r.state.items == AdminList.RemoveId(s.items, IdOf, s.toDelete.value.id)
    ensures s.toDelete.Some? && Present(token) && reply.Err? ==>
      r.state.items == s.items && r.notice == Failure(Or(reply.message, "Failed to delete category."))
  {
    assert AdminList.MissingMessage(Words) == "Cannot delete category. Missing information.";
    AdminList.DeleteConfirm(s, token, IdOf, NameOf, (id, t) => Api.DeleteCategory(id, t), Words, reply)
  }

  /** A delete whose server reply carries only `Message` shows the generic
      status-text message, not the server's explanation. */
  lemma DeleteFailureWording(s: AdminList.ListPage<Category>, c: Category, token: string)
    requires token != ""
    ensures var o: Api.Outcome<()> := Api.Delivered(Api.NotOk(409, "Conflict", Api.ErrorFields(Some("Category has products."), None)));
            DeleteConfirm(AdminList.DeleteClick(s, c), Some(token), Api.DeleteCall(o)).notice
            == Failure("API Error: Conflict")
  {
  }
}
