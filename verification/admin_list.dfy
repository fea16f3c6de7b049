/** The shape shared by the admin product and category pages: an
    admin-only list with add and edit dialogs and a confirmed delete. The
    two pages differ only in the item type, the id type, the request and
    the wording, which are parameters here. */
module AdminList {
  import opened Common
  import opened Query
  import Api
  import Session

  /** The page state. `selected` is the item being edited; `toDelete` the
      one awaiting confirmation. */
  datatype ListPage<T> = ListPage(items: seq<T>, isLoading: bool, error: Option<string>,
                                  addOpen: bool, editOpen: bool, selected: Option<T>,
                                  toDelete: Option<T>, isDeleting: bool)

  /** The page as mounted: loading, empty, no dialog open. */
  function Initial<T>(): ListPage<T> {
    ListPage([], true, None, false, false, None, None, false)
  }

  // ---------------------------------------------------------------------
  // Access
  // ---------------------------------------------------------------------

  /** The redirect effect: once auth has loaded, anyone but an admin is
      sent home. */
  function RedirectTarget(isAuthLoading: bool, user: Option<Session.User>): (u: Option<Url>)
    ensures u.Some? <==> !isAuthLoading && !Session.IsAdmin(user)
    ensures u.Some? ==> u.value == Url("/", [])
  {
    if !isAuthLoading && !Session.IsAdmin(user) then Some(Url("/", [])) else None
  }

  /** The list itself is rendered only for an admin once auth has loaded;
      everyone else sees the placeholder. */
  predicate ShowsList(isAuthLoading: bool, user: Option<Session.User>) {
    !isAuthLoading && Session.IsAdmin(user)
  }

  /** The fetch is gated on the user alone, not on the loading flag or the
      token. */
  function FetchRequest(user: Option<Session.User>, request: Api.Request): (r: Option<Api.Request>)
    ensures r.Some? <==> Session.IsAdmin(user)
    ensures r.Some? ==> r.value == request
  {
    if Session.IsAdmin(user) then Some(request) else None
  }

  /** Once auth has loaded, exactly one of three things holds: the list is
      shown, or the visitor is redirected; and the list is fetched exactly
      for the users who may see it. */
  lemma AccessIsConsistent(isAuthLoading: bool, user: Option<Session.User>, request: Api.Request)
    ensures !isAuthLoading ==> (ShowsList(isAuthLoading, user) <==> RedirectTarget(isAuthLoading, user).None?)
    ensures ShowsList(isAuthLoading, user) ==> FetchRequest(user, request) == Some(request)
    ensures RedirectTarget(isAuthLoading, user).Some? ==> FetchRequest(user, request).None?
  {
  }

  /** The wording of one page: the noun in lower and capitalised form, and
      its plural. */
  datatype Wording = Wording(noun: string, title: string, plural: string)

  function FetchFailedMessage(w: Wording): string {
    "Failed to fetch " + w.plural + "."
  }

  /** Fetch completion: success replaces the list, failure records the
      message, or the page's fetch fallback when it is empty; loading ends
      either way. */
  function FinishFetch<T>(s: ListPage<T>, reply: Reply<seq<T>>, w: Wording): (r: ListPage<T>)
    ensures !r.isLoading
    ensures r.(items := s.items, error := s.error, isLoading := s.isLoading) == s
    ensures reply.Ok? ==> r.items == reply.value && r.error == s.error
    ensures reply.Err? ==> r.items == s.items && r.error == Some(Or(reply.message, FetchFailedMessage(w)))
    ensures reply.Err? ==> Truthy(r.error.value)
  {
    match reply
    case Ok(data) => s.(items := data, isLoading := false)
    case Err(m) => s.(error := Some(Or(m, FetchFailedMessage(w))), isLoading := false)
  }

  // ---------------------------------------------------------------------
  // Dialog callbacks
  // ---------------------------------------------------------------------

  /** The add dialog reported success: close it and refetch. */
  function Added<T>(s: ListPage<T>, user: Option<Session.User>, request: Api.Request): (ListPage<T>, Option<Api.Request>) {
    (s.(addOpen := false), FetchRequest(user, request))
  }

  /** The edit dialog reported success: close it, forget the selection and
      refetch. */
  function Updated<T>(s: ListPage<T>, user: Option<Session.User>, request: Api.Request): (ListPage<T>, Option<Api.Request>) {
    (s.(editOpen := false, selected := None), FetchRequest(user, request))
  }

  function OpenAdd<T>(s: ListPage<T>): ListPage<T> {
    s.(addOpen := true)
  }

  function EditClick<T>(s: ListPage<T>, item: T): ListPage<T> {
    s.(selected := Some(item), editOpen := true)
  }

  function DeleteClick<T>(s: ListPage<T>, item: T): ListPage<T> {
    s.(toDelete := Some(item))
  }

  /** Opening a dialog and having it report success returns the page to
      where it was, dialogs closed, with a refetch for an admin; a pending
      delete and the list are untouched. */
  lemma DialogRoundTrips<T>(s: ListPage<T>, item: T, user: Option<Session.User>, request: Api.Request)
    requires !s.addOpen && !s.editOpen && s.selected.None?
    ensures Added(OpenAdd(s), user, request).0 == s
    ensures Updated(EditClick(s, item), user, request).0 == s
    ensures EditClick(s, item).selected == Some(item) && EditClick(s, item).editOpen
    ensures Updated(EditClick(s, item), user, request).1.Some? <==> Session.IsAdmin(user)
    ensures DeleteClick(s, item).toDelete == Some(item) && DeleteClick(s, item).items == s.items
  {
  }

  // ---------------------------------------------------------------------
  // Removing an item by id
  // ---------------------------------------------------------------------

  /** `items.filter(x => x.id !== id)`. */
  function RemoveId<T, I(==)>(items: seq<T>, idOf: T -> I, id: I): (r: seq<T>)
    ensures |r| <= |items|
    ensures forall i :: 0 <= i < |r| ==> idOf(r[i]) != id
    ensures forall i :: 0 <= i < |r| ==> r[i] in items
    ensures forall i :: 0 <= i < |items| && idOf(items[i]) != id ==> items[i] in r
  {
    if |items| == 0 then []
    else if idOf(items[0]) == id then RemoveId(items[1..], idOf, id)
    else [items[0]] + RemoveId(items[1..], idOf, id)
  }

  /** Removing shrinks the list exactly when some item had the id;
      removing twice is removing once. */
  lemma {:induction false} RemoveIdProperties<T, I>(items: seq<T>, idOf: T -> I, id: I)
    ensures (forall i :: 0 <= i < |items| ==> idOf(items[i]) != id) <==> RemoveId(items, idOf, id) == items
    ensures RemoveId(RemoveId(items, idOf, id), idOf, id) == RemoveId(items, idOf, id)
  {
    if |items| > 0 {
      RemoveIdProperties(items[1..], idOf, id);
      if idOf(items[0]) == id {
        assert |RemoveId(items, idOf, id)| < |items|;
      } else {
        assert RemoveId(items, idOf, id)[1..] == RemoveId(items[1..], idOf, id);
        assert forall i :: 1 <= i < |items| ==> items[1..][i - 1] == items[i];
      }
    }
  }

  /** `RemoveId` is a filter on the id: it distributes over concatenation
      and keeps a single item exactly when its id differs, so the kept
      items keep their order and their number of occurrences. */
  lemma {:induction false} RemoveIdIsFilter<T, I>(a: seq<T>, b: seq<T>, idOf: T -> I, id: I)
    ensures RemoveId(a + b, idOf, id) == RemoveId(a, idOf, id) + RemoveId(b, idOf, id)
    ensures forall x :: RemoveId([x], idOf, id) == (if idOf(x) == id then [] else [x])
    decreases |a|
  {
    if |a| == 0 {
      assert a + b == b;
    } else {
      assert (a + b)[0] == a[0];
      assert (a + b)[1..] == a[1..] + b;
      RemoveIdIsFilter(a[1..], b, idOf, id);
    }
    forall x ensures RemoveId([x], idOf, id) == (if idOf(x) == id then [] else [x]) {
      assert [x][1..] == [];
    }
  }

  // ---------------------------------------------------------------------
  // Confirmed delete
  // ---------------------------------------------------------------------

  function MissingMessage(w: Wording): string {
    "Cannot delete " + w.noun + ". Missing information."
  }

  function DeletedMessage(w: Wording, name: string): string {
    w.title + " \"" + name + "\" deleted successfully."
  }

  function FailedFallback(w: Wording): string {
    "Failed to delete " + w.noun + "."
  }

  datatype DeleteStep<T> = DeleteStep(state: ListPage<T>, request: Option<Api.Request>, notice: Notice)

  /** `handleDeleteConfirm`: with no pending item or no token, report
      missing information and change nothing, not even the pending item.
      Otherwise delete by id; success announces the name and drops every
      item with that id from the list; failure reports the message. Either
      way the pending item is cleared and deleting ends. */
  function DeleteConfirm<T, I(==)>(s: ListPage<T>, token: Option<string>, idOf: T -> I, nameOf: T -> string,
                                   request: (I, string) -> Api.Request, w: Wording, reply: Reply<()>): (r: DeleteStep<T>)
    ensures s.toDelete.None? || !Present(token) ==> r == DeleteStep(s, None, Failure(MissingMessage(w)))
    ensures s.toDelete.Some? && Present(token) ==>
      var item := s.toDelete.value;
      r.request == Some(request(idOf(item), token.value))
      && r.state.toDelete.None? && !r.state.isDeleting
      && (reply.Ok? ==> r.state.items == RemoveId(s.items, idOf, idOf(item))
                        && r.notice == Success(DeletedMessage(w, nameOf(item))))
      && (reply.Err? ==> r.state.items == s.items && r.notice == Failure(Or(reply.message, FailedFallback(w))))
  {
    if s.toDelete.None? || !Present(token) then DeleteStep(s, None, Failure(MissingMessage(w)))
    else
      var item := s.toDelete.value;
      var req := Some(request(idOf(item), token.value));
      var done := s.(toDelete := None, isDeleting := false);
      match reply
      case Ok(_) =>
        DeleteStep(done.(items := RemoveId(s.items, idOf, idOf(item))), req, Success(DeletedMessage(w, nameOf(item))))
      case Err(m) =>
        DeleteStep(done, req, Failure(Or(m, FailedFallback(w))))
  }

  /** A successful delete leaves no item with the deleted id, keeps every
      other item, and confirming again without a new pending item only
      reports missing information. */
  lemma DeleteRemovesExactlyThatId<T, I>(s: ListPage<T>, token: string, idOf: T -> I, nameOf: T -> string,
                                             request: (I, string) -> Api.Request, w: Wording)
    requires s.toDelete.Some? && token != ""
    ensures var r := DeleteConfirm(s, Some(token), idOf, nameOf, request, w, Ok(()));
            var id := idOf(s.toDelete.value);
            (forall i :: 0 <= i < |r.state.items| ==> idOf(r.state.items[i]) != id && r.state.items[i] in s.items)
            && (forall i :: 0 <= i < |s.items| && idOf(s.items[i]) != id ==> s.items[i] in r.state.items)
            && DeleteConfirm(r.state, Some(token), idOf, nameOf, request, w, Ok(())).notice == Failure(MissingMessage(w))
  {
  }
}
