/**
 * app/dashboard/subscribers/page.tsx: the server-paged table of e-mail subscribers. The page
 * number and the search text live in the subscribers slice; the page reads one page of results
 * (10 per page) from the server.
 */
module SubscribersPage {
  import opened Wrappers
  import opened Strings
  import opened SubscribersSlice

  const PageSize := 10

  /** types/subscribers.types.ts `Subscriber`. */
  datatype Subscriber = Subscriber(id: int, email: string, isActive: bool, subscribedAt: string, unsubscribedAt: Option<string>)

  /** types/subscribers.types.ts `SubscribersResponse`: the total count, the neighbour-page links and this page's rows. */
  datatype SubscribersResponse = SubscribersResponse(count: nat, next: Option<string>, previous: Option<string>, results: seq<Subscriber>)

  /** `data?.count ? Math.ceil(data.count / 10) : 0`: the fewest pages of 10 that hold every subscriber. */
  function TotalPages(data: Option<SubscribersResponse>): (pages: nat)
    ensures data.None? || data.value.count == 0 ==> pages == 0
    ensures data.Some? && data.value.count > 0 ==>
      (pages - 1) * PageSize < data.value.count <= pages * PageSize
  {
    if data.None? || data.value.count == 0 then 0 else (data.value.count + PageSize - 1) / PageSize
  }

  /** The pagination bar is shown only when there is more than one page, that is, more than 10 subscribers. */
  function PaginationShown(data: Option<SubscribersResponse>): (shown: bool)
    ensures shown <==> TotalPages(data) > 1
    ensures shown <==> data.Some? && data.value.count > PageSize
  {
    TotalPages(data) > 1
  }

  /**
   * "Total Subscribers": `data?.count || 0`. The pages the bar offers hold exactly that many
   * subscribers: none when it is 0, and otherwise the last page is the one that is partly or
   * wholly filled.
   */
  function TotalSubscribers(data: Option<SubscribersResponse>): (n: nat)
    ensures data.None? ==> n == 0
    ensures data.Some? ==> n == data.value.count
    ensures n == 0 <==> TotalPages(data) == 0
    ensures n > 0 ==> (TotalPages(data) - 1) * PageSize < n <= TotalPages(data) * PageSize
  {
    if data.Some? then data.value.count else 0
  }

  /** Previous is disabled unless the server sent a `previous` link (and there is a response at all). */
  function PreviousDisabled(data: Option<SubscribersResponse>): (d: bool)
    ensures !d <==> data.Some? && Truthy(data.value.previous)
  {
    !(data.Some? && Truthy(data.value.previous))
  }

  /** Next is disabled unless the server sent a `next` link. */
  function NextDisabled(data: Option<SubscribersResponse>): (d: bool)
    ensures !d <==> data.Some? && Truthy(data.value.next)
  {
    !(data.Some? && Truthy(data.value.next))
  }

  /** `handleSearch`: the typed text becomes the slice's search, and the table goes back to page 1. */
  method HandleSearch(store: SubscribersStore, localSearch: string)
    modifies store
    ensures store.State() == SubscribersState(1, localSearch)
  {
    store.SetSearchQuery(localSearch);
  }

  /** A click on Previous: a disabled button does nothing; otherwise the page number goes down by one. */
  method ClickPrevious(store: SubscribersStore, data: Option<SubscribersResponse>)
    modifies store
    ensures PreviousDisabled(data) ==> store.State() == old(store.State())
    ensures !PreviousDisabled(data) ==> store.State() == old(store.State()).(currentPage := old(store.currentPage) - 1)
  {
    if !PreviousDisabled(data) {
      store.SetCurrentPage(store.currentPage - 1);
    }
  }

  /** A click on Next: a disabled button does nothing; otherwise the page number goes up by one. */
  method ClickNext(store: SubscribersStore, data: Option<SubscribersResponse>)
    modifies store
    ensures NextDisabled(data) ==> store.State() == old(store.State())
    ensures !NextDisabled(data) ==> store.State() == old(store.State()).(currentPage := old(store.currentPage) + 1)
  {
    if !NextDisabled(data) {
      store.SetCurrentPage(store.currentPage + 1);
    }
  }

  /**
   * `handleDeleteConfirm`'s guard, `if (!selectedSubscriberId) return`: it proceeds only with a
   * selected id that is not 0 (0 is falsy).
   */
  predicate DeleteProceeds(selectedSubscriberId: Option<int>)
  {
    selectedSubscriberId.Some? && selectedSubscriberId.value != 0
  }

  /** The delete confirmation: whether it is open and the subscriber it is about. */
  datatype DeleteDialog = DeleteDialog(open: bool, selectedSubscriberId: Option<int>)

  /** `handleDeleteClick(id)`: remembers the subscriber and opens the confirmation. */
  function DeleteClick(id: int): (d: DeleteDialog)
    ensures d.open && d.selectedSubscriberId == Some(id)
  {
    DeleteDialog(true, Some(id))
  }

  /** What `deleteSubscriber(id).unwrap()` ended in; the server call itself is not modelled. */
  datatype DeleteResult = Deleted | DeleteFailed

  /** What confirming does: the request it sends (if any), the toast, and the dialog afterwards. */
  datatype DeleteEffect = DeleteEffect(request: Option<int>, toast: Option<string>, dialog: DeleteDialog)

  const DeletedToast := "Subscriber deleted successfully"
  const DeleteFailedToast := "Failed to delete subscriber"

  /**
   * `handleDeleteConfirm`: without a truthy id it returns at once, sending nothing and changing
   * nothing. Otherwise it asks the server to delete that id; a success toasts, closes the
   * dialog and forgets the id, and a failure toasts and leaves the dialog as it was.
   */
  function DeleteConfirm(d: DeleteDialog, result: DeleteResult): (e: DeleteEffect)
    ensures e.request.Some? <==> d.selectedSubscriberId.Some? && d.selectedSubscriberId.value != 0
    ensures e.request.Some? ==> e.request == d.selectedSubscriberId
    ensures e.request.None? ==> e.toast.None? && e.dialog == d
    ensures e.request.Some? && result == Deleted ==> e.toast == Some(DeletedToast) && e.dialog == DeleteDialog(false, None)
    ensures e.request.Some? && result == DeleteFailed ==> e.toast == Some(DeleteFailedToast) && e.dialog == d
  {
    if !DeleteProceeds(d.selectedSubscriberId) then DeleteEffect(None, None, d)
    else if result == Deleted then DeleteEffect(d.selectedSubscriberId, Some(DeletedToast), DeleteDialog(false, None))
    else DeleteEffect(d.selectedSubscriberId, Some(DeleteFailedToast), d)
  }

  /**
   * Clicking delete on a row and confirming sends a request for exactly that row's id, except
   * for id 0: then nothing is sent, no toast appears and the dialog stays open.
   */
  lemma ClickThenConfirm(id: int, result: DeleteResult)
    ensures id != 0 ==> DeleteConfirm(DeleteClick(id), result).request == Some(id)
    ensures id == 0 ==> DeleteConfirm(DeleteClick(id), result) == DeleteEffect(None, None, DeleteDialog(true, Some(0)))
  {
  }

  /** After a successful delete, confirming again (a second click) sends nothing. */
  lemma ConfirmAfterDeleteSendsNothing(d: DeleteDialog)
    ensures DeleteConfirm(DeleteConfirm(d, Deleted).dialog, Deleted).request.None?
  {
  }

  /** What the table body shows. Without a response (and not loading) `data?.results.map` renders nothing. */
  datatype TableBody = LoadingRow | NoSubscribersRow | Rows(subscribers: seq<Subscriber>)

  function Body(isLoading: bool, data: Option<SubscribersResponse>): (b: TableBody)
    ensures isLoading <==> b == LoadingRow
    ensures b == NoSubscribersRow <==> !isLoading && data.Some? && data.value.results == []
    ensures b.Rows? ==> b.subscribers == if data.Some? then data.value.results else []
  {
    if isLoading then LoadingRow
    else if data.Some? && data.value.results == [] then NoSubscribersRow
    else Rows(if data.Some? then data.value.results else [])
  }
}
