/** What the list pages share: the paginated response envelope, the
    conversion between the 1-based page the pagination control shows and the
    0-based page the server counts, how a settled fetch updates what the
    page displays, and when the pagination control is rendered. */
module Paging {
  import opened Common
  import opened ClientTypes

  /** The server's page envelope: the items of this page, the totals, and
      `pageable.pageNumber`, the 0-based index of this page. */
  datatype PageResponse<T> = PageResponse(content: seq<T>, totalElements: int, totalPages: int, pageNumber: int)

  /** A list request as a page issues it: 0-based page index and page size. */
  datatype PageQuery = PageQuery(page: int, size: int)

  /** What a list page displays: the items (None until the first load),
      the page count and the 1-based current page of the pagination control. */
  datatype ListView<T> = ListView(items: Option<seq<T>>, count: int, page: int)

  function InitialView<T>(): ListView<T> {
    ListView(None, 0, 0)
  }

  /** The 0-based index of the page the user picked in the control. */
  function PageIndex(uiPage: int): (i: int)
    ensures i + 1 == uiPage
  {
    uiPage - 1
  }

  /** A settled fetch: a success replaces items, count and page; a failure
      leaves the view as it was. */
  function ReceivePage<T>(v: ListView<T>, o: Settled<PageResponse<T>>): ListView<T> {
    match o
    case Fulfilled(res) => ListView(Some(res.content), res.totalPages, res.pageNumber + 1)
    case Rejected(_) => v
  }

  /** `items?.length !== 0`: not yet loaded still shows the control. */
  predicate ShowsPagination<T>(items: Option<seq<T>>) {
    items.None? || |items.value| != 0
  }

  /** A response the server can send: non-negative totals and page index. */
  predicate ResponseValid<T>(res: PageResponse<T>) {
    res.totalPages >= 0 && res.pageNumber >= 0 && res.totalElements >= |res.content|
  }

  /** A view is loaded exactly when it shows a page number, and the first
      page is 1. */
  predicate ViewValid<T>(v: ListView<T>) {
    (v.items.None? ==> v.count == 0 && v.page == 0) && (v.items.Some? ==> v.page >= 1 && v.count >= 0)
  }

  /** A failed fetch keeps the previous items, count and page; a successful
      one shows exactly the response's content, page count and 1-based page. */
  lemma ReceivePageEffect<T>(v: ListView<T>, o: Settled<PageResponse<T>>)
    ensures o.Rejected? ==> ReceivePage(v, o) == v
    ensures o.Fulfilled? ==> ReceivePage(v, o).items == Some(o.value.content)
                             && ReceivePage(v, o).count == o.value.totalPages
                             && ReceivePage(v, o).page == o.value.pageNumber + 1
  {
  }

  /** Picking page N and receiving the page the request asked for shows N. */
  lemma PickedPageIsShown<T>(v: ListView<T>, n: int, res: PageResponse<T>)
    requires res.pageNumber == PageIndex(n)
    ensures ReceivePage(v, Fulfilled(res)).page == n
  {
  }

  /** Receiving valid responses keeps a view valid. */
  lemma ReceivePageKeepsValid<T>(v: ListView<T>, o: Settled<PageResponse<T>>)
    requires ViewValid(v)
    requires o.Fulfilled? ==> ResponseValid(o.value)
    ensures ViewValid(ReceivePage(v, o))
  {
  }

  /** The control is hidden exactly when a loaded page came back empty. */
  lemma PaginationHiddenIffLoadedEmpty<T>(items: Option<seq<T>>)
    ensures !ShowsPagination(items) <==> items == Some([])
  {
  }

  /** The state of a list page whose fetch depends on the selected page
      only: the selected 0-based page, what is displayed, and the loading
      flag. */
  datatype ListState<T> = ListState(selected: int, view: ListView<T>, loading: bool)

  /** What reaches such a page: the user picking a page in the control, or
      the pending fetch settling. */
  datatype ListEvent<T> = Pick(uiPage: int) | Settle(outcome: Settled<PageResponse<T>>)

  function InitialListState<T>(): ListState<T> {
    ListState(0, InitialView(), false)
  }

  /** Mounting runs the fetch effect once: loading is set and the first page
      of `size` items is requested. */
  function ListMount<T>(s: ListState<T>, size: int): (ListState<T>, PageQuery) {
    (s.(loading := true), PageQuery(s.selected, size))
  }

  /** One event: a pick selects page N - 1 and, only when that changes the
      selection, re-runs the fetch; a settled fetch updates the view and
      clears loading. */
  function ListStep<T>(s: ListState<T>, e: ListEvent<T>, size: int): (ListState<T>, seq<PageQuery>) {
    match e
    case Pick(n) =>
      var p := PageIndex(n);
      if p != s.selected then (s.(selected := p, loading := true), [PageQuery(p, size)]) else (s, [])
    case Settle(o) => (s.(view := ReceivePage(s.view, o), loading := false), [])
  }

  /** Picking the page already selected fetches nothing and changes nothing. */
  lemma PickSamePageIsIgnored<T>(s: ListState<T>, size: int)
    ensures ListStep(s, Pick(s.selected + 1), size) == (s, [])
  {
  }

  /** Picking another page requests exactly that page, with the page's size,
      and sets loading. */
  lemma PickOtherPageFetchesIt<T>(s: ListState<T>, n: int, size: int)
    requires PageIndex(n) != s.selected
    ensures var (t, qs) := ListStep(s, Pick(n), size);
            qs == [PageQuery(n - 1, size)] && t.selected == n - 1 && t.loading && t.view == s.view
  {
  }

  /** Picking page N and then receiving the page requested shows page N and
      the received items, with loading cleared; a failure instead keeps the
      items shown before the pick. */
  lemma PickThenSettle<T>(s: ListState<T>, n: int, o: Settled<PageResponse<T>>, size: int)
    requires PageIndex(n) != s.selected
    requires o.Fulfilled? ==> o.value.pageNumber == PageIndex(n)
    ensures var t := ListStep(ListStep(s, Pick(n), size).0, Settle(o), size).0;
            !t.loading && t.selected == n - 1
            && (o.Fulfilled? ==> t.view.page == n && t.view.items == Some(o.value.content))
            && (o.Rejected? ==> t.view == s.view)
  {
  }

  /** Every state the page reaches keeps its view valid, given responses the
      server can send. */
  lemma ListStepKeepsValid<T>(s: ListState<T>, e: ListEvent<T>, size: int)
    requires ViewValid(s.view)
    requires e.Settle? && e.outcome.Fulfilled? ==> ResponseValid(e.outcome.value)
    ensures ViewValid(ListStep(s, e, size).0.view)
  {
    if e.Settle? {
      ReceivePageKeepsValid(s.view, e.outcome);
    }
  }
}
