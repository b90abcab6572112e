/** The categories list page: a page of 9 categories is fetched on mount and again
    whenever the selected page changes; the pagination control is 1-based,
    the request 0-based. The fetch is modelled by the query it issues; it
    goes through the shared HTTP instance, so a failure also raises the
    interceptor's error toast. */
module CategoriesPage {
  import opened Common
  import opened ClientTypes
  import opened Paging
  import AxiosInstance

  const PageSize: int := 9

  /** A failed fetch raises exactly one error toast and leaves the listed
      categories, page count and page as they were, with loading cleared. */
  lemma FailedFetchToastsAndKeepsList(s: ListState<Category>, err: AxiosError, stringify: JsValue -> string)
    ensures var (o, toasts) := AxiosInstance.Intercept<PageResponse<Category>>(Rejected(err), stringify);
            |toasts| == 1 && toasts[0] == Toast(Error, AxiosInstance.ErrorMessage(err, stringify))
            && ListStep(s, Settle(o), PageSize).0 == s.(loading := false)
  {
  }

  class Categories {
    var categories: Option<seq<Category>>
    var count: int
    var page: int
    var pageSelected: int
    var loading: bool

    function State(): ListState<Category>
      reads this
    {
      ListState(pageSelected, ListView(categories, count, page), loading)
    }

    constructor ()
      ensures State() == InitialListState()
    {
      categories := None;
      count := 0;
      page := 0;
      pageSelected := 0;
      loading := false;
    }

    /** The fetch: loading is set before the request for the selected page. */
    method GetCategories() returns (q: PageQuery)
      modifies this`loading
      ensures (State(), q) == ListMount(old(State()), PageSize)
    {
      loading := true;
      q := PageQuery(pageSelected, PageSize);
    }

    /** A pick in the control; the effect re-fetches only when the selected
        page actually changes. */
    method HandleChangePagination(value: int) returns (qs: seq<PageQuery>)
      modifies this`pageSelected, this`loading
      ensures (State(), qs) == ListStep(old(State()), Pick(value), PageSize)
    {
      var previous := pageSelected;
      pageSelected := value - 1;
      qs := [];
      if pageSelected != previous {
        var q := GetCategories();
        qs := [q];
      }
    }

    /** The fetch settling: a success shows its page, a failure leaves the
        categories as they were, and loading ends either way. */
    method Receive(o: Settled<PageResponse<Category>>)
      modifies this`categories, this`count, this`page, this`loading
      ensures State() == ListStep(old(State()), Settle(o), PageSize).0
    {
      if o.Fulfilled? {
        categories := Some(o.value.content);
        count := o.value.totalPages;
        page := o.value.pageNumber + 1;
      }
      loading := false;
    }

    /** Whether the pagination control is rendered rather than the
        empty-list message. */
    function ShowsPagination(): (b: bool)
      reads this
      ensures b <==> categories != Some([])
    {
      Paging.ShowsPagination(categories)
    }
  }
}
