/** The products list page: a page of 9 products is fetched on mount and again
    whenever the selected page changes; the pagination control is 1-based,
    the request 0-based. The fetch is modelled by the query it issues. */
module ProductsPage {
  import opened Common
  import opened ClientTypes
  import opened Paging

  const PageSize: int := 9

  class Products {
    var products: Option<seq<Product>>
    var count: int
    var page: int
    var pageSelected: int
    var loading: bool

    function State(): ListState<Product>
      reads this
    {
      ListState(pageSelected, ListView(products, count, page), loading)
    }

    constructor ()
      ensures State() == InitialListState()
    {
      products := None;
      count := 0;
      page := 0;
      pageSelected := 0;
      loading := false;
    }

    /** The fetch: loading is set before the request for the selected page. */
    method GetProducts() returns (q: PageQuery)
      modifies this`loading
      ensures (State(), q) == ListMount(old(State()), PageSize)
    {
      loading := true;
      q := PageQuery(pageSelected, PageSize);
    }

    /** A pick in the control; the effect re-fetches only when the selected
        page actually changes. */
    method HandleChangePagination(value: int) returns (qs: seq<PageQuery>)
      modifies this`pageSelected, this`loading
      ensures (State(), qs) == ListStep(old(State()), Pick(value), PageSize)
    {
      var previous := pageSelected;
      pageSelected := value - 1;
      qs := [];
      if pageSelected != previous {
        var q := GetProducts();
        qs := [q];
      }
    }

    /** The fetch settling: a success shows its page, a failure leaves the
        products as they were, and loading ends either way. */
    method Receive(o: Settled<PageResponse<Product>>)
      modifies this`products, this`count, this`page, this`loading
      ensures State() == ListStep(old(State()), Settle(o), PageSize).0
    {
      if o.Fulfilled? {
        products := Some(o.value.content);
        count := o.value.totalPages;
        page := o.value.pageNumber + 1;
      }
      loading := false;
    }

    /** Whether the pagination control is rendered rather than the
        empty-list message. */
    function ShowsPagination(): (b: bool)
      reads this
      ensures b <==> products != Some([])
    {
      Paging.ShowsPagination(products)
    }
  }
}
