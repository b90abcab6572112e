/** The products panel of a shop's detail page: a page of 6 products of the
    shop, restricted to one category unless the selected filter is the
    "all categories" entry, fetched again without delay whenever the shop,
    the selected page or the filter changes. */
module ShopProductsPanel {
  import opened Common
  import opened ClientTypes
  import opened Paging

  const PageSize: int := 6
  const AllCategoriesLabel: string := "Toutes les catégories"

  /** The two product queries the panel can issue. */
  datatype ProductsQuery =
    | ByShop(shopId: string, page: int, size: int)
    | ByShopAndCategory(shopId: string, categoryId: int, page: int, size: int)

  /** The three values the fetch effect depends on. */
  datatype PanelInputs = PanelInputs(shopId: string, pageSelected: int, filter: Option<Category>)

  /** The query of a fetch: the category restriction applies exactly when a
      filter is selected and it is not the "all categories" entry. */
  function ProductsRequest(i: PanelInputs): (q: ProductsQuery)
    ensures q.shopId == i.shopId && q.page == i.pageSelected && q.size == PageSize
    ensures q.ByShopAndCategory? <==> i.filter.Some? && i.filter.value.name != AllCategoriesLabel
    ensures q.ByShopAndCategory? ==> q.categoryId == i.filter.value.id
  {
    if i.filter.Some? && i.filter.value.name != AllCategoriesLabel then
      ByShopAndCategory(i.shopId, i.filter.value.id, i.pageSelected, PageSize)
    else ByShop(i.shopId, i.pageSelected, PageSize)
  }

  /** A change to one of the inputs. */
  datatype PanelChange = ShopChange(shopId: string) | PagePick(uiPage: int) | FilterChange(filter: Option<Category>)

  function ApplyPanelChange(i: PanelInputs, c: PanelChange): PanelInputs {
    match c
    case ShopChange(id) => i.(shopId := id)
    case PagePick(n) => i.(pageSelected := PageIndex(n))
    case FilterChange(f) => i.(filter := f)
  }

  /** One change: when it alters an input the effect fetches at once. */
  function PanelStep(i: PanelInputs, c: PanelChange): (PanelInputs, seq<ProductsQuery>) {
    var n := ApplyPanelChange(i, c);
    if n != i then (n, [ProductsRequest(n)]) else (i, [])
  }

  function PanelRun(i: PanelInputs, cs: seq<PanelChange>): (PanelInputs, seq<ProductsQuery>)
    decreases |cs|
  {
    if |cs| == 0 then (i, [])
    else
      var (i1, q1) := PanelStep(i, cs[0]);
      var (i2, q2) := PanelRun(i1, cs[1..]);
      (i2, q1 + q2)
  }

  /** The inputs after each prefix of the changes: entry k holds the inputs
      after the first k + 1 changes. */
  function Trace(i: PanelInputs, cs: seq<PanelChange>): (t: seq<PanelInputs>)
    ensures |t| == |cs|
    decreases |cs|
  {
    if |cs| == 0 then []
    else
      var n := ApplyPanelChange(i, cs[0]);
      [n] + Trace(n, cs[1..])
  }

  /** Every change of the list alters the inputs it is applied to. */
  predicate AllAlter(i: PanelInputs, cs: seq<PanelChange>)
    decreases |cs|
  {
    |cs| == 0 || (ApplyPanelChange(i, cs[0]) != i && AllAlter(ApplyPanelChange(i, cs[0]), cs[1..]))
  }

  /** No debounce: changes that each alter an input issue one query each, in
      order, the k-th built from the inputs after the k-th change. */
  lemma {:induction false} EveryChangeFetches(i: PanelInputs, cs: seq<PanelChange>)
    requires AllAlter(i, cs)
    ensures |PanelRun(i, cs).1| == |cs|
    ensures forall k :: 0 <= k < |cs| ==> PanelRun(i, cs).1[k] == ProductsRequest(Trace(i, cs)[k])
    decreases |cs|
  {
    if |cs| > 0 {
      var n := ApplyPanelChange(i, cs[0]);
      EveryChangeFetches(n, cs[1..]);
      var rest := PanelRun(n, cs[1..]).1;
      assert PanelRun(i, cs).1 == [ProductsRequest(n)] + rest;
      assert Trace(i, cs) == [n] + Trace(n, cs[1..]);
    }
  }

  /** A change that leaves every input as it was issues nothing. */
  lemma UnchangedInputsFetchNothing(i: PanelInputs, c: PanelChange)
    requires ApplyPanelChange(i, c) == i
    ensures PanelStep(i, c) == (i, [])
  {
  }

  /** Selecting "all categories" and clearing the filter request the same
      products. */
  lemma AllCategoriesIsNoFilter(i: PanelInputs, id: int)
    ensures ProductsRequest(i.(filter := Some(Category(id, AllCategoriesLabel)))) == ProductsRequest(i.(filter := None))
  {
  }

  class ShopProducts {
    var products: Option<seq<Product>>
    var count: int
    var page: int
    var shopId: string
    var pageSelected: int
    var filter: Option<Category>
    var loading: bool

    function Inputs(): PanelInputs
      reads this
    {
      PanelInputs(shopId, pageSelected, filter)
    }

    function View(): ListView<Product>
      reads this
    {
      ListView(products, count, page)
    }

    /** Mounting for a shop: nothing loaded, first page, no filter; the
        effect's first run is `GetProducts`. */
    constructor (shopId: string)
      ensures Inputs() == PanelInputs(shopId, 0, None)
      ensures View() == InitialView() && !loading
    {
      this.shopId := shopId;
      products := None;
      count := 0;
      page := 0;
      pageSelected := 0;
      filter := None;
      loading := false;
    }

    method GetProducts() returns (q: ProductsQuery)
      modifies this`loading
      ensures loading
      ensures q == ProductsRequest(Inputs())
    {
      loading := true;
      if filter.Some? && filter.value.name != AllCategoriesLabel {
        q := ByShopAndCategory(shopId, filter.value.id, pageSelected, PageSize);
      } else {
        q := ByShop(shopId, pageSelected, PageSize);
      }
    }

    /** A change of input; the effect re-runs when any input changed. */
    method Change(c: PanelChange) returns (qs: seq<ProductsQuery>)
      modifies this`shopId, this`pageSelected, this`filter, this`loading
      ensures (Inputs(), qs) == PanelStep(old(Inputs()), c)
      ensures loading == (qs != [] || old(loading))
    {
      var before := Inputs();
      match c {
        case ShopChange(id) => shopId := id;
        case PagePick(n) => pageSelected := n - 1;
        case FilterChange(f) => filter := f;
      }
      qs := [];
      if Inputs() != before {
        var q := GetProducts();
        qs := [q];
      }
    }

    method HandleChangePagination(value: int) returns (qs: seq<ProductsQuery>)
      modifies this`shopId, this`pageSelected, this`filter, this`loading
      ensures pageSelected == value - 1
      ensures (Inputs(), qs) == PanelStep(old(Inputs()), PagePick(value))
    {
      qs := Change(PagePick(value));
    }

    method Receive(o: Settled<PageResponse<Product>>)
      modifies this`products, this`count, this`page, this`loading
      ensures View() == ReceivePage(old(View()), o)
      ensures !loading
    {
      if o.Fulfilled? {
        products := Some(o.value.content);
        count := o.value.totalPages;
        page := o.value.pageNumber + 1;
      }
      loading := false;
    }
  }
}
