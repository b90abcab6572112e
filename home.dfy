/** The shops home page: four inputs (selected page, sort key, filter text
    and search text) decide one list request; every change of an input
    cancels the pending fetch and schedules a new one 300 ms later, so a
    burst of changes produces one fetch built from the final inputs.
    `encode` stands for encodeURIComponent and time is modelled as explicit
    `Elapse` events. */
module HomePage {
  import opened Common
  import opened ClientTypes
  import opened Paging
  import ClientShopService

  const PageSize: int := 9
  const DebounceMs: nat := 300

  /** The four values the fetch effect depends on. */
  datatype Inputs = Inputs(pageSelected: int, sort: string, filters: string, searchQuery: string)

  const InitialInputs: Inputs := Inputs(0, "", "", "")

  /** The name criterion appended to a filtered or sorted list URL. */
  function SearchParam(q: string, encode: string -> string): (p: string)
    ensures p == "" <==> q == ""
    ensures q != "" ==> p == "&name=" + encode(q)
  {
    if q != "" then "&name=" + encode(q) else ""
  }

  /** The one request a fetch issues: sorted if a sort key is set, else
      filtered if a filter is set, else filtered by the name alone if a
      search is set, else the plain listing. */
  function ShopsRequest(api: string, i: Inputs, encode: string -> string): HttpRequest {
    var searchParam := SearchParam(i.searchQuery, encode);
    if i.sort != "" then ClientShopService.GetShopsSorted(api, i.pageSelected, PageSize, i.sort + searchParam)
    else if i.filters != "" then ClientShopService.GetShopsFiltered(api, i.pageSelected, PageSize, i.filters + searchParam)
    else if i.searchQuery != "" then ClientShopService.GetShopsFiltered(api, i.pageSelected, PageSize, searchParam)
    else ClientShopService.GetShops(api, i.pageSelected, PageSize)
  }

  /** A sort key wins: with one set, the filters do not reach the request. */
  lemma SortWins(api: string, i: Inputs, filters: string, encode: string -> string)
    requires i.sort != ""
    ensures ShopsRequest(api, i, encode) == ShopsRequest(api, i.(filters := filters), encode)
    ensures ShopsRequest(api, i, encode)
         == ClientShopService.GetShopsSorted(api, i.pageSelected, PageSize, i.sort + SearchParam(i.searchQuery, encode))
  {
  }

  /** Without a sort key every request is the filtered listing of the
      filters followed by the name criterion: the search-only and the plain
      requests are its special cases. */
  lemma UnsortedIsFiltered(api: string, i: Inputs, encode: string -> string)
    requires i.sort == ""
    ensures ShopsRequest(api, i, encode)
         == ClientShopService.GetShopsFiltered(api, i.pageSelected, PageSize, i.filters + SearchParam(i.searchQuery, encode))
  {
    if i.filters == "" {
      assert i.filters + SearchParam(i.searchQuery, encode) == SearchParam(i.searchQuery, encode);
      if i.searchQuery == "" {
        var base := api + "/shops?page=" + IntToString(i.pageSelected) + "&size=" + IntToString(PageSize);
        assert base + "" == base;
      }
    }
  }

  /** With a sort key, the URL reads back as the selected page, size 9 and
      the sort criterion followed by the name criterion. */
  lemma SortedRequestUrl(api: string, i: Inputs, encode: string -> string)
    requires i.sort != ""
    ensures ClientShopService.ParseShopsUrl(api, ShopsRequest(api, i, encode).url)
         == Some(ClientShopService.ListQuery(i.pageSelected, PageSize, "&sortBy=" + (i.sort + SearchParam(i.searchQuery, encode))))
  {
    SortWins(api, i, i.filters, encode);
    ClientShopService.GetShopsSortedUrl(api, i.pageSelected, PageSize, i.sort + SearchParam(i.searchQuery, encode));
  }

  /** The criteria of an unsorted request never start with a digit, given
      filters that do not. */
  lemma FilteredSuffixHasNoDigit(i: Inputs, encode: string -> string)
    requires i.filters == "" || !IsDigit(i.filters[0])
    ensures var rest := i.filters + SearchParam(i.searchQuery, encode);
            rest == [] || !IsDigit(rest[0])
  {
    var searchParam := SearchParam(i.searchQuery, encode);
    var rest := i.filters + searchParam;
    if i.filters == "" {
      assert rest == searchParam;
      if searchParam != "" {
        assert rest[0] == '&';
      }
    } else {
      assert rest[0] == i.filters[0];
    }
  }

  /** Without a sort key, the URL reads back as the selected page, size 9
      and the filters followed by the name criterion. */
  lemma UnsortedRequestUrl(api: string, i: Inputs, encode: string -> string)
    requires i.sort == ""
    requires i.filters == "" || !IsDigit(i.filters[0])
    ensures ClientShopService.ParseShopsUrl(api, ShopsRequest(api, i, encode).url)
         == Some(ClientShopService.ListQuery(i.pageSelected, PageSize, i.filters + SearchParam(i.searchQuery, encode)))
  {
    UnsortedIsFiltered(api, i, encode);
    FilteredSuffixHasNoDigit(i, encode);
    ClientShopService.GetShopsFilteredUrl(api, i.pageSelected, PageSize, i.filters + SearchParam(i.searchQuery, encode));
  }

  /** Every request is a GET of the list URL with the selected page and page
      size 9, followed by the criteria in precedence order. */
  lemma RequestCarriesPageAndSize(api: string, i: Inputs, encode: string -> string)
    requires i.filters == "" || !IsDigit(i.filters[0])
    ensures ShopsRequest(api, i, encode).verb == Get
    ensures ClientShopService.ParseShopsUrl(api, ShopsRequest(api, i, encode).url)
         == Some(ClientShopService.ListQuery(i.pageSelected, PageSize,
              if i.sort != "" then "&sortBy=" + (i.sort + SearchParam(i.searchQuery, encode))
              else i.filters + SearchParam(i.searchQuery, encode)))
    ensures ClientShopService.ParseShopsUrl(api, ShopsRequest(api, i, encode).url).Some?
    ensures ClientShopService.ParseShopsUrl(api, ShopsRequest(api, i, encode).url).value.page == i.pageSelected
    ensures ClientShopService.ParseShopsUrl(api, ShopsRequest(api, i, encode).url).value.size == PageSize
  {
    if i.sort != "" {
      SortedRequestUrl(api, i, encode);
    } else {
      UnsortedRequestUrl(api, i, encode);
    }
  }

  /** A user action on one input. */
  datatype Change = PageChange(uiPage: int) | SortChange(sort: string) | FiltersChange(filters: string) | SearchChange(query: string)

  /** The inputs after a change: a picked UI page N selects page N - 1, and a
      new search also returns to the first page. */
  function ApplyChange(i: Inputs, c: Change): Inputs {
    match c
    case PageChange(n) => i.(pageSelected := PageIndex(n))
    case SortChange(s) => i.(sort := s)
    case FiltersChange(f) => i.(filters := f)
    case SearchChange(q) => i.(searchQuery := q, pageSelected := 0)
  }

  /** The inputs after several changes, in order. */
  function ApplyChanges(i: Inputs, cs: seq<Change>): Inputs
    decreases |cs|
  {
    if |cs| == 0 then i else ApplyChanges(ApplyChange(i, cs[0]), cs[1..])
  }

  /** A change that alters some input: only these re-run the effect. */
  predicate Effective(i: Inputs, c: Change) {
    ApplyChange(i, c) != i
  }

  /** A search change lands on the first page and queries the new text,
      whatever page was selected. */
  lemma SearchChangeRequestsFirstPage(api: string, i: Inputs, q: string, encode: string -> string)
    requires i.filters == "" || !IsDigit(i.filters[0])
    ensures var n := ApplyChange(i, SearchChange(q));
            n.searchQuery == q
            && ClientShopService.ParseShopsUrl(api, ShopsRequest(api, n, encode).url).Some?
            && ClientShopService.ParseShopsUrl(api, ShopsRequest(api, n, encode).url).value.page == 0
  {
    var n := ApplyChange(i, SearchChange(q));
    assert n.pageSelected == 0;
    RequestCarriesPageAndSize(api, n, encode);
  }

  /** The debounce state: the inputs and the time left on the pending
      timer, if one is pending. */
  datatype HomeState = HomeState(inputs: Inputs, timer: Option<nat>)

  /** On mount the effect schedules the first fetch. */
  const InitialState: HomeState := HomeState(InitialInputs, Some(DebounceMs))

  datatype HomeEvent = Input(change: Change) | Elapse(ms: nat)

  /** One event: an effective change clears the pending timer and schedules
      a new one; time running out on the pending timer fires one fetch from
      the current inputs. */
  function HomeStep(s: HomeState, e: HomeEvent, api: string, encode: string -> string): (HomeState, seq<HttpRequest>) {
    match e
    case Input(c) =>
      var n := ApplyChange(s.inputs, c);
      if n != s.inputs then (HomeState(n, Some(DebounceMs)), []) else (s, [])
    case Elapse(ms) =>
      match s.timer
      case None => (s, [])
      case Some(left) =>
        if ms >= left then (s.(timer := None), [ShopsRequest(api, s.inputs, encode)])
        else (s.(timer := Some(left - ms)), [])
  }

  /** A sequence of events: the final state and every request issued. */
  function HomeRun(s: HomeState, es: seq<HomeEvent>, api: string, encode: string -> string): (HomeState, seq<HttpRequest>)
    decreases |es|
  {
    if |es| == 0 then (s, [])
    else
      var (s1, out1) := HomeStep(s, es[0], api, encode);
      var (s2, out2) := HomeRun(s1, es[1..], api, encode);
      (s2, out1 + out2)
  }

  /** A burst: each change followed by the pause before the next one. */
  function Burst(cs: seq<Change>, gaps: seq<nat>): seq<HomeEvent>
    requires |cs| == |gaps|
    decreases |cs|
  {
    if |cs| == 0 then [] else [Input(cs[0]), Elapse(gaps[0])] + Burst(cs[1..], gaps[1..])
  }

  /** Every change of the list alters the inputs it is applied to. */
  predicate AllEffective(i: Inputs, cs: seq<Change>)
    decreases |cs|
  {
    |cs| == 0 || (Effective(i, cs[0]) && AllEffective(ApplyChange(i, cs[0]), cs[1..]))
  }

  /** Debouncing: changes that each come less than 300 ms after the previous
      one, followed by 300 ms of quiet, issue exactly one request, built
      from the inputs after the last change, and leave no timer pending. */
  lemma {:induction false} DebounceFiresOnce(s: HomeState, cs: seq<Change>, gaps: seq<nat>, api: string, encode: string -> string)
    requires |cs| == |gaps| >= 1
    requires AllEffective(s.inputs, cs)
    requires forall k :: 0 <= k < |gaps| - 1 ==> gaps[k] < DebounceMs
    requires gaps[|gaps| - 1] >= DebounceMs
    ensures HomeRun(s, Burst(cs, gaps), api, encode)
         == (HomeState(ApplyChanges(s.inputs, cs), None), [ShopsRequest(api, ApplyChanges(s.inputs, cs), encode)])
    decreases |cs|
  {
    var n := ApplyChange(s.inputs, cs[0]);
    var rest := Burst(cs[1..], gaps[1..]);
    var es := [Input(cs[0]), Elapse(gaps[0])] + rest;
    assert Burst(cs, gaps) == es;
    assert es[0] == Input(cs[0]) && es[1..] == [Elapse(gaps[0])] + rest;
    assert es[1..][0] == Elapse(gaps[0]) && es[1..][1..] == rest;
    var armed := HomeState(n, Some(DebounceMs));
    assert HomeStep(s, Input(cs[0]), api, encode) == (armed, []);
    if |cs| == 1 {
      assert rest == [];
      assert HomeStep(armed, Elapse(gaps[0]), api, encode) == (HomeState(n, None), [ShopsRequest(api, n, encode)]);
      assert ApplyChanges(s.inputs, cs) == ApplyChanges(n, cs[1..]) == n;
      var fired := HomeState(n, None);
      assert HomeRun(fired, [], api, encode) == (fired, []);
      assert es[1..] == [Elapse(gaps[0])] && es[1..][1..] == [];
      assert HomeRun(armed, es[1..], api, encode) == (fired, [ShopsRequest(api, n, encode)] + []);
      assert HomeRun(s, es, api, encode) == (fired, [] + ([ShopsRequest(api, n, encode)] + []));
      assert [] + ([ShopsRequest(api, n, encode)] + []) == [ShopsRequest(api, n, encode)];
    } else {
      var waiting := HomeState(n, Some(DebounceMs - gaps[0]));
      assert HomeStep(armed, Elapse(gaps[0]), api, encode) == (waiting, []);
      assert forall k :: 0 <= k < |gaps[1..]| - 1 ==> gaps[1..][k] < DebounceMs by {
        forall k | 0 <= k < |gaps[1..]| - 1
          ensures gaps[1..][k] < DebounceMs
        {
          assert gaps[1..][k] == gaps[k + 1];
        }
      }
      assert ApplyChanges(s.inputs, cs) == ApplyChanges(n, cs[1..]);
      DebounceFiresOnce(waiting, cs[1..], gaps[1..], api, encode);
      var out := HomeRun(waiting, rest, api, encode);
      assert |es[1..]| > 0;
      assert HomeRun(armed, es[1..], api, encode) == (out.0, [] + out.1);
      assert |es| > 0;
      assert HomeRun(s, es, api, encode) == (out.0, [] + ([] + out.1));
      assert [] + ([] + out.1) == out.1;
    }
  }

  /** A change that leaves every input as it was neither reschedules nor
      cancels the pending fetch. */
  lemma IneffectiveChangeKeepsTimer(s: HomeState, c: Change, api: string, encode: string -> string)
    requires !Effective(s.inputs, c)
    ensures HomeStep(s, Input(c), api, encode) == (s, [])
  {
  }

  /** Time that does not use up the pending delay fetches nothing; with no
      timer pending, time never fetches. */
  lemma QuietTimeFetchesNothing(s: HomeState, ms: nat, api: string, encode: string -> string)
    requires s.timer.None? || ms < s.timer.value
    ensures HomeStep(s, Elapse(ms), api, encode).1 == []
    ensures s.timer.Some? ==> HomeStep(s, Elapse(ms), api, encode).0.timer == Some(s.timer.value - ms)
  {
  }

  /** 300 ms after mounting, the first page of the plain listing is fetched. */
  lemma MountFetchesFirstPage(api: string, encode: string -> string)
    ensures HomeStep(InitialState, Elapse(DebounceMs), api, encode)
         == (HomeState(InitialInputs, None), [ClientShopService.GetShops(api, 0, PageSize)])
  {
  }

  class Home {
    var shops: Option<seq<Shop>>
    var count: int
    var page: int
    var pageSelected: int
    var sort: string
    var filters: string
    var searchQuery: string
    /** Time left before the scheduled fetch, if one is scheduled. */
    var timer: Option<nat>
    var loading: bool
    const api: string
    const encode: string -> string

    function State(): HomeState
      reads this
    {
      HomeState(Inputs(pageSelected, sort, filters, searchQuery), timer)
    }

    function View(): ListView<Shop>
      reads this
    {
      ListView(shops, count, page)
    }

    /** Mounting: nothing loaded, empty inputs, the first fetch scheduled. */
    constructor (api: string, encode: string -> string)
      ensures this.api == api && this.encode == encode
      ensures State() == InitialState
      ensures View() == InitialView() && !loading
    {
      this.api := api;
      this.encode := encode;
      shops := None;
      count := 0;
      page := 0;
      pageSelected := 0;
      sort := "";
      filters := "";
      searchQuery := "";
      timer := Some(DebounceMs);
      loading := false;
    }

    /** The effect: when the inputs differ from the ones it last ran with,
        the cleanup cancels the pending timer and a new one is set. */
    method Apply(c: Change)
      modifies this
      ensures State() == HomeStep(old(State()), Input(c), api, encode).0
      ensures View() == old(View()) && loading == old(loading)
    {
      var before := Inputs(pageSelected, sort, filters, searchQuery);
      match c {
        case PageChange(n) => pageSelected := n - 1;
        case SortChange(s) => sort := s;
        case FiltersChange(f) => filters := f;
        case SearchChange(q) => searchQuery := q; pageSelected := 0;
      }
      if Inputs(pageSelected, sort, filters, searchQuery) != before {
        timer := Some(DebounceMs);
      }
    }

    method HandleChangePagination(value: int)
      modifies this
      ensures pageSelected == value - 1
      ensures State() == HomeStep(old(State()), Input(PageChange(value)), api, encode).0
      ensures View() == old(View()) && loading == old(loading)
    {
      Apply(PageChange(value));
    }

    method HandleChangeSort(value: string)
      modifies this
      ensures sort == value
      ensures State() == HomeStep(old(State()), Input(SortChange(value)), api, encode).0
      ensures View() == old(View()) && loading == old(loading)
    {
      Apply(SortChange(value));
    }

    method SetFilters(value: string)
      modifies this
      ensures filters == value
      ensures State() == HomeStep(old(State()), Input(FiltersChange(value)), api, encode).0
      ensures View() == old(View()) && loading == old(loading)
    {
      Apply(FiltersChange(value));
    }

    method HandleSearchChange(value: string)
      modifies this
      ensures searchQuery == value && pageSelected == 0
      ensures State() == HomeStep(old(State()), Input(SearchChange(value)), api, encode).0
      ensures View() == old(View()) && loading == old(loading)
    {
      Apply(SearchChange(value));
    }

    /** The fetch: loading is set and the request chosen from the inputs. */
    method GetShops() returns (req: HttpRequest)
      modifies this`loading
      ensures loading
      ensures req == ShopsRequest(api, State().inputs, encode)
    {
      loading := true;
      var searchParam := if searchQuery != "" then "&name=" + encode(searchQuery) else "";
      if sort != "" {
        req := ClientShopService.GetShopsSorted(api, pageSelected, PageSize, sort + searchParam);
      } else if filters != "" {
        req := ClientShopService.GetShopsFiltered(api, pageSelected, PageSize, filters + searchParam);
      } else if searchQuery != "" {
        req := ClientShopService.GetShopsFiltered(api, pageSelected, PageSize, searchParam);
      } else {
        req := ClientShopService.GetShops(api, pageSelected, PageSize);
      }
    }

    /** Time passing: when the pending delay runs out the fetch is issued. */
    method Elapse(ms: nat) returns (reqs: seq<HttpRequest>)
      modifies this`timer, this`loading
      ensures (State(), reqs) == HomeStep(old(State()), HomeEvent.Elapse(ms), api, encode)
      ensures loading == (reqs != [] || old(loading))
    {
      reqs := [];
      if timer.Some? {
        if ms >= timer.value {
          timer := None;
          var req := GetShops();
          reqs := [req];
        } else {
          timer := Some(timer.value - ms);
        }
      }
    }

    /** A fetch settling: the page shows its result, and loading ends
        either way. */
    method Receive(o: Settled<PageResponse<Shop>>)
      modifies this`shops, this`count, this`page, this`loading
      ensures View() == ReceivePage(old(View()), o)
      ensures !loading
    {
      if o.Fulfilled? {
        shops := Some(o.value.content);
        count := o.value.totalPages;
        page := o.value.pageNumber + 1;
      }
      loading := false;
    }

    /** Whether the pagination control is rendered rather than the
        no-result message. */
    function ShowsPagination(): (b: bool)
      reads this
      ensures b <==> shops != Some([])
    {
      Paging.ShowsPagination(shops)
    }

    /** Unmounting cancels the pending fetch. */
    method Unmount()
      modifies this`timer
      ensures timer == None
    {
      timer := None;
    }
  }
}
