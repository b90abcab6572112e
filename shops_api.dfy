/** The search call of the client's shops API: the query parameters are
    built from optional inputs with defaults and conditional inclusion, and
    sent to the search endpoint of the configured origin. */
module ShopsApi {
  import opened Common
  import opened ClientTypes

  const DefaultApiUrl: string := "http://localhost:8080"
  const SearchPath: string := "/api/v1/shops/search"
  const DefaultPage: int := 0
  const DefaultSize: int := 10

  /** A query-parameter value as the HTTP library serialises it. */
  datatype ParamValue = Text(text: string) | Flag(flag: bool) | Number(number: int)

  /** The optional inputs of a search; None stands for `undefined`. */
  datatype SearchParams = SearchParams(
    q: Option<string>,
    inVacations: Option<bool>,
    page: Option<int>,
    size: Option<int>,
    sort: Option<string>)

  /** The GET request of a search: URL and ordered query parameters. */
  datatype SearchRequest = SearchRequest(url: string, params: seq<(string, ParamValue)>)

  /** The origin: the configured value unless it is undefined (`??`), so a
      configured empty string is kept. */
  function ApiUrl(env: Option<string>): (u: string)
    ensures env.Some? ==> u == env.value
    ensures env.None? ==> u == DefaultApiUrl
  {
    env.GetOr(DefaultApiUrl)
  }

  /** The parameter object: `q` if truthy, `inVacations` if defined, `page`
      and `size` always (with their defaults), `sort` if truthy. */
  function SearchQueryParams(p: SearchParams): seq<(string, ParamValue)> {
    (if Truthy(p.q) then [("q", Text(p.q.value))] else [])
    + (if p.inVacations.Some? then [("inVacations", Flag(p.inVacations.value))] else [])
    + [("page", Number(p.page.GetOr(DefaultPage))), ("size", Number(p.size.GetOr(DefaultSize)))]
    + (if Truthy(p.sort) then [("sort", Text(p.sort.value))] else [])
  }

  function SearchShops(env: Option<string>, p: SearchParams): (r: SearchRequest)
    ensures r.url == ApiUrl(env) + SearchPath
  {
    SearchRequest(ApiUrl(env) + SearchPath, SearchQueryParams(p))
  }

  /** The value sent under `key`, if any. */
  function Lookup(ps: seq<(string, ParamValue)>, key: string): Option<ParamValue> {
    if |ps| == 0 then None
    else if ps[0].0 == key then Some(ps[0].1)
    else Lookup(ps[1..], key)
  }

  /** No parameter name is sent twice. */
  predicate DistinctKeys(ps: seq<(string, ParamValue)>) {
    forall i, j :: 0 <= i < j < |ps| ==> ps[i].0 != ps[j].0
  }

  lemma {:induction false} LookupAppend(a: seq<(string, ParamValue)>, b: seq<(string, ParamValue)>, key: string)
    ensures Lookup(a + b, key) == if Lookup(a, key).Some? then Lookup(a, key) else Lookup(b, key)
    decreases |a|
  {
    if |a| > 0 {
      assert (a + b)[1..] == a[1..] + b;
      LookupAppend(a[1..], b, key);
    } else {
      assert a + b == b;
    }
  }

  lemma {:induction false} LookupAbsent(ps: seq<(string, ParamValue)>, key: string)
    requires forall i :: 0 <= i < |ps| ==> ps[i].0 != key
    ensures Lookup(ps, key) == None
    decreases |ps|
  {
    if |ps| > 0 {
      LookupAbsent(ps[1..], key);
    }
  }

  /** What each parameter of a search carries, and when it is present. */
  lemma SearchParamValues(p: SearchParams)
    ensures Lookup(SearchQueryParams(p), "q") == if Truthy(p.q) then Some(Text(p.q.value)) else None
    ensures Lookup(SearchQueryParams(p), "inVacations") == if p.inVacations.Some? then Some(Flag(p.inVacations.value)) else None
    ensures Lookup(SearchQueryParams(p), "page") == Some(Number(p.page.GetOr(DefaultPage)))
    ensures Lookup(SearchQueryParams(p), "size") == Some(Number(p.size.GetOr(DefaultSize)))
    ensures Lookup(SearchQueryParams(p), "sort") == if Truthy(p.sort) then Some(Text(p.sort.value)) else None
  {
    var a: seq<(string, ParamValue)> := if Truthy(p.q) then [("q", Text(p.q.value))] else [];
    var b: seq<(string, ParamValue)> := if p.inVacations.Some? then [("inVacations", Flag(p.inVacations.value))] else [];
    var c: seq<(string, ParamValue)> := [("page", Number(p.page.GetOr(DefaultPage))), ("size", Number(p.size.GetOr(DefaultSize)))];
    var d: seq<(string, ParamValue)> := if Truthy(p.sort) then [("sort", Text(p.sort.value))] else [];
    assert SearchQueryParams(p) == a + (b + (c + d));
    LookupAbsent(c, "q");
    LookupAbsent(c, "inVacations");
    LookupAbsent(c, "sort");
    LookupFour(a, b, c, d, "q");
    LookupFour(a, b, c, d, "inVacations");
    LookupFour(a, b, c, d, "page");
    LookupFour(a, b, c, d, "size");
    LookupFour(a, b, c, d, "sort");
  }

  lemma LookupFour(a: seq<(string, ParamValue)>, b: seq<(string, ParamValue)>, c: seq<(string, ParamValue)>,
                   d: seq<(string, ParamValue)>, key: string)
    ensures Lookup(a + (b + (c + d)), key)
         == if Lookup(a, key).Some? then Lookup(a, key)
            else if Lookup(b, key).Some? then Lookup(b, key)
            else if Lookup(c, key).Some? then Lookup(c, key)
            else Lookup(d, key)
  {
    LookupAppend(a, b + (c + d), key);
    LookupAppend(b, c + d, key);
    LookupAppend(c, d, key);
  }

  /** Each parameter name appears at most once. */
  lemma SearchParamsDistinct(p: SearchParams)
    ensures DistinctKeys(SearchQueryParams(p))
  {
  }

  /** An explicit `inVacations: false` is sent, not dropped. */
  lemma FalseVacationsIsSent(p: SearchParams)
    requires p.inVacations == Some(false)
    ensures Lookup(SearchQueryParams(p), "inVacations") == Some(Flag(false))
  {
    SearchParamValues(p);
  }
}
