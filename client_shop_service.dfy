/** The client's shop service: one HTTP request per exported function, with
    the URL built by string concatenation from the API origin `api`
    (the build-time VITE_API setting). */
module ClientShopService {
  import opened Common
  import opened ClientTypes

  const IdRequiredMessage: string := "L'id est requis pour la modification"

  /** The list query a shops-list URL carries: page, size, and whatever is
      written after the size. */
  datatype ListQuery = ListQuery(page: int, size: int, rest: string)

  function GetShops(api: string, page: int, size: int): (r: HttpRequest)
    ensures r.verb == Get && r.body == None
  {
    HttpRequest(Get, api + "/shops?page=" + IntToString(page) + "&size=" + IntToString(size), None)
  }

  function GetShopsSorted(api: string, page: int, size: int, sort: string): (r: HttpRequest)
    ensures r.verb == Get && r.body == None
  {
    HttpRequest(Get, api + "/shops?page=" + IntToString(page) + "&size=" + IntToString(size) + "&sortBy=" + sort, None)
  }

  /** `urlFilters` is appended verbatim: no separator is inserted. */
  function GetShopsFiltered(api: string, page: int, size: int, urlFilters: string): (r: HttpRequest)
    ensures r.verb == Get && r.body == None
  {
    HttpRequest(Get, api + "/shops?page=" + IntToString(page) + "&size=" + IntToString(size) + urlFilters, None)
  }

  function GetShopsWithParams(api: string, queryString: string): (r: HttpRequest)
    ensures r.verb == Get && r.body == None
  {
    HttpRequest(Get, api + "/shops?" + queryString, None)
  }

  function GetShop(api: string, id: string): (r: HttpRequest)
    ensures r.verb == Get && r.body == None
  {
    HttpRequest(Get, api + "/shops/" + id, None)
  }

  function CreateShop(api: string, shop: Shop): (r: HttpRequest)
    ensures r.verb == Post && r.body == Some(shop)
  {
    HttpRequest(Post, api + "/shops", Some(shop))
  }

  /** Throws before any request when the shop has no id (an absent or empty
      id is falsy). */
  function EditShop(api: string, shop: Shop): (r: Result<HttpRequest, string>)
    ensures r.Err? <==> !Truthy(shop.id)
    ensures r.Err? ==> r.error == IdRequiredMessage
    ensures r.Ok? ==> r.value.verb == Put && r.value.body == Some(shop)
  {
    if !Truthy(shop.id) then Err(IdRequiredMessage)
    else Ok(HttpRequest(Put, api + "/shops", Some(shop)))
  }

  function DeleteShop(api: string, id: string): (r: HttpRequest)
    ensures r.verb == Delete && r.body == None
  {
    HttpRequest(Delete, api + "/shops/" + id, None)
  }

  predicate HasPrefix(s: string, p: string) {
    |p| <= |s| && s[..|p|] == p
  }

  /** Reads a shops-list URL back: the origin and "/shops?page=", a page
      literal, "&size=", a size literal, then the rest. */
  function ParseShopsUrl(api: string, url: string): Option<ListQuery> {
    var head := api + "/shops?page=";
    if !HasPrefix(url, head) then None
    else
      var r := url[|head|..];
      var k := SpanInt(r);
      var afterPage := r[k..];
      if !HasPrefix(afterPage, "&size=") then None
      else
        var r2 := afterPage[6..];
        var m := SpanInt(r2);
        match (ParseInt(r[..k]), ParseInt(r2[..m]))
        case (Some(p), Some(s)) => Some(ListQuery(p, s, r2[m..]))
        case _ => None
  }

  /** Reads a single-shop URL back to the id it names. */
  function ParseShopUrl(api: string, url: string): Option<string> {
    var head := api + "/shops/";
    if HasPrefix(url, head) then Some(url[|head|..]) else None
  }

  /** The URL of a list query is read back as the page, the size and the
      appended text, provided that text does not start with a digit. */
  lemma ParseListUrl(api: string, page: int, size: int, rest: string)
    requires rest == [] || !IsDigit(rest[0])
    ensures ParseShopsUrl(api, api + "/shops?page=" + IntToString(page) + "&size=" + IntToString(size) + rest)
            == Some(ListQuery(page, size, rest))
  {
    var head := api + "/shops?page=";
    var P, S := IntToString(page), IntToString(size);
    var url := api + "/shops?page=" + P + "&size=" + S + rest;
    assert url == head + (P + ("&size=" + (S + rest)));
    assert HasPrefix(url, head);
    var r := url[|head|..];
    assert r == P + ("&size=" + (S + rest));
    SpanIntOfIntToString(page, "&size=" + (S + rest));
    var k := SpanInt(r);
    assert k == |P|;
    assert r[..k] == P;
    var afterPage := r[k..];
    assert afterPage == "&size=" + (S + rest);
    assert HasPrefix(afterPage, "&size=");
    var r2 := afterPage[6..];
    assert r2 == S + rest;
    SpanIntOfIntToString(size, rest);
    var m := SpanInt(r2);
    assert r2[..m] == S && r2[m..] == rest;
    ParseIntToString(page);
    ParseIntToString(size);
  }

  /** getShops: the plain list URL carries the page and the size and nothing else. */
  lemma GetShopsUrl(api: string, page: int, size: int)
    ensures ParseShopsUrl(api, GetShops(api, page, size).url) == Some(ListQuery(page, size, ""))
  {
    ParseListUrl(api, page, size, "");
    assert GetShops(api, page, size).url == api + "/shops?page=" + IntToString(page) + "&size=" + IntToString(size) + "";
  }

  /** getShopsSorted: the list URL followed by "&sortBy=" and the sort key. */
  lemma GetShopsSortedUrl(api: string, page: int, size: int, sort: string)
    ensures ParseShopsUrl(api, GetShopsSorted(api, page, size, sort).url) == Some(ListQuery(page, size, "&sortBy=" + sort))
  {
    var rest := "&sortBy=" + sort;
    assert rest[0] == '&';
    assert GetShopsSorted(api, page, size, sort).url
        == api + "/shops?page=" + IntToString(page) + "&size=" + IntToString(size) + rest;
    ParseListUrl(api, page, size, rest);
  }

  /** getShopsFiltered: the filter text follows the size unchanged, which
      reads back whenever it does not start with a digit. */
  lemma GetShopsFilteredUrl(api: string, page: int, size: int, urlFilters: string)
    requires urlFilters == [] || !IsDigit(urlFilters[0])
    ensures ParseShopsUrl(api, GetShopsFiltered(api, page, size, urlFilters).url) == Some(ListQuery(page, size, urlFilters))
  {
    ParseListUrl(api, page, size, urlFilters);
  }

  /** The digits at the head of the filtered URL's tail: "0" before
      "&size=", "95" at the end. */
  lemma ConcreteSpans()
    ensures SpanInt("0&size=95") == 1
    ensures SpanInt("95") == 2
  {
    assert "0&size=95"[1..] == "&size=95";
    assert SpanDigits("&size=95") == 0;
    assert "95"[1..] == "5" && "5"[1..] == "";
    assert SpanDigits("5") == 1;
  }

  /** The literals read back as the numbers they spell. */
  lemma ConcreteNumbers()
    ensures ParseInt("0") == Some(0)
    ensures ParseInt("95") == Some(95)
  {
    assert ParseNat("95") == ParseNat("9") * 10 + 5;
  }

  /** Because no separator is inserted, a filter text that starts with a
      digit runs into the size: size 9 followed by "5" reads as size 95. */
  lemma FilteredWithoutSeparator(api: string)
    ensures ParseShopsUrl(api, GetShopsFiltered(api, 0, 9, "5").url) == Some(ListQuery(0, 95, ""))
  {
    var head := api + "/shops?page=";
    assert IntToString(0) == "0" && IntToString(9) == "9";
    var url := GetShopsFiltered(api, 0, 9, "5").url;
    assert url == head + "0&size=95";
    assert HasPrefix(url, head);
    var r := url[|head|..];
    assert r == "0&size=95";
    ConcreteSpans();
    ConcreteNumbers();
    var afterPage := r[1..];
    assert afterPage == "&size=95";
    assert HasPrefix(afterPage, "&size=");
    var r2 := afterPage[6..];
    assert r2 == "95";
    assert r[..1] == "0" && r2[..2] == "95" && r2[2..] == "";
  }

  /** getShops is getShopsWithParams with the page and size query string. */
  lemma GetShopsIsWithParams(api: string, page: int, size: int)
    ensures GetShops(api, page, size) == GetShopsWithParams(api, "page=" + IntToString(page) + "&size=" + IntToString(size))
  {
    var P, S := IntToString(page), IntToString(size);
    var qs := "page=" + P + "&size=" + S;
    assert "/shops?page=" == "/shops?" + "page=";
    assert "page=" + P + "&size=" + S == qs;
    assert api + ("/shops?" + "page=") + P + "&size=" + S == api + "/shops?" + qs;
  }

  /** getShop and deleteShop address the shop whose id is given. */
  lemma SingleShopUrls(api: string, id: string)
    ensures ParseShopUrl(api, GetShop(api, id).url) == Some(id)
    ensures ParseShopUrl(api, DeleteShop(api, id).url) == Some(id)
    ensures GetShop(api, id).url == DeleteShop(api, id).url
  {
    var head := api + "/shops/";
    assert GetShop(api, id).url == head + id;
    assert (head + id)[..|head|] == head && (head + id)[|head|..] == id;
  }

  /** createShop and editShop both target the collection URL; a shop with an
      id is edited with the same body that creating it would send. */
  lemma EditTargetsCollection(api: string, shop: Shop)
    requires Truthy(shop.id)
    ensures EditShop(api, shop) == Ok(CreateShop(api, shop).(verb := Put))
  {
  }
}
