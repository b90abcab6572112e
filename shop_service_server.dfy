/** The server's shop service over an abstract store: shops by id, and for
    every product the shop it belongs to (the owning side of the relation).
    `getShopList` chooses between full-text search and four ordered
    listings; the listings and the search themselves are not modelled, only
    which one is chosen and with what. `parse` stands for LocalDate.parse,
    `today` for the creation timestamp. */
module ShopServer {
  import opened Common
  import opened OpeningHoursValidation
  import opened ShopModel

  /** Which listing answers a list request. */
  datatype Listing =
    | Search(name: Option<string>, inVacations: Option<bool>, after: Option<Date>, before: Option<Date>, sortBy: Option<string>)
    | ByNameAsc
    | ByCreatedAtAsc
    | ByNbProductsAsc
    | ByIdAsc

  /** The characters String.trim removes: every code up to the space. */
  predicate IsTrimmed(c: char) {
    c <= ' '
  }

  function TrimStart(s: string): string
    decreases |s|
  {
    if |s| > 0 && IsTrimmed(s[0]) then TrimStart(s[1..]) else s
  }

  function TrimEnd(s: string): string
    decreases |s|
  {
    if |s| > 0 && IsTrimmed(s[|s| - 1]) then TrimEnd(s[..|s| - 1]) else s
  }

  /** String.trim: both ends stripped of characters up to the space. */
  function Trim(s: string): string {
    TrimEnd(TrimStart(s))
  }

  /** Only characters up to the space: what trims to nothing. */
  predicate Blank(s: string) {
    forall i :: 0 <= i < |s| ==> IsTrimmed(s[i])
  }

  lemma {:induction false} TrimStartEmptyIffBlank(s: string)
    ensures TrimStart(s) == "" <==> Blank(s)
    ensures TrimStart(s) != "" ==> !IsTrimmed(TrimStart(s)[0])
    decreases |s|
  {
    if |s| > 0 && IsTrimmed(s[0]) {
      TrimStartEmptyIffBlank(s[1..]);
      assert Blank(s) <==> Blank(s[1..]) by {
        if Blank(s[1..]) {
          forall i | 0 <= i < |s|
            ensures IsTrimmed(s[i])
          {
            if i > 0 {
              assert s[i] == s[1..][i - 1];
            }
          }
        }
      }
    }
  }

  /** TrimEnd keeps a non-blank first character. */
  lemma {:induction false} TrimEndKeepsFirst(s: string)
    requires |s| > 0 && !IsTrimmed(s[0])
    ensures TrimEnd(s) != ""
    decreases |s|
  {
    if IsTrimmed(s[|s| - 1]) {
      TrimEndKeepsFirst(s[..|s| - 1]);
    }
  }

  /** A name trims to nothing exactly when it is blank. */
  lemma TrimEmptyIffBlank(s: string)
    ensures Trim(s) == "" <==> Blank(s)
  {
    TrimStartEmptyIffBlank(s);
    if TrimStart(s) != "" {
      TrimEndKeepsFirst(TrimStart(s));
    }
  }

  /** A date parameter: absent when missing or when it does not parse. */
  function ParseDate(dateStr: Option<string>, parse: string -> Option<Date>): (d: Option<Date>)
    ensures d.Some? ==> dateStr.Some? && parse(dateStr.value) == d
    ensures dateStr.Some? ==> d == parse(dateStr.value)
  {
    if dateStr.Some? then parse(dateStr.value) else None
  }

  /** The list dispatch: search when a non-blank name, a vacation flag or a
      parseable date is given; otherwise the sort key picks the order, and
      no sort key means id order. */
  function GetShopList(
    sortBy: Option<string>,
    inVacations: Option<bool>,
    createdAfter: Option<string>,
    createdBefore: Option<string>,
    name: Option<string>,
    parse: string -> Option<Date>): Listing
  {
    var afterDate := ParseDate(createdAfter, parse);
    var beforeDate := ParseDate(createdBefore, parse);
    if (name.Some? && Trim(name.value) != "") || inVacations.Some? || afterDate.Some? || beforeDate.Some? then
      Search(name, inVacations, afterDate, beforeDate, sortBy)
    else if sortBy.Some? && sortBy.value != "" then
      if sortBy.value == "name" then ByNameAsc
      else if sortBy.value == "createdAt" then ByCreatedAtAsc
      else ByNbProductsAsc
    else ByIdAsc
  }

  /** Search is chosen exactly when one criterion is given, reading the name
      as given only when it is not blank; the search then receives every
      criterion and the sort key unchanged. */
  lemma SearchIffCriterion(sortBy: Option<string>, inVacations: Option<bool>, createdAfter: Option<string>,
                           createdBefore: Option<string>, name: Option<string>, parse: string -> Option<Date>)
    ensures var l := GetShopList(sortBy, inVacations, createdAfter, createdBefore, name, parse);
            (l.Search? <==> (name.Some? && !Blank(name.value)) || inVacations.Some?
                            || ParseDate(createdAfter, parse).Some? || ParseDate(createdBefore, parse).Some?)
            && (l.Search? ==> l == Search(name, inVacations, ParseDate(createdAfter, parse), ParseDate(createdBefore, parse), sortBy))
  {
    if name.Some? {
      TrimEmptyIffBlank(name.value);
    }
  }

  /** A blank name on its own does not select the search. */
  lemma BlankNameAloneIsNoSearch(sortBy: Option<string>, name: string, parse: string -> Option<Date>)
    requires Blank(name)
    ensures !GetShopList(sortBy, None, None, None, Some(name), parse).Search?
  {
    TrimEmptyIffBlank(name);
  }

  /** A date that does not parse is treated as no date at all. */
  lemma UnparseableDateIsAbsent(sortBy: Option<string>, inVacations: Option<bool>, createdAfter: Option<string>,
                                createdBefore: Option<string>, name: Option<string>, parse: string -> Option<Date>)
    requires createdAfter.Some? && parse(createdAfter.value).None?
    ensures GetShopList(sortBy, inVacations, createdAfter, createdBefore, name, parse)
         == GetShopList(sortBy, inVacations, None, createdBefore, name, parse)
  {
  }

  /** Without search criteria the sort key picks the order: by name, by
      creation date, by product count for any other key, and by id when the
      key is missing or empty. */
  lemma OrderedListings(sortBy: Option<string>, parse: string -> Option<Date>)
    ensures var l := GetShopList(sortBy, None, None, None, None, parse);
            (sortBy == Some("name") ==> l == ByNameAsc)
            && (sortBy == Some("createdAt") ==> l == ByCreatedAtAsc)
            && (sortBy.Some? && sortBy.value !in {"", "name", "createdAt"} ==> l == ByNbProductsAsc)
            && (sortBy.None? || sortBy == Some("") ==> l == ByIdAsc)
  {
  }

  /** Any search criterion overrides the sort key. */
  lemma SearchOverridesSort(sortBy: Option<string>, inVacations: bool, parse: string -> Option<Date>)
    ensures GetShopList(sortBy, Some(inVacations), None, None, None, parse) == Search(None, Some(inVacations), None, None, sortBy)
  {
  }

  /** Why a service call failed. */
  datatype ServiceError = NotFound(id: int) | ConstraintViolation(violations: set<string>)

  /** The message the service's failure carries. */
  function NotFoundMessage(id: int): string {
    "Shop with id " + IntToString(id) + " not found"
  }

  /** The middle of a three-part string is recovered by slicing. */
  lemma MiddleOf(p: string, a: string, q: string)
    ensures (p + a + q)[|p|..|p| + |a|] == a
  {
    assert forall k :: 0 <= k < |a| ==> (p + a + q)[|p| + k] == a[k];
  }

  /** Different ids give different not-found messages. */
  lemma NotFoundMessageNamesId(i: int, j: int)
    requires NotFoundMessage(i) == NotFoundMessage(j)
    ensures i == j
  {
    var p := "Shop with id ";
    var q := " not found";
    var a, b := IntToString(i), IntToString(j);
    var m := NotFoundMessage(i);
    assert |m| == |p| + |a| + |q|;
    assert |NotFoundMessage(j)| == |p| + |b| + |q|;
    MiddleOf(p, a, q);
    MiddleOf(p, b, q);
    assert a == m[|p|..|p| + |a|];
    assert b == m[|p|..|p| + |b|];
    IntToStringInjective(i, j);
  }

  /** The store: shops by id, each product's shop, and the next id the
      sequence hands out. */
  datatype Store = Store(shops: map<int, Shop>, productShop: map<int, Option<int>>, nextId: int)

  const EmptyStore: Store := Store(map[], map[], 1)

  /** What the store keeps true: each shop is stored under its own id, was
      created, and satisfies the constraints; ids below the sequence; a
      product's shop is a stored shop. */
  ghost predicate StoreValid(st: Store) {
    st.nextId >= 1
    && (forall id :: id in st.shops ==> 1 <= id < st.nextId && st.shops[id].id == id
                                        && st.shops[id].createdAt.Some? && ShopValid(st.shops[id]))
    && (forall p :: p in st.productShop && st.productShop[p].Some? ==> st.productShop[p].value in st.shops)
  }

  /** The products of a shop: those whose shop is it. */
  function ProductsOf(productShop: map<int, Option<int>>, id: int): set<int> {
    set p | p in productShop && productShop[p] == Some(id)
  }

  function FindById(st: Store, id: int): (r: Result<Shop, ServiceError>)
    ensures r.Ok? <==> id in st.shops
    ensures r.Ok? ==> r.value == st.shops[id]
    ensures r.Err? ==> r.error == NotFound(id)
  {
    if id in st.shops then Ok(st.shops[id]) else Err(NotFound(id))
  }

  /** Saving: a shop violating a constraint is refused and nothing changes;
      a shop whose id is stored replaces it but keeps its creation date; any
      other shop is inserted under the next id, created today. The saved
      shop is returned as stored. */
  function Save(st: Store, shop: Shop, today: Date): (Store, Result<Shop, ServiceError>) {
    if !ShopValid(shop) then (st, Err(ConstraintViolation(Violations(shop))))
    else if shop.id in st.shops then
      var saved := shop.(createdAt := st.shops[shop.id].createdAt);
      (st.(shops := st.shops[shop.id := saved]), Ok(saved))
    else
      var saved := shop.(id := st.nextId, createdAt := Some(today));
      (st.(shops := st.shops[st.nextId := saved], nextId := st.nextId + 1), Ok(saved))
  }

  /** Updating: an id that is not stored fails and saves nothing; otherwise
      it is a save. */
  function Update(st: Store, shop: Shop, today: Date): (Store, Result<Shop, ServiceError>) {
    if shop.id !in st.shops then (st, Err(NotFound(shop.id))) else Save(st, shop, today)
  }

  /** Every product of shop `id` loses its shop; the others keep theirs. */
  function Detach(productShop: map<int, Option<int>>, id: int): map<int, Option<int>> {
    map p | p in productShop :: if productShop[p] == Some(id) then None else productShop[p]
  }

  /** Deleting: an id that is not stored fails and changes nothing;
      otherwise the shop's products are detached and the shop removed. */
  function DeleteById(st: Store, id: int): (Store, Option<ServiceError>) {
    if id !in st.shops then (st, Some(NotFound(id)))
    else (Store(st.shops - {id}, Detach(st.productShop, id), st.nextId), None)
  }

  /** Saving keeps the store valid. */
  lemma SaveKeepsValid(st: Store, shop: Shop, today: Date)
    requires StoreValid(st)
    ensures StoreValid(Save(st, shop, today).0)
  {
  }

  /** Round trip: a saved shop is found under the id it was returned with,
      as it was returned. */
  lemma SaveThenFind(st: Store, shop: Shop, today: Date)
    requires Save(st, shop, today).1.Ok?
    ensures var (st1, r) := Save(st, shop, today);
            FindById(st1, r.value.id) == Ok(r.value)
  {
  }

  /** A refused save changes nothing and reports every violated
      constraint. */
  lemma InvalidSaveChangesNothing(st: Store, shop: Shop, today: Date)
    requires !ShopValid(shop)
    ensures Save(st, shop, today) == (st, Err(ConstraintViolation(Violations(shop))))
    ensures Violations(shop) != {}
  {
    ViolationsIffInvalid(shop);
  }

  /** A newly inserted shop has no products. */
  lemma InsertedShopHasNoProducts(st: Store, shop: Shop, today: Date)
    requires StoreValid(st)
    requires ShopValid(shop) && shop.id !in st.shops
    ensures var (st1, r) := Save(st, shop, today);
            r.Ok? && ProductsOf(st1.productShop, r.value.id) == {}
  {
    var newId := st.nextId;
    assert newId !in st.shops;
    assert forall p :: p in st.productShop ==> st.productShop[p] != Some(newId);
  }

  /** Updating an unknown id fails with its not-found error and saves
      nothing; a stored one is refused with its violations when it breaks a
      constraint, and otherwise replaces the stored shop under the same id,
      keeping its creation date, with everything else unchanged. */
  lemma UpdateOutcome(st: Store, shop: Shop, today: Date)
    ensures shop.id !in st.shops ==> Update(st, shop, today) == (st, Err(NotFound(shop.id)))
    ensures shop.id in st.shops && !ShopValid(shop) ==>
              Update(st, shop, today) == (st, Err(ConstraintViolation(Violations(shop))))
    ensures shop.id in st.shops && ShopValid(shop) ==>
              var saved := shop.(createdAt := st.shops[shop.id].createdAt);
              Update(st, shop, today) == (st.(shops := st.shops[shop.id := saved]), Ok(saved))
  {
  }

  /** After a delete no product references the shop, products of other
      shops keep theirs, no product is removed, and the other shops stay. */
  lemma DeleteDetachesEverything(st: Store, id: int)
    requires id in st.shops
    ensures var st1 := DeleteById(st, id).0;
            id !in st1.shops
            && (forall other :: other in st.shops && other != id ==> other in st1.shops && st1.shops[other] == st.shops[other])
            && st1.productShop.Keys == st.productShop.Keys
            && ProductsOf(st1.productShop, id) == {}
            && (forall p :: p in st.productShop && st.productShop[p] != Some(id) ==> st1.productShop[p] == st.productShop[p])
  {
    var st1 := DeleteById(st, id).0;
    assert forall p :: p in st1.productShop ==> st1.productShop[p] != Some(id);
  }

  /** Deleting keeps the store valid. */
  lemma DeleteKeepsValid(st: Store, id: int)
    requires StoreValid(st)
    ensures StoreValid(DeleteById(st, id).0)
  {
  }

  class ShopService {
    var shops: map<int, Shop>
    var productShop: map<int, Option<int>>
    var nextId: int

    function State(): Store
      reads this
    {
      Store(shops, productShop, nextId)
    }

    constructor ()
      ensures State() == EmptyStore
    {
      shops := map[];
      productShop := map[];
      nextId := 1;
    }

    method GetShopById(id: int) returns (r: Result<Shop, ServiceError>)
      ensures r == FindById(State(), id)
    {
      if id in shops {
        r := Ok(shops[id]);
      } else {
        r := Err(NotFound(id));
      }
    }

    method CreateShop(shop: Shop, today: Date) returns (r: Result<Shop, ServiceError>)
      modifies this
      ensures (State(), r) == Save(old(State()), shop, today)
    {
      if !ShopValid(shop) {
        return Err(ConstraintViolation(Violations(shop)));
      }
      var saved: Shop;
      if shop.id in shops {
        saved := shop.(createdAt := shops[shop.id].createdAt);
      } else {
        saved := shop.(id := nextId, createdAt := Some(today));
        nextId := nextId + 1;
      }
      shops := shops[saved.id := saved];
      r := Ok(saved);
    }

    method UpdateShop(shop: Shop, today: Date) returns (r: Result<Shop, ServiceError>)
      modifies this
      ensures (State(), r) == Update(old(State()), shop, today)
    {
      var found := GetShopById(shop.id);
      if found.Err? {
        return Err(found.error);
      }
      r := CreateShop(shop, today);
    }

    /** Each product of the shop has its shop cleared, one at a time. */
    method DeleteNestedRelations(id: int)
      modifies this`productShop
      ensures productShop == Detach(old(productShop), id)
    {
      var products := set p | p in productShop && productShop[p] == Some(id);
      ghost var all := products;
      while products != {}
        invariant products <= all
        invariant productShop.Keys == old(productShop).Keys
        invariant forall p :: p in productShop && p in products ==> productShop[p] == Some(id)
        invariant forall p :: p in productShop && p in all && p !in products ==> productShop[p] == None
        invariant forall p :: p in productShop && p !in all ==> productShop[p] == old(productShop)[p]
        invariant all == set p | p in old(productShop) && old(productShop)[p] == Some(id)
        decreases products
      {
        if forall x :: x !in products {
          assert false;
        }
        var product :| product in products;
        productShop := productShop[product := None];
        products := products - {product};
      }
      assert productShop.Keys == Detach(old(productShop), id).Keys;
      assert forall p :: p in productShop ==> productShop[p] == Detach(old(productShop), id)[p];
    }

    method DeleteShopById(id: int) returns (err: Option<ServiceError>)
      modifies this
      ensures (State(), err) == DeleteById(old(State()), id)
    {
      var found := GetShopById(id);
      if found.Err? {
        return Some(found.error);
      }
      DeleteNestedRelations(id);
      shops := shops - {id};
      err := None;
    }
  }
}
