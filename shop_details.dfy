/** The shop detail page: the shop named by the route is loaded and its
    opening hours are sorted in place by day number before display; day
    numbers are shown through a fixed table; deleting reports its outcome
    through the toast context. */
module ShopDetailsPage {
  import opened Common
  import opened ClientTypes
  import ClientShopService
  import ToastContext

  const DeletedMessage: string := "La boutique a bien été supprimée"
  const DeleteFailedMessage: string := "Une erreur est survenue lors de la suppresion"

  /** The DAY table: day numbers 1 to 7, Monday first; any other number
      has no entry. */
  function DayName(day: int): (name: Option<string>)
    ensures name.Some? <==> 1 <= day <= 7
  {
    if day == 1 then Some("Lundi")
    else if day == 2 then Some("Mardi")
    else if day == 3 then Some("Mercredi")
    else if day == 4 then Some("Jeudi")
    else if day == 5 then Some("Vendredi")
    else if day == 6 then Some("Samedi")
    else if day == 7 then Some("Dimanche")
    else None
  }

  /** Distinct days have distinct names, Monday is 1 and Sunday is 7. */
  lemma DayNamesDistinct(d1: int, d2: int)
    requires 1 <= d1 <= 7 && 1 <= d2 <= 7 && d1 != d2
    ensures DayName(d1) != DayName(d2)
    ensures DayName(1) == Some("Lundi") && DayName(7) == Some("Dimanche")
  {
  }

  /** Entries appear in non-decreasing order of their day number. */
  ghost predicate SortedByDay(s: seq<Hours>) {
    forall i, j :: 0 <= i < j < |s| ==> s[i].day <= s[j].day
  }

  /** Exchanges two entries; every other entry stays where it is. */
  method Swap(a: array<Hours>, x: int, y: int)
    requires 0 <= x < a.Length && 0 <= y < a.Length
    modifies a
    ensures a[x] == old(a[y]) && a[y] == old(a[x])
    ensures forall k :: 0 <= k < a.Length && k != x && k != y ==> a[k] == old(a[k])
    ensures multiset(a[..]) == multiset(old(a[..]))
  {
    a[x], a[y] := a[y], a[x];
  }

  /** Moves `a[i]` back past the larger days by adjacent swaps, so that a
      prefix sorted up to `i` becomes sorted up to `i + 1`. */
  method InsertDown(a: array<Hours>, i: int)
    requires 0 <= i < a.Length
    requires forall k, l :: 0 <= k < l < i ==> a[k].day <= a[l].day
    modifies a
    ensures forall k, l :: 0 <= k < l <= i ==> a[k].day <= a[l].day
    ensures multiset(a[..]) == multiset(old(a[..]))
  {
    var j := i;
    while j > 0 && a[j - 1].day > a[j].day
      invariant 0 <= j <= i
      invariant forall k, l :: 0 <= k < l <= i && k != j && l != j ==> a[k].day <= a[l].day
      invariant forall l :: j < l <= i ==> a[j].day < a[l].day
      invariant multiset(a[..]) == multiset(old(a[..]))
      decreases j
    {
      Swap(a, j - 1, j);
      j := j - 1;
    }
  }

  /** The in-place sort of the fetched opening hours by day (an insertion
      sort: adjacent swaps move each entry back past the larger days). */
  method SortByDay(a: array<Hours>)
    modifies a
    ensures SortedByDay(a[..])
    ensures multiset(a[..]) == multiset(old(a[..]))
  {
    var i := 0;
    while i < a.Length
      invariant 0 <= i <= a.Length
      invariant forall k, l :: 0 <= k < l < i ==> a[k].day <= a[l].day
      invariant multiset(a[..]) == multiset(old(a[..]))
    {
      InsertDown(a, i);
      i := i + 1;
    }
  }

  /** The toast after a delete settles. */
  function DeleteToast(o: Settled<Shop>): (t: Toast)
    ensures t.severity == Success <==> o.Fulfilled?
    ensures t.severity == Error <==> o.Rejected?
    ensures t.message != ""
  {
    if o.Fulfilled? then Toast(Success, DeletedMessage) else Toast(Error, DeleteFailedMessage)
  }

  class ShopDetails {
    /** The displayed shop, once loaded. */
    var shop: Option<Shop>
    var loading: bool
    const routeId: Option<string>
    const api: string
    const toasts: ToastContext.ToastProvider

    constructor (routeId: Option<string>, api: string, toasts: ToastContext.ToastProvider)
      ensures this.routeId == routeId && this.api == api && this.toasts == toasts
      ensures shop == None && !loading
    {
      this.routeId := routeId;
      this.api := api;
      this.toasts := toasts;
      shop := None;
      loading := false;
    }

    /** The load effect runs only when the route has an id. */
    method Mount() returns (req: Option<HttpRequest>)
      ensures req.Some? <==> Truthy(routeId)
      ensures req.Some? ==> req.value == ClientShopService.GetShop(api, routeId.value)
    {
      req := if Truthy(routeId) then Some(ClientShopService.GetShop(api, routeId.value)) else None;
    }

    /** The loaded shop is displayed with its opening hours sorted by day;
        the entries are the fetched ones, rearranged. A failed load shows
        nothing new. */
    method ReceiveShop(o: Settled<Shop>)
      modifies this`shop
      ensures o.Rejected? ==> shop == old(shop)
      ensures o.Fulfilled? ==> shop.Some? && shop.value.(openingHours := o.value.openingHours) == o.value
      ensures o.Fulfilled? ==> SortedByDay(shop.value.openingHours)
                               && multiset(shop.value.openingHours) == multiset(o.value.openingHours)
    {
      if o.Fulfilled? {
        var hs := o.value.openingHours;
        var a := new Hours[|hs|](k requires 0 <= k < |hs| => hs[k]);
        assert a[..] == hs;
        SortByDay(a);
        shop := Some(o.value.(openingHours := a[..]));
      }
    }

    /** The delete handler: loading is set first, whether or not a request
        follows; only a route id leads to the delete request. */
    method HandleDelete() returns (req: Option<HttpRequest>)
      modifies this`loading
      ensures loading
      ensures req.Some? <==> Truthy(routeId)
      ensures req.Some? ==> req.value == ClientShopService.DeleteShop(api, routeId.value)
    {
      loading := true;
      req := None;
      if Truthy(routeId) {
        req := Some(ClientShopService.DeleteShop(api, routeId.value));
      }
    }

    /** The delete settling: home after a success, the outcome's toast
        either way, and loading ends. */
    method SettleDelete(o: Settled<Shop>) returns (nav: Option<string>)
      modifies this`loading, toasts, toasts.toaster
      ensures nav == if o.Fulfilled? then Some("/") else None
      ensures toasts.State() == ToastContext.ProviderStep(old(toasts.State()), ToastContext.ContextWrite(DeleteToast(o)))
      ensures !loading
    {
      nav := if o.Fulfilled? then Some("/") else None;
      toasts.SetToast(DeleteToast(o));
      loading := false;
    }
  }
}
