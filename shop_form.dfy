/** The shop creation and edition form. The route's `id` decides the mode:
    without one the form creates a shop, with one it loads that shop and
    edits it. The opening hours are edited by index, appended with a
    default entry and removed by index; submitting validates the name
    first. Outcomes are reported through the toast context and navigation. */
module ShopFormPage {
  import opened Common
  import opened ClientTypes
  import ClientShopService
  import ToastContext
  import ToasterView

  const RequiredMessage: string := "Ce champ est requis"
  const CreatedMessage: string := "La boutique a bien été créée"
  const EditedMessage: string := "La boutique a bien été modifiée"
  const CreateFailedMessage: string := "Une erreur est survenue lors de la création"
  const EditFailedMessage: string := "Une erreur est survenue lors de la modification"

  /** A new form: empty name, not on vacation, no opening hours. */
  const InitialShop: Shop := Shop(None, "", false, [])

  /** The entry "add hours" appends: Monday, 09:00 to 18:00. */
  const DefaultHours: Hours := Hours(1, Some("09:00:00"), Some("18:00:00"))

  /** The form's error record: one message per validated field, empty when
      the field is fine. */
  datatype FormErrors = FormErrors(name: string)

  function Schema(shop: Shop): (e: FormErrors)
    ensures e.name == "" <==> shop.name != ""
    ensures e.name != "" ==> e.name == RequiredMessage
  {
    FormErrors(if shop.name != "" then "" else RequiredMessage)
  }

  /** Every error of the record is empty. */
  predicate NoErrors(e: FormErrors) {
    e.name == ""
  }

  /** A form validates exactly when the shop has a name. */
  lemma ValidIffNamed(shop: Shop)
    ensures NoErrors(Schema(shop)) <==> shop.name != ""
  {
  }

  /** One field of an opening-hours entry set to a new value; the time
      pickers may clear a time. */
  datatype HoursEdit = SetDay(day: int) | SetOpenAt(openAt: Option<string>) | SetCloseAt(closeAt: Option<string>)

  function ApplyEdit(h: Hours, e: HoursEdit): (r: Hours)
    ensures e.SetDay? ==> r == Hours(e.day, h.openAt, h.closeAt)
    ensures e.SetOpenAt? ==> r == Hours(h.day, e.openAt, h.closeAt)
    ensures e.SetCloseAt? ==> r == Hours(h.day, h.openAt, e.closeAt)
  {
    match e
    case SetDay(d) => h.(day := d)
    case SetOpenAt(t) => h.(openAt := t)
    case SetCloseAt(t) => h.(closeAt := t)
  }

  /** The list with the entry at `index` edited. */
  function EditAt(hs: seq<Hours>, index: nat, e: HoursEdit): (r: seq<Hours>)
    requires index < |hs|
  {
    hs[index := ApplyEdit(hs[index], e)]
  }

  /** Editing one entry keeps the length, changes that entry's one field,
      and keeps every other entry. */
  lemma EditAtChangesOneEntry(hs: seq<Hours>, index: nat, e: HoursEdit)
    requires index < |hs|
    ensures |EditAt(hs, index, e)| == |hs|
    ensures EditAt(hs, index, e)[index] == ApplyEdit(hs[index], e)
    ensures forall j :: 0 <= j < |hs| && j != index ==> EditAt(hs, index, e)[j] == hs[j]
  {
  }

  /** The list without the entries at position `index`, keeping the order
      of the rest: the filter on the position the form applies. */
  function Without<T>(s: seq<T>, index: int): seq<T>
    decreases |s|
  {
    if |s| == 0 then []
    else Without(s[..|s| - 1], index) + (if |s| - 1 != index then [s[|s| - 1]] else [])
  }

  /** Removing entry `index` of the list leaves the entries before it and
      the entries after it, in order; an index outside the list leaves it
      unchanged. */
  lemma {:induction false} WithoutRemovesOne<T>(s: seq<T>, index: int)
    ensures 0 <= index < |s| ==> Without(s, index) == s[..index] + s[index + 1..]
    ensures !(0 <= index < |s|) ==> Without(s, index) == s
    decreases |s|
  {
    if |s| > 0 {
      var init, last := s[..|s| - 1], s[|s| - 1];
      WithoutRemovesOne(init, index);
      if index == |s| - 1 {
        assert init == s[..index] && s[index + 1..] == [];
      } else if 0 <= index < |s| - 1 {
        assert init[..index] == s[..index];
        assert init[index + 1..] + [last] == s[index + 1..];
      } else {
        assert init + [last] == s;
      }
    }
  }

  /** Adding an entry and then removing it gives back the list. */
  lemma AddThenRemoveLast(hs: seq<Hours>)
    ensures Without(hs + [DefaultHours], |hs|) == hs
  {
    WithoutRemovesOne(hs + [DefaultHours], |hs|);
    assert (hs + [DefaultHours])[..|hs|] == hs;
  }

  /** What a submit does: nothing when the form is invalid; otherwise in add
      mode a creation request, and in edit mode an edition request, or the
      service's error when the shop carries no id. */
  datatype Submission = NotSubmitted | Issued(request: HttpRequest) | Thrown(message: string)

  function SubmitOutcome(api: string, routeId: Option<string>, shop: Shop): Submission {
    if !NoErrors(Schema(shop)) then NotSubmitted
    else if !Truthy(routeId) then Issued(ClientShopService.CreateShop(api, shop))
    else
      match ClientShopService.EditShop(api, shop)
      case Ok(req) => Issued(req)
      case Err(m) => Thrown(m)
  }

  /** A nameless shop is never sent; a named one always leads to a request
      or, in edit mode without a shop id, to the service's error. */
  lemma SubmitRequiresName(api: string, routeId: Option<string>, shop: Shop)
    ensures SubmitOutcome(api, routeId, shop).NotSubmitted? <==> shop.name == ""
    ensures SubmitOutcome(api, routeId, shop).Thrown? <==> shop.name != "" && Truthy(routeId) && !Truthy(shop.id)
    ensures SubmitOutcome(api, routeId, shop).Thrown? ==> SubmitOutcome(api, routeId, shop).message == ClientShopService.IdRequiredMessage
  {
  }

  /** In add mode a named shop is posted to the collection as it is. */
  lemma AddModeCreates(api: string, shop: Shop)
    requires shop.name != ""
    ensures SubmitOutcome(api, None, shop) == Issued(HttpRequest(Post, api + "/shops", Some(shop)))
  {
  }

  /** In edit mode a named shop with an id is put to the collection as it
      is. */
  lemma EditModeEdits(api: string, routeId: string, shop: Shop)
    requires routeId != "" && shop.name != "" && Truthy(shop.id)
    ensures SubmitOutcome(api, Some(routeId), shop) == Issued(HttpRequest(Put, api + "/shops", Some(shop)))
  {
  }

  /** The toast after the request settles: a success message for the mode,
      or the server's message, or the mode's fallback. */
  function SubmitToast(addMode: bool, o: Settled<Shop>): (t: Toast)
    ensures o.Fulfilled? ==> t == Toast(Success, if addMode then CreatedMessage else EditedMessage)
    ensures o.Rejected? && ServerMessage(o.error).Some? ==> t == Toast(Error, ServerMessage(o.error).value)
    ensures o.Rejected? && ServerMessage(o.error).None? ==> t == Toast(Error, if addMode then CreateFailedMessage else EditFailedMessage)
  {
    match o
    case Fulfilled(_) => Toast(Success, if addMode then CreatedMessage else EditedMessage)
    case Rejected(e) => Toast(Error, ServerMessage(e).GetOr(if addMode then CreateFailedMessage else EditFailedMessage))
  }

  /** Where the form navigates once the request settles: home after a
      creation, the shop's page after an edition, nowhere after a failure. */
  function SubmitNavigation(addMode: bool, routeId: Option<string>, o: Settled<Shop>): (nav: Option<string>)
    ensures nav.Some? <==> o.Fulfilled?
  {
    if o.Rejected? then None
    else if addMode then Some("/")
    else Some("/shop/" + routeId.GetOr(""))
  }

  /** The toast of a settled submit is never empty, so it always opens the
      toaster. */
  lemma SubmitToastOpensToaster(addMode: bool, o: Settled<Shop>, open: bool)
    ensures SubmitToast(addMode, o).message != ""
    ensures ToasterView.OpenStep(open, ToasterView.ToastChanged(SubmitToast(addMode, o)))
  {
  }

  class ShopForm {
    var shop: Shop
    var errors: Option<FormErrors>
    var loading: bool
    /** The route's id parameter. */
    const routeId: Option<string>
    const api: string
    const toasts: ToastContext.ToastProvider

    /** Add mode is the absence of a (non-empty) route id. */
    predicate IsAddMode()
    {
      !Truthy(routeId)
    }

    constructor (routeId: Option<string>, api: string, toasts: ToastContext.ToastProvider)
      ensures this.routeId == routeId && this.api == api && this.toasts == toasts
      ensures shop == InitialShop && errors == None && !loading
    {
      this.routeId := routeId;
      this.api := api;
      this.toasts := toasts;
      shop := InitialShop;
      errors := None;
      loading := false;
    }

    /** The load effect: in edit mode the shop is requested. */
    method Mount() returns (req: Option<HttpRequest>)
      modifies this`loading
      ensures req.Some? <==> !IsAddMode()
      ensures req.Some? ==> req.value == ClientShopService.GetShop(api, routeId.value) && loading
      ensures req.None? ==> loading == old(loading)
    {
      req := None;
      if !IsAddMode() {
        loading := true;
        req := Some(ClientShopService.GetShop(api, routeId.value));
      }
    }

    /** The loaded shop fills the form, with the route's id as its id. */
    method ReceiveLoaded(o: Settled<Shop>)
      modifies this`shop, this`loading
      ensures o.Fulfilled? ==> shop == o.value.(id := routeId)
      ensures o.Rejected? ==> shop == old(shop)
      ensures !loading
    {
      if o.Fulfilled? {
        shop := o.value.(id := routeId);
      }
      loading := false;
    }

    method HandleChange(index: nat, e: HoursEdit)
      requires index < |shop.openingHours|
      modifies this`shop
      ensures shop == old(shop).(openingHours := EditAt(old(shop.openingHours), index, e))
    {
      var openingHours := shop.openingHours;
      var openingHour := ApplyEdit(openingHours[index], e);
      openingHours := openingHours[index := openingHour];
      shop := shop.(openingHours := openingHours);
    }

    method HandleClickAddHours()
      modifies this`shop
      ensures shop == old(shop).(openingHours := old(shop.openingHours) + [DefaultHours])
    {
      shop := shop.(openingHours := shop.openingHours + [DefaultHours]);
    }

    method HandleClickClearHours(index: int)
      modifies this`shop
      ensures shop == old(shop).(openingHours := Without(old(shop.openingHours), index))
    {
      shop := shop.(openingHours := Without(shop.openingHours, index));
    }

    /** Validation stores the error record and says whether it is clean. */
    method Validate() returns (ok: bool)
      modifies this`errors
      ensures errors == Some(Schema(shop))
      ensures ok <==> shop.name != ""
    {
      var validationErrors := Schema(shop);
      errors := Some(validationErrors);
      ok := validationErrors.name == "";
    }

    /** The submit: validate, then create or edit; loading is set before the
        service is called, so it stays set when the service throws. */
    method HandleSubmit() returns (s: Submission)
      modifies this`errors, this`loading
      ensures s == SubmitOutcome(api, routeId, shop)
      ensures errors == Some(Schema(shop))
      ensures loading == (s != NotSubmitted || old(loading))
    {
      var ok := Validate();
      if !ok {
        return NotSubmitted;
      }
      loading := true;
      if IsAddMode() {
        s := Issued(ClientShopService.CreateShop(api, shop));
      } else {
        var r := ClientShopService.EditShop(api, shop);
        if r.Ok? {
          s := Issued(r.value);
        } else {
          s := Thrown(r.error);
        }
      }
    }

    /** The issued request settling: the outcome's toast is written to the
        toast context, navigation follows a success, and loading ends. */
    method SettleSubmit(o: Settled<Shop>) returns (nav: Option<string>)
      modifies this`loading, toasts, toasts.toaster
      ensures nav == SubmitNavigation(IsAddMode(), routeId, o)
      ensures toasts.State() == ToastContext.ProviderStep(old(toasts.State()), ToastContext.ContextWrite(SubmitToast(IsAddMode(), o)))
      ensures !loading
    {
      nav := SubmitNavigation(IsAddMode(), routeId, o);
      toasts.SetToast(SubmitToast(IsAddMode(), o));
      loading := false;
    }
  }
}
