/** The server's shop entity and the constraints a shop must satisfy to be
    saved: a name of 1 to 255 characters, a vacation flag, and opening
    hours without same-day overlaps. Products reference their shop, so a
    shop's products are those whose shop is this one (see ShopServer). */
module ShopModel {
  import opened Common
  import opened OpeningHoursValidation

  const MaxNameLength: nat := 255
  const NameNullMessage: string := "Name may not be null"
  const NameSizeMessage: string := "Name must be between 1 and 255 characters"
  const OverlapMessage: string := "Les plages horaires ne peuvent pas se chevaucher pour un même jour"

  /** A calendar date, as its day number. */
  datatype Date = Date(epochDay: int)

  /** A shop row. `createdAt` is set by the store on insertion; `name` may be
      null in an unsaved shop. `inVacations` is a primitive flag and so is
      never null. */
  datatype Shop = Shop(
    id: int,
    createdAt: Option<Date>,
    inVacations: bool,
    name: Option<string>,
    openingHours: seq<OpeningHoursShop>)

  /** A shop as constructed: no id yet, no creation date and no opening
      hours. */
  function NewShop(name: Option<string>, inVacations: bool): (s: Shop)
    ensures s.openingHours == [] && s.createdAt == None && s.id == 0
    ensures s.name == name && s.inVacations == inVacations
  {
    Shop(0, None, inVacations, name, [])
  }

  /** The name constraint: present, and between 1 and 255 characters. */
  predicate NameValid(name: Option<string>) {
    name.Some? && 1 <= |name.value| <= MaxNameLength
  }

  /** The constraints checked before a shop is saved. */
  predicate ShopValid(s: Shop) {
    NameValid(s.name) && NoOverlap(s.openingHours)
  }

  /** A new shop is valid exactly when its name is: it has no opening hours
      to conflict. */
  lemma NewShopValidIffNamed(name: Option<string>, inVacations: bool)
    ensures ShopValid(NewShop(name, inVacations)) <==> name.Some? && 1 <= |name.value| <= MaxNameLength
  {
  }

  /** The empty name and a null name are both rejected. */
  lemma MissingNameRejected(s: Shop)
    requires s.name == None || s.name == Some("")
    ensures !ShopValid(s)
  {
  }

  /** Reordering the opening hours of a shop does not change whether it can
      be saved. */
  lemma ShopValidityIgnoresHoursOrder(s: Shop, hs: seq<OpeningHoursShop>)
    requires multiset(hs) == multiset(s.openingHours)
    ensures ShopValid(s.(openingHours := hs)) <==> ShopValid(s)
  {
    ValidityIgnoresOrder(hs, s.openingHours);
  }

  /** The messages of the violated constraints. A null name breaks only the
      not-null constraint, since the size constraint accepts null. */
  function Violations(s: Shop): set<string> {
    (if s.name.None? then {NameNullMessage} else {})
    + (if s.name.Some? && !(1 <= |s.name.value| <= MaxNameLength) then {NameSizeMessage} else {})
    + (if !NoOverlap(s.openingHours) then {OverlapMessage} else {})
  }

  /** A shop can be saved exactly when no constraint is violated, and each
      message is reported exactly when its constraint fails. */
  lemma ViolationsIffInvalid(s: Shop)
    ensures Violations(s) == {} <==> ShopValid(s)
    ensures NameNullMessage in Violations(s) <==> s.name.None?
    ensures NameSizeMessage in Violations(s) <==> s.name.Some? && !(1 <= |s.name.value| <= MaxNameLength)
    ensures OverlapMessage in Violations(s) <==> !NoOverlap(s.openingHours)
  {
    if ShopValid(s) {
      assert Violations(s) == {};
    } else if s.name.None? {
      assert NameNullMessage in Violations(s);
    } else if !(1 <= |s.name.value| <= MaxNameLength) {
      assert NameSizeMessage in Violations(s);
    } else {
      assert OverlapMessage in Violations(s);
    }
  }
}
