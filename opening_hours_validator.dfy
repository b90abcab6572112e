/** The constraint on a shop's opening hours: no two entries of the same
    day may overlap. Times are seconds since midnight; the comparisons are
    strict, so an interval that ends when another starts does not overlap
    it. Each entry is checked only against the others, never on its own. */
module OpeningHoursValidation {
  import opened Common

  /** One opening-hours entry as the server stores it. */
  datatype OpeningHoursShop = OpeningHoursShop(day: int, openAt: nat, closeAt: nat)

  /** `h1` opens before `h2` closes and closes after `h2` opens, on the
      same day. */
  predicate Overlap(h1: OpeningHoursShop, h2: OpeningHoursShop) {
    h1.day == h2.day && h1.openAt < h2.closeAt && h1.closeAt > h2.openAt
  }

  /** No entry overlaps a later one. */
  predicate NoOverlap(hs: seq<OpeningHoursShop>) {
    forall i, j :: 0 <= i < j < |hs| ==> !Overlap(hs[i], hs[j])
  }

  /** The validator: a missing or empty list is valid; otherwise each pair
      of positions i < j is compared and the first overlap rejects it. */
  method IsValid(hours: Option<seq<OpeningHoursShop>>) returns (valid: bool)
    ensures valid <==> hours.None? || NoOverlap(hours.value)
  {
    if hours.None? || |hours.value| == 0 {
      return true;
    }
    var hs := hours.value;
    var i := 0;
    while i < |hs|
      invariant 0 <= i <= |hs|
      invariant forall k, l :: 0 <= k < i && k < l < |hs| ==> !Overlap(hs[k], hs[l])
    {
      var h1 := hs[i];
      var j := i + 1;
      while j < |hs|
        invariant i + 1 <= j <= |hs|
        invariant forall l :: i < l < j ==> !Overlap(h1, hs[l])
      {
        var h2 := hs[j];
        if h1.day == h2.day {
          if h1.openAt < h2.closeAt && h1.closeAt > h2.openAt {
            return false;
          }
        }
        j := j + 1;
      }
      i := i + 1;
    }
    return true;
  }

  /** Whether two entries overlap does not depend on their order. */
  lemma OverlapSymmetric(h1: OpeningHoursShop, h2: OpeningHoursShop)
    ensures Overlap(h1, h2) <==> Overlap(h2, h1)
  {
  }

  /** Entries of different days never conflict. */
  lemma DifferentDaysNeverConflict(hs: seq<OpeningHoursShop>)
    requires forall i, j :: 0 <= i < j < |hs| ==> hs[i].day != hs[j].day
    ensures NoOverlap(hs)
  {
  }

  /** Touching intervals do not conflict, in either order. */
  lemma TouchingIsNoConflict(h1: OpeningHoursShop, h2: OpeningHoursShop)
    requires h1.closeAt == h2.openAt
    ensures NoOverlap([h1, h2]) && NoOverlap([h2, h1])
  {
  }

  /** A single entry is always valid, even one that closes before it
      opens. */
  lemma SingleEntryIsValid(h: OpeningHoursShop)
    ensures NoOverlap([h])
  {
  }

  /** Two same-day entries sharing some time are rejected whichever comes
      first. */
  lemma SharedTimeIsConflict(h1: OpeningHoursShop, h2: OpeningHoursShop, t: nat)
    requires h1.day == h2.day
    requires h1.openAt <= t < h1.closeAt && h2.openAt <= t < h2.closeAt
    ensures !NoOverlap([h1, h2]) && !NoOverlap([h2, h1])
  {
    assert [h1, h2][0] == h1 && [h1, h2][1] == h2;
    assert [h2, h1][0] == h2 && [h2, h1][1] == h1;
  }

  /** The order-free reading of the constraint: no two distinct entries of
      the list overlap, and an entry present twice does not overlap
      itself. */
  ghost predicate PairFree(m: multiset<OpeningHoursShop>) {
    (forall x, y :: x in m && y in m && x != y ==> !Overlap(x, y))
    && (forall x :: x in m && m[x] >= 2 ==> !Overlap(x, x))
  }

  /** An entry occurring at two positions occurs at least twice. */
  lemma TwoPositionsCountTwice(hs: seq<OpeningHoursShop>, i: int, j: int)
    requires 0 <= i < j < |hs| && hs[i] == hs[j]
    ensures multiset(hs)[hs[i]] >= 2
  {
    assert hs == hs[..j] + hs[j..];
    assert hs[i] in hs[..j];
    assert hs[j..][0] == hs[j];
    assert multiset(hs) == multiset(hs[..j]) + multiset(hs[j..]);
  }

  /** An entry occurring at least twice occurs at two positions. */
  lemma {:induction false} CountTwiceTwoPositions(hs: seq<OpeningHoursShop>, x: OpeningHoursShop)
    requires multiset(hs)[x] >= 2
    ensures exists i, j :: 0 <= i < j < |hs| && hs[i] == x && hs[j] == x
    decreases |hs|
  {
    var init, last := hs[..|hs| - 1], hs[|hs| - 1];
    assert hs == init + [last];
    assert multiset(hs) == multiset(init) + multiset{last};
    if last == x {
      assert x in multiset(init);
      var i :| 0 <= i < |init| && init[i] == x;
      assert hs[i] == x && hs[|hs| - 1] == x;
    } else {
      CountTwiceTwoPositions(init, x);
      var i, j :| 0 <= i < j < |init| && init[i] == x && init[j] == x;
      assert hs[i] == x && hs[j] == x;
    }
  }

  /** The positional constraint is exactly the order-free one. */
  lemma NoOverlapIffPairFree(hs: seq<OpeningHoursShop>)
    ensures NoOverlap(hs) <==> PairFree(multiset(hs))
  {
    if NoOverlap(hs) {
      forall x, y | x in multiset(hs) && y in multiset(hs) && x != y
        ensures !Overlap(x, y)
      {
        var i :| 0 <= i < |hs| && hs[i] == x;
        var j :| 0 <= j < |hs| && hs[j] == y;
        if j < i {
          OverlapSymmetric(x, y);
        }
      }
      forall x | x in multiset(hs) && multiset(hs)[x] >= 2
        ensures !Overlap(x, x)
      {
        CountTwiceTwoPositions(hs, x);
      }
    }
    if PairFree(multiset(hs)) {
      forall i, j | 0 <= i < j < |hs|
        ensures !Overlap(hs[i], hs[j])
      {
        if hs[i] == hs[j] {
          TwoPositionsCountTwice(hs, i, j);
        }
      }
    }
  }

  /** Validity does not depend on the order of the entries: any
      rearrangement of a list is valid exactly when the list is. */
  lemma ValidityIgnoresOrder(a: seq<OpeningHoursShop>, b: seq<OpeningHoursShop>)
    requires multiset(a) == multiset(b)
    ensures NoOverlap(a) <==> NoOverlap(b)
  {
    NoOverlapIffPairFree(a);
    NoOverlapIffPairFree(b);
  }
}
