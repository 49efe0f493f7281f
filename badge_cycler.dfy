/**
 * The loyalty-badge cycler: the affiliations that have a badge, and the
 * index of the one on display, stepped by a timer.
 */
module BadgeCycling {
  import opened Wrappers
  import opened LoyaltyBadges

  /** The names that have a badge image, in their original order. */
  function FilterBadged(names: seq<string>): (r: seq<string>)
    ensures |r| <= |names|
    ensures forall x :: x in r <==> x in names && HasLoyaltyBadge(x)
    ensures (forall i :: 0 <= i < |names| ==> HasLoyaltyBadge(names[i])) ==> r == names
  {
    if names == [] then []
    else
      var rest := FilterBadged(names[1..]);
      assert names == [names[0]] + names[1..];
      assert (forall i :: 0 <= i < |names| ==> HasLoyaltyBadge(names[i]))
        ==> (forall i :: 0 <= i < |names| - 1 ==> HasLoyaltyBadge(names[1..][i]));
      (if GetLoyaltyBadgeUrl(names[0]).Some? then [names[0]] else []) + rest
  }

  /** Filtering keeps the relative order: it distributes over concatenation. */
  lemma {:induction false} FilterBadgedAppend(a: seq<string>, b: seq<string>)
    ensures FilterBadged(a + b) == FilterBadged(a) + FilterBadged(b)
  {
    if a == [] {
      assert a + b == b;
    } else {
      assert (a + b)[0] == a[0];
      assert (a + b)[1..] == a[1..] + b;
      FilterBadgedAppend(a[1..], b);
    }
  }

  /** `validAffiliations`: a missing list gives none. */
  function ValidAffiliations(affiliations: Option<seq<string>>): (r: seq<string>)
    ensures forall i :: 0 <= i < |r| ==> GetLoyaltyBadgeUrl(r[i]).Some?
    ensures affiliations.None? ==> r == []
    ensures affiliations.Some? ==> r == FilterBadged(affiliations.value)
  {
    match affiliations
    case None => []
    case Some(names) =>
      var r := FilterBadged(names);
      assert forall i :: 0 <= i < |r| ==> r[i] in r;
      r
  }

  /** One timer tick: there is no timer for at most one badge; otherwise the index advances cyclically. */
  function CycleStep(index: nat, count: nat): (r: nat)
    ensures count <= 1 ==> r == index
    ensures count > 1 ==> r < count
    ensures count > 1 && index + 1 < count ==> r == index + 1
    ensures count > 1 && index + 1 == count ==> r == 0
  {
    if count <= 1 then index else (index + 1) % count
  }

  /** The affiliation shown: nothing when no affiliation has a badge, and never one without a badge. */
  function Displayed(affiliations: Option<seq<string>>, index: nat): (r: Option<string>)
    ensures ValidAffiliations(affiliations) == [] ==> r == None
    ensures index < |ValidAffiliations(affiliations)| ==> r == Some(ValidAffiliations(affiliations)[index])
    ensures r.Some? ==> GetLoyaltyBadgeUrl(r.value).Some?
  {
    var valid := ValidAffiliations(affiliations);
    if |valid| == 0 then None
    else if index < |valid| then Some(valid[index])
    else None
  }

  /** The cycler's state: the affiliations it was given and the current index. */
  class BadgeCycler {
    var affiliations: Option<seq<string>>
    var currentIndex: nat

    ghost predicate Valid()
      reads this
    {
      ValidAffiliations(affiliations) == [] || currentIndex < |ValidAffiliations(affiliations)|
    }

    constructor (affiliations: Option<seq<string>>)
      ensures Valid()
      ensures this.affiliations == affiliations && currentIndex == 0
    {
      this.affiliations := affiliations;
      currentIndex := 0;
    }

    /** The timer callback: `setCurrentIndex(prev => (prev + 1) % length)`. */
    method Tick()
      requires Valid()
      modifies this`currentIndex
      ensures Valid()
      ensures currentIndex == CycleStep(old(currentIndex), |ValidAffiliations(affiliations)|)
    {
      var count := |ValidAffiliations(affiliations)|;
      if count > 1 {
        currentIndex := (currentIndex + 1) % count;
      }
    }

    function Shown(): (r: Option<string>)
      reads this
      requires Valid()
      ensures r.Some? <==> ValidAffiliations(affiliations) != []
      ensures r.Some? ==> HasLoyaltyBadge(r.value)
    {
      Displayed(affiliations, currentIndex)
    }
  }
}
