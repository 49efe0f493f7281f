/** The destination carousel: guarded navigation and an index clamped to the current list. */
module DestinationCarousels {
  import opened Wrappers
  import opened CarouselIndex

  /** `Math.min(currentIndex, destinations.length - 1)`: always a valid slide of a non-empty list. */
  function SafeIndex(currentIndex: nat, count: nat): (r: nat)
    requires count > 0
    ensures r < count
    ensures currentIndex < count ==> r == currentIndex
    ensures currentIndex >= count ==> r == count - 1
  {
    if currentIndex < count - 1 then currentIndex else count - 1
  }

  class DestinationCarousel<Destination> {
    var destinations: seq<Destination>
    var currentIndex: nat

    constructor (destinations: seq<Destination>)
      ensures this.destinations == destinations && currentIndex == 0
    {
      this.destinations := destinations;
      currentIndex := 0;
    }

    /** New props: the list can change while the index is kept. */
    method Rerender(destinations: seq<Destination>)
      modifies this`destinations
      ensures this.destinations == destinations && currentIndex == old(currentIndex)
    {
      this.destinations := destinations;
    }

    predicate HasMultiple()
      reads this
    {
      |destinations| > 1
    }

    /** `nextSlide`: a no-op unless there are at least two destinations. */
    method NextSlide()
      modifies this`currentIndex
      ensures !HasMultiple() ==> currentIndex == old(currentIndex)
      ensures HasMultiple() ==> currentIndex == NextIndex(old(currentIndex), |destinations|)
      ensures HasMultiple() ==> currentIndex < |destinations|
    {
      if !HasMultiple() { return; }
      currentIndex := JsRem(currentIndex + 1, |destinations|);
    }

    /** `prevSlide`: a no-op unless there are at least two destinations. */
    method PrevSlide()
      modifies this`currentIndex
      ensures !HasMultiple() ==> currentIndex == old(currentIndex)
      ensures HasMultiple() ==> currentIndex == PrevIndex(old(currentIndex), |destinations|)
      ensures HasMultiple() ==> currentIndex < |destinations|
    {
      if !HasMultiple() { return; }
      currentIndex := JsRem(currentIndex - 1 + |destinations|, |destinations|);
    }

    /** A slide-indicator click; there is one indicator per destination. */
    method SelectIndicator(index: nat)
      requires index < |destinations|
      modifies this`currentIndex
      ensures currentIndex == index
    {
      currentIndex := index;
    }

    /** The destination on display: none (the fallback) for an empty list, else the clamped slide. */
    function Shown(): (d: Option<Destination>)
      reads this
      ensures d.None? <==> |destinations| == 0
      ensures d.Some? ==> d.value == destinations[SafeIndex(currentIndex, |destinations|)]
      ensures d.Some? && currentIndex < |destinations| ==> d.value == destinations[currentIndex]
    {
      if |destinations| == 0 then None else Some(destinations[SafeIndex(currentIndex, |destinations|)])
    }
  }
}
