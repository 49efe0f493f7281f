/** The hotel carousel: one hotel card at a time, moved by previous/next buttons. */
module HotelCarousels {
  import opened Wrappers
  import opened CarouselIndex

  /** What the carousel renders: the placeholder, or the card at an index with or without buttons. */
  datatype HotelView = NoHotelsFound | Card(index: int, navigation: bool)

  /**
   * The render decision: a missing or empty list shows the placeholder and
   * reads no hotel; otherwise the current card is shown, with buttons only
   * when there is more than one hotel.
   */
  function View<Hotel>(hotels: Option<seq<Hotel>>, current: int): (v: HotelView)
    ensures v.NoHotelsFound? <==> hotels.None? || |hotels.value| == 0
    ensures v.Card? ==> v.index == current
    ensures v.Card? ==> (v.navigation <==> |hotels.value| > 1)
  {
    if hotels.None? || |hotels.value| == 0 then NoHotelsFound
    else Card(current, |hotels.value| > 1)
  }

  class HotelCarousel<Hotel> {
    const hotels: Option<seq<Hotel>>
    var currentHotelIndex: int

    constructor (hotels: Option<seq<Hotel>>)
      ensures this.hotels == hotels && currentHotelIndex == 0
    {
      this.hotels := hotels;
      currentHotelIndex := 0;
    }

    function Count(): nat
      reads this
    {
      if hotels.None? then 0 else |hotels.value|
    }

    /** `nextHotel`; its button exists only when there are hotels. */
    method NextHotel()
      requires Count() > 0
      modifies this`currentHotelIndex
      ensures currentHotelIndex == NextIndex(old(currentHotelIndex), Count())
    {
      currentHotelIndex := JsRem(currentHotelIndex + 1, |hotels.value|);
    }

    /** `prevHotel`. */
    method PrevHotel()
      requires Count() > 0
      modifies this`currentHotelIndex
      ensures currentHotelIndex == PrevIndex(old(currentHotelIndex), Count())
    {
      currentHotelIndex := JsRem(currentHotelIndex - 1 + |hotels.value|, |hotels.value|);
    }

    /** `goToHotel`: the index is taken as given, with no bounds check. */
    method GoToHotel(index: int)
      modifies this`currentHotelIndex
      ensures currentHotelIndex == index
    {
      currentHotelIndex := index;
    }

    /** The hotel on the card, when the index designates one. */
    function CurrentHotel(): (h: Option<Hotel>)
      reads this
      ensures h.Some? <==> View(hotels, currentHotelIndex).Card? && 0 <= currentHotelIndex < Count()
      ensures h.Some? ==> h.value == hotels.value[currentHotelIndex]
    {
      if hotels.Some? && 0 <= currentHotelIndex < |hotels.value| then Some(hotels.value[currentHotelIndex]) else None
    }
  }

  /** Starting from the first card, any sequence of button presses keeps a hotel on the card. */
  method Browse<Hotel>(hotels: seq<Hotel>, presses: seq<bool>) returns (shown: Hotel)
    requires |hotels| > 0
    ensures shown in hotels
  {
    var carousel := new HotelCarousel(Some(hotels));
    var k := 0;
    while k < |presses|
      invariant 0 <= k <= |presses|
      invariant carousel.hotels == Some(hotels)
      invariant 0 <= carousel.currentHotelIndex < |hotels|
    {
      if presses[k] { carousel.NextHotel(); } else { carousel.PrevHotel(); }
      k := k + 1;
    }
    shown := carousel.CurrentHotel().value;
  }
}
