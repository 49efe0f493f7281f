/** The hotel-rooms carousel: navigation, the room's image list and the amenity line. */
module HotelRooms {
  import opened Wrappers
  import opened CarouselIndex
  import opened ImageProxy

  /** A room's `image` field: absent, one URL, or a list of URLs. */
  datatype RoomImage = NoImage | SingleImage(url: string) | ImageList(urls: seq<string>)

  /** The render decision: "No rooms available" for a missing or empty list. */
  function NoRoomsAvailable<Room>(rooms: Option<seq<Room>>): (b: bool)
    ensures b <==> rooms.None? || rooms.value == []
  {
    match rooms
    case None => true
    case Some(list) => |list| == 0
  }

  class HotelRoomsCarousel<Room> {
    const rooms: seq<Room>
    var currentIndex: int

    constructor (rooms: seq<Room>)
      ensures this.rooms == rooms && currentIndex == 0
    {
      this.rooms := rooms;
      currentIndex := 0;
    }

    ghost predicate Valid()
      reads this
    {
      0 <= currentIndex < |rooms|
    }

    /** `nextSlide`; the callbacks exist only once the list is known to be non-empty. */
    method NextSlide()
      requires Valid()
      modifies this`currentIndex
      ensures Valid()
      ensures currentIndex == NextIndex(old(currentIndex), |rooms|)
    {
      currentIndex := JsRem(currentIndex + 1, |rooms|);
    }

    /** `prevSlide`. */
    method PrevSlide()
      requires Valid()
      modifies this`currentIndex
      ensures Valid()
      ensures currentIndex == PrevIndex(old(currentIndex), |rooms|)
    {
      currentIndex := JsRem(currentIndex - 1 + |rooms|, |rooms|);
    }

    function Room(): Room
      reads this
      requires Valid()
    {
      rooms[currentIndex]
    }
  }

  /**
   * `roomImages`: a list is proxied element by element, a non-empty string
   * becomes a single proxied URL, and a falsy image gives no images.
   */
  method RoomImages(image: RoomImage) returns (roomImages: seq<string>)
    ensures image.ImageList? ==> |roomImages| == |image.urls|
    ensures image.ImageList? ==>
      forall i :: 0 <= i < |roomImages| ==> roomImages[i] == ProxyImageUrl(image.urls[i])
    ensures image.SingleImage? && image.url != "" ==> roomImages == [ProxyImageUrl(image.url)]
    ensures image.NoImage? || image == SingleImage("") ==> roomImages == []
  {
    roomImages := [];
    match image {
      case NoImage =>
      case SingleImage(url) =>
        if url != "" {
          roomImages := [ProxyImageUrl(url)];
        }
      case ImageList(urls) =>
        roomImages := ProxyImageUrls(urls);
    }
  }

  /** One shown amenity, with or without the " •" separator after it. */
  datatype AmenityChip = AmenityChip(name: string, separator: bool)

  /** The first three amenities; a separator follows every shown amenity but the last. */
  function ShownAmenities(amenities: seq<string>): (chips: seq<AmenityChip>)
    ensures |chips| == if |amenities| < 3 then |amenities| else 3
    ensures forall i :: 0 <= i < |chips| ==> chips[i].name == amenities[i]
    ensures forall i :: 0 <= i < |chips| ==> (chips[i].separator <==> i < |chips| - 1)
  {
    var shown := if |amenities| < 3 then amenities else amenities[..3];
    var limit := if |amenities| - 1 < 2 then |amenities| - 1 else 2;
    seq(|shown|, i requires 0 <= i < |shown| => AmenityChip(shown[i], i < limit))
  }

  /** The "+k more" label: present exactly when more than three amenities exist. */
  function MoreAmenities(amenities: seq<string>): (more: Option<nat>)
    ensures more.Some? <==> |amenities| > 3
    ensures more.Some? ==> |ShownAmenities(amenities)| + more.value == |amenities|
  {
    if |amenities| > 3 then Some(|amenities| - 3) else None
  }
}
