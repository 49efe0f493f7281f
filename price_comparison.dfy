/**
 * The price-comparison table: site logos, the sort toggle, the sorted rows
 * and the highlighted "lowest" row.
 */
module PriceComparisons {
  import opened Wrappers
  import opened Strings

  const LogoBase: string := "https://storage.googleapis.com/synxis-demo-images-2024/ota-logo/"

  /** `OTA_LOGOS`: exact site names to logo URLs. */
  const OtaLogos: map<string, string> := map[
    "Booking.com" := LogoBase + "booking.png",
    "Expedia" := LogoBase + "expedia.png",
    "Hotels.com" := LogoBase + "hotels.png",
    "TripAdvisor" := LogoBase + "tripadvisor.png"
  ]

  /** `getSiteLogo`: the logo of an exact key, `null` for every other name. */
  function GetSiteLogo(siteName: string): (r: Option<string>)
    ensures r.Some? <==> siteName in OtaLogos
    ensures r.Some? ==> r.value == OtaLogos[siteName]
  {
    if siteName in OtaLogos && OtaLogos[siteName] != "" then Some(OtaLogos[siteName]) else None
  }

  /** The four sites with a logo; direct booking and other spellings fall back to the icon. */
  lemma SiteLogos()
    ensures GetSiteLogo("Booking.com") == Some(LogoBase + "booking.png")
    ensures GetSiteLogo("Expedia") == Some(LogoBase + "expedia.png")
    ensures GetSiteLogo("Hotels.com") == Some(LogoBase + "hotels.png")
    ensures GetSiteLogo("TripAdvisor") == Some(LogoBase + "tripadvisor.png")
    ensures GetSiteLogo("Direct Booking") == None
    ensures GetSiteLogo("booking.com") == None
    ensures |OtaLogos| == 4
  {
    assert "Booking.com"[0] != "Expedia"[0] && "Booking.com"[0] != "Hotels.com"[0] && "Booking.com"[0] != "TripAdvisor"[0];
    assert "Expedia"[0] != "Hotels.com"[0] && "Expedia"[0] != "TripAdvisor"[0] && "Hotels.com"[0] != "TripAdvisor"[0];
    assert "Direct Booking"[0] !in {'B', 'E', 'H', 'T'};
    assert "booking.com"[0] !in {'B', 'E', 'H', 'T'};
  }

  // ---------------------------------------------------------------------
  // Sorting state
  // ---------------------------------------------------------------------

  datatype SortField = PriceField | TotalField
  datatype SortDirection = Asc | Desc {
    function Flipped(): SortDirection {
      if this == Asc then Desc else Asc
    }
  }

  /** The (field, direction) pair after a click on a column header. */
  datatype SortOrder = SortOrder(field: SortField, direction: SortDirection)

  /** `handleSort`: the same column flips the direction, another column starts ascending. */
  function NextOrder(order: SortOrder, clicked: SortField): SortOrder {
    if order.field == clicked then order.(direction := order.direction.Flipped())
    else SortOrder(clicked, Asc)
  }

  /** A click always selects the clicked column; on the current column it reverses the direction. */
  lemma NextOrderEffect(order: SortOrder, clicked: SortField)
    ensures NextOrder(order, clicked).field == clicked
    ensures order.field == clicked ==> NextOrder(order, clicked).direction != order.direction
    ensures order.field != clicked ==> NextOrder(order, clicked).direction == Asc
  {
  }

  /** Two clicks on the current column restore the order; on another column they leave it descending. */
  lemma TwoClicks(order: SortOrder, clicked: SortField)
    ensures order.field == clicked ==> NextOrder(NextOrder(order, clicked), clicked) == order
    ensures order.field != clicked ==> NextOrder(NextOrder(order, clicked), clicked) == SortOrder(clicked, Desc)
  {
  }

  /** The component's `sortField` and `sortDirection` state. */
  class SortState {
    var sortField: SortField
    var sortDirection: SortDirection

    constructor ()
      ensures sortField == PriceField && sortDirection == Asc
    {
      sortField := PriceField;
      sortDirection := Asc;
    }

    function Order(): SortOrder
      reads this
    {
      SortOrder(sortField, sortDirection)
    }

    method HandleSort(field: SortField)
      modifies this
      ensures Order() == NextOrder(old(Order()), field)
    {
      if sortField == field {
        sortDirection := if sortDirection == Asc then Desc else Asc;
      } else {
        sortField := field;
        sortDirection := Asc;
      }
    }
  }

  // ---------------------------------------------------------------------
  // Nights and sort keys
  // ---------------------------------------------------------------------

  /**
   * `nights`: the day count between the two dates when both are truthy,
   * 1 otherwise; `dayCount` stands for the `Date` arithmetic.
   */
  function Nights(checkInDate: Option<string>, checkOutDate: Option<string>, dayCount: (string, string) -> int): (n: int)
    ensures !Truthy(checkInDate) || !Truthy(checkOutDate) ==> n == 1
    ensures Truthy(checkInDate) && Truthy(checkOutDate) ==> n == dayCount(checkInDate.value, checkOutDate.value)
  {
    if Truthy(checkInDate) && Truthy(checkOutDate) then dayCount(checkInDate.value, checkOutDate.value) else 1
  }

  datatype PriceComparisonItem = PriceComparisonItem(siteName: string, price: real, currency: string, url: string)

  /**
   * The comparator is a consistent order: the total column ignores the
   * stay, and the price column divides by it, which only a stay of zero
   * nights makes infinite.
   */
  predicate KeyDefined(field: SortField, nights: int) {
    field == TotalField || nights != 0
  }

  /** The value a row is sorted by: the nightly price for the price column, the total otherwise. */
  function SortKey(item: PriceComparisonItem, field: SortField, nights: int): real
    requires KeyDefined(field, nights)
  {
    if field == PriceField then item.price / nights as real else item.price
  }

  lemma DivideMonotone(a: real, b: real, n: real)
    requires n > 0.0
    ensures a / n <= b / n <==> a <= b
  {
    assert a / n * n == a && b / n * n == b;
    if a / n <= b / n {
      assert a / n * n <= b / n * n;
    }
    if a <= b {
      assert (b - a) / n >= 0.0;
      assert b / n - a / n == (b - a) / n;
    }
  }

  /** The total column, and the price column over a positive stay, order the rows by price. */
  lemma KeyOrdersByPrice(a: PriceComparisonItem, b: PriceComparisonItem, field: SortField, nights: int)
    requires field == TotalField || nights > 0
    ensures SortKey(a, field, nights) <= SortKey(b, field, nights) <==> a.price <= b.price
  {
    if field == PriceField {
      DivideMonotone(a.price, b.price, nights as real);
    }
  }

  /** A check-out before the check-in makes the stay negative, and the price column then reverses the order by price. */
  lemma KeyReversedByNegativeStay(a: PriceComparisonItem, b: PriceComparisonItem, nights: int)
    requires nights < 0
    ensures SortKey(a, PriceField, nights) <= SortKey(b, PriceField, nights) <==> b.price <= a.price
  {
    var n := nights as real;
    DivideMonotone(b.price, a.price, -n);
    assert a.price / n == -(a.price / -n) && b.price / n == -(b.price / -n);
  }

  // ---------------------------------------------------------------------
  // The sorted copy
  // ---------------------------------------------------------------------

  /** `a` may stay in front of `b` under the comparator: `a - b <= 0` ascending, `b - a <= 0` descending. */
  predicate InOrder(a: real, b: real, direction: SortDirection) {
    if direction == Asc then a <= b else b <= a
  }

  /** Every row is in order with every later row. */
  predicate SortedBy(rows: seq<PriceComparisonItem>, field: SortField, direction: SortDirection, nights: int)
    requires KeyDefined(field, nights)
  {
    forall i, j :: 0 <= i < j < |rows| ==>
      InOrder(SortKey(rows[i], field, nights), SortKey(rows[j], field, nights), direction)
  }

  /** Inserts a row before the first row it is in order with, after every row that must precede it. */
  function Insert(x: PriceComparisonItem, rows: seq<PriceComparisonItem>, field: SortField, direction: SortDirection, nights: int)
    : (r: seq<PriceComparisonItem>)
    requires KeyDefined(field, nights)
    ensures multiset(r) == multiset(rows) + multiset{x}
  {
    if rows == [] then [x]
    else if InOrder(SortKey(x, field, nights), SortKey(rows[0], field, nights), direction) then [x] + rows
    else
      assert rows == [rows[0]] + rows[1..];
      [rows[0]] + Insert(x, rows[1..], field, direction, nights)
  }

  /** `[...priceComparisons].sort(comparator)`: a stable sort of a copy. */
  function SortedComparisons(rows: seq<PriceComparisonItem>, field: SortField, direction: SortDirection, nights: int)
    : (r: seq<PriceComparisonItem>)
    requires KeyDefined(field, nights)
    ensures multiset(r) == multiset(rows)
  {
    if rows == [] then []
    else
      assert rows == [rows[0]] + rows[1..];
      Insert(rows[0], SortedComparisons(rows[1..], field, direction, nights), field, direction, nights)
  }

  lemma {:induction false} InsertSorted(x: PriceComparisonItem, rows: seq<PriceComparisonItem>, field: SortField,
                                        direction: SortDirection, nights: int)
    requires KeyDefined(field, nights) && SortedBy(rows, field, direction, nights)
    ensures SortedBy(Insert(x, rows, field, direction, nights), field, direction, nights)
    decreases |rows|
  {
    if rows != [] && !InOrder(SortKey(x, field, nights), SortKey(rows[0], field, nights), direction) {
      var tail := Insert(x, rows[1..], field, direction, nights);
      InsertSorted(x, rows[1..], field, direction, nights);
      var r := [rows[0]] + tail;
      forall j | 0 < j < |r|
        ensures InOrder(SortKey(r[0], field, nights), SortKey(r[j], field, nights), direction)
      {
        InsertMember(x, rows[1..], field, direction, nights, j - 1);
      }
    }
  }

  /** A row of the result is the inserted row or a row of the input. */
  lemma InsertMember(x: PriceComparisonItem, rows: seq<PriceComparisonItem>, field: SortField,
                     direction: SortDirection, nights: int, j: nat)
    requires KeyDefined(field, nights) && j < |Insert(x, rows, field, direction, nights)|
    ensures var y := Insert(x, rows, field, direction, nights)[j];
      y == x || exists k :: 0 <= k < |rows| && rows[k] == y
  {
    var y := Insert(x, rows, field, direction, nights)[j];
    assert y in multiset(rows) + multiset{x};
    if y != x {
      assert y in rows;
    }
  }

  /** The rows come out in the clicked column's order, as a permutation of the input. */
  lemma {:induction false} SortedComparisonsSorted(rows: seq<PriceComparisonItem>, field: SortField,
                                                   direction: SortDirection, nights: int)
    requires KeyDefined(field, nights)
    ensures SortedBy(SortedComparisons(rows, field, direction, nights), field, direction, nights)
    decreases |rows|
  {
    if rows != [] {
      SortedComparisonsSorted(rows[1..], field, direction, nights);
      InsertSorted(rows[0], SortedComparisons(rows[1..], field, direction, nights), field, direction, nights);
    }
  }

  /** The rows whose sort key is `k`, in their order. */
  function WithKey(rows: seq<PriceComparisonItem>, field: SortField, nights: int, k: real): seq<PriceComparisonItem>
    requires KeyDefined(field, nights)
  {
    if rows == [] then []
    else (if SortKey(rows[0], field, nights) == k then [rows[0]] else []) + WithKey(rows[1..], field, nights, k)
  }

  /** Inserting puts the row in front of every row with the same key. */
  lemma {:induction false} InsertWithKey(x: PriceComparisonItem, rows: seq<PriceComparisonItem>, field: SortField,
                                         direction: SortDirection, nights: int, k: real)
    requires KeyDefined(field, nights)
    ensures WithKey(Insert(x, rows, field, direction, nights), field, nights, k)
      == (if SortKey(x, field, nights) == k then [x] else []) + WithKey(rows, field, nights, k)
    decreases |rows|
  {
    if rows != [] && !InOrder(SortKey(x, field, nights), SortKey(rows[0], field, nights), direction) {
      InsertWithKey(x, rows[1..], field, direction, nights, k);
      InsertBehind(x, rows, field, direction, nights, k);
    } else {
      WithKeyCons(x, rows, field, nights, k);
    }
  }

  /** A row that may not precede the first row goes behind it, and cannot share its key. */
  lemma InsertBehind(x: PriceComparisonItem, rows: seq<PriceComparisonItem>, field: SortField,
                     direction: SortDirection, nights: int, k: real)
    requires KeyDefined(field, nights) && rows != []
    requires !InOrder(SortKey(x, field, nights), SortKey(rows[0], field, nights), direction)
    requires WithKey(Insert(x, rows[1..], field, direction, nights), field, nights, k)
      == (if SortKey(x, field, nights) == k then [x] else []) + WithKey(rows[1..], field, nights, k)
    ensures WithKey(Insert(x, rows, field, direction, nights), field, nights, k)
      == (if SortKey(x, field, nights) == k then [x] else []) + WithKey(rows, field, nights, k)
  {
    var tail := Insert(x, rows[1..], field, direction, nights);
    var kx, k0 := SortKey(x, field, nights), SortKey(rows[0], field, nights);
    var front: seq<PriceComparisonItem> := if kx == k then [x] else [];
    var first: seq<PriceComparisonItem> := if k0 == k then [rows[0]] else [];
    assert Insert(x, rows, field, direction, nights) == [rows[0]] + tail;
    assert WithKey(rows, field, nights, k) == first + WithKey(rows[1..], field, nights, k);
    WithKeyCons(rows[0], tail, field, nights, k);
    KeysDiffer(kx, k0, direction);
    SwapEmpty(first, front, WithKey(rows[1..], field, nights, k));
  }

  lemma KeysDiffer(a: real, b: real, direction: SortDirection)
    requires !InOrder(a, b, direction)
    ensures a != b
  {
  }

  lemma SwapEmpty<T>(a: seq<T>, b: seq<T>, c: seq<T>)
    requires a == [] || b == []
    ensures a + (b + c) == b + (a + c)
  {
  }

  lemma WithKeyCons(y: PriceComparisonItem, rows: seq<PriceComparisonItem>, field: SortField, nights: int, k: real)
    requires KeyDefined(field, nights)
    ensures WithKey([y] + rows, field, nights, k)
      == (if SortKey(y, field, nights) == k then [y] else []) + WithKey(rows, field, nights, k)
  {
    assert ([y] + rows)[1..] == rows;
  }

  /**
   * `Array.prototype.sort` is stable: the rows with equal keys, for which
   * the comparator returns 0, come out in their input order.
   */
  lemma {:induction false} SortedComparisonsStable(rows: seq<PriceComparisonItem>, field: SortField,
                                                   direction: SortDirection, nights: int, k: real)
    requires KeyDefined(field, nights)
    ensures WithKey(SortedComparisons(rows, field, direction, nights), field, nights, k) == WithKey(rows, field, nights, k)
    decreases |rows|
  {
    if rows != [] {
      SortedComparisonsStable(rows[1..], field, direction, nights, k);
      InsertWithKey(rows[0], SortedComparisons(rows[1..], field, direction, nights), field, direction, nights, k);
    }
  }

  // ---------------------------------------------------------------------
  // The highlighted row
  // ---------------------------------------------------------------------

  /** `isLowest = index === 0` and `lowestPrice = sortedComparisons[0].price`, as written. */
  function LowestPriceAsWritten(sorted: seq<PriceComparisonItem>): (p: real)
    ensures |sorted| > 0 ==> p == sorted[0].price
    ensures |sorted| == 0 ==> p == 0.0
  {
    if |sorted| > 0 then sorted[0].price else 0.0
  }

  const Cheap := PriceComparisonItem("Expedia", 100.0, "USD", "https://expedia.example")
  const Dear := PriceComparisonItem("Booking.com", 200.0, "USD", "https://booking.example")

  /**
   * Sorted descending, the first row holds the highest price, so the row
   * marked as lowest and `lowestPrice` are the most expensive offer.
   */
  lemma DescendingHighlightsHighest()
    ensures SortedComparisons([Cheap, Dear], PriceField, Desc, 1) == [Dear, Cheap]
    ensures LowestPriceAsWritten(SortedComparisons([Cheap, Dear], PriceField, Desc, 1)) == Dear.price
    ensures Cheap.price < Dear.price
  {
    assert [Cheap, Dear][1..] == [Dear];
    assert SortedComparisons([Dear], PriceField, Desc, 1) == [Dear];
  }

  /** The index of the first row with the lowest price. */
  function HighlightIndex(sorted: seq<PriceComparisonItem>): (h: nat)
    requires |sorted| > 0
    ensures h < |sorted|
    ensures forall i :: 0 <= i < |sorted| ==> sorted[h].price <= sorted[i].price
    ensures forall i :: 0 <= i < h ==> sorted[i].price > sorted[h].price
  {
    if |sorted| == 1 then 0
    else
      var h := HighlightIndex(sorted[1..]);
      if sorted[0].price <= sorted[h + 1].price then 0 else h + 1
  }

  /** The lowest price of the table, the price of the highlighted row. */
  function LowestPrice(sorted: seq<PriceComparisonItem>): (p: real)
    ensures |sorted| > 0 ==> exists i :: 0 <= i < |sorted| && sorted[i].price == p
    ensures forall i :: 0 <= i < |sorted| ==> p <= sorted[i].price
  {
    if |sorted| > 0 then sorted[HighlightIndex(sorted)].price else 0.0
  }

  /** Ascending, the corrected highlight is the first row, as the source has it. */
  lemma HighlightFirstWhenAscending(rows: seq<PriceComparisonItem>, field: SortField, nights: int)
    requires (field == TotalField || nights > 0) && |rows| > 0
    ensures |SortedComparisons(rows, field, Asc, nights)| > 0
    ensures HighlightIndex(SortedComparisons(rows, field, Asc, nights)) == 0
    ensures LowestPrice(SortedComparisons(rows, field, Asc, nights))
      == LowestPriceAsWritten(SortedComparisons(rows, field, Asc, nights))
  {
    var sorted := SortedComparisons(rows, field, Asc, nights);
    assert |sorted| == |rows| by {
      assert |multiset(sorted)| == |multiset(rows)|;
    }
    SortedComparisonsSorted(rows, field, Asc, nights);
    var h := HighlightIndex(sorted);
    if h > 0 {
      KeyOrdersByPrice(sorted[0], sorted[h], field, nights);
      assert false;
    }
  }
}
