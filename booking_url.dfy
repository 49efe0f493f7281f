/**
 * Construction of the "book now" link of a price-comparison row: a base URL
 * whose query is updated, a template with placeholders, or a plain URL.
 */
module BookingUrl {
  import opened Wrappers
  import opened Strings
  import opened UriEncoding

  datatype BookingParameters = BookingParameters(
    checkInDate: Option<string>,
    checkOutDate: Option<string>,
    roomType: Option<string>,
    promoCode: Option<string>,
    adults: Option<int>,
    children: Option<int>,
    rooms: Option<int>,
    currency: Option<string>,
    locale: Option<string>)

  /** The absent `bookingParameters` object: every field undefined. */
  const NoParameters := BookingParameters(None, None, None, None, None, None, None, None, None)

  datatype HotelBookingConfig = HotelBookingConfig(hotelId: string, baseUrl: string)

  datatype BookingUrlConfig = BookingUrlConfig(
    url: Option<string>,
    urlTemplate: Option<string>,
    bookingParameters: Option<BookingParameters>,
    hotelConfig: Option<HotelBookingConfig>)

  function Parameters(config: BookingUrlConfig): BookingParameters {
    config.bookingParameters.GetOr(NoParameters)
  }

  /** The hotel configuration carries a non-empty base URL. */
  predicate HasBaseUrl(config: BookingUrlConfig) {
    config.hotelConfig.Some? && config.hotelConfig.value.baseUrl != ""
  }

  // ---------------------------------------------------------------------
  // Query parameters, as `URLSearchParams` keeps them
  // ---------------------------------------------------------------------

  datatype QueryParam = QueryParam(name: string, value: string)
  type Query = seq<QueryParam>

  /**
   * A parsed URL as far as `buildUrlFromBase` touches it: its serialisation
   * up to the query, the query text as stored (absent without a `?`), the
   * list its `searchParams` object holds, and the fragment (absent without
   * a `#`).
   */
  datatype Url = Url(beforeQuery: string, query: Option<string>, searchParams: Query, fragment: Option<string>)

  /** `url.toString()`: the stored query and fragment, each behind its delimiter. */
  function Href(u: Url): string {
    u.beforeQuery + (if u.query.Some? then "?" + u.query.value else "")
    + (if u.fragment.Some? then "#" + u.fragment.value else "")
  }

  /** The values stored under `name`, in order. */
  function Values(q: Query, name: string): seq<string> {
    if q == [] then []
    else (if q[0].name == name then [q[0].value] else []) + Values(q[1..], name)
  }

  /** The value `searchParams.get(name)` returns. */
  function Get(q: Query, name: string): Option<string> {
    var vs := Values(q, name);
    if vs == [] then None else Some(vs[0])
  }

  lemma {:induction false} ValuesAppend(a: Query, b: Query, name: string)
    ensures Values(a + b, name) == Values(a, name) + Values(b, name)
  {
    if a == [] {
      assert a + b == b;
    } else {
      assert (a + b)[1..] == a[1..] + b;
      ValuesAppend(a[1..], b, name);
    }
  }

  /** The pairs not named `name`. */
  function WithoutName(q: Query, name: string): Query {
    if q == [] then []
    else if q[0].name == name then WithoutName(q[1..], name)
    else [q[0]] + WithoutName(q[1..], name)
  }

  lemma {:induction false} WithoutNameValues(q: Query, name: string, other: string)
    ensures Values(WithoutName(q, name), other) == if other == name then [] else Values(q, other)
  {
    if q != [] {
      WithoutNameValues(q[1..], name, other);
      if q[0].name != name {
        assert ([q[0]] + WithoutName(q[1..], name))[1..] == WithoutName(q[1..], name);
      }
    }
  }

  /** Sets the first pair named `name` and removes the later ones. */
  function SetFirst(q: Query, name: string, value: string): Query
    requires Values(q, name) != []
  {
    if q[0].name == name then [QueryParam(name, value)] + WithoutName(q[1..], name)
    else [q[0]] + SetFirst(q[1..], name, value)
  }

  lemma {:induction false} SetFirstValues(q: Query, name: string, value: string, other: string)
    requires Values(q, name) != []
    ensures Values(SetFirst(q, name, value), other) == if other == name then [value] else Values(q, other)
  {
    if q[0].name == name {
      WithoutNameValues(q[1..], name, other);
      assert ([QueryParam(name, value)] + WithoutName(q[1..], name))[1..] == WithoutName(q[1..], name);
    } else {
      SetFirstValues(q[1..], name, value, other);
      assert ([q[0]] + SetFirst(q[1..], name, value))[1..] == SetFirst(q[1..], name, value);
    }
  }

  /**
   * `searchParams.set(name, value)`: the first pair with that name takes
   * the value and later ones are removed, or the pair is appended.
   */
  function SetParam(q: Query, name: string, value: string): Query {
    if Values(q, name) != [] then SetFirst(q, name, value) else q + [QueryParam(name, value)]
  }

  /** After `set`, the name has exactly the one value; every other name keeps all its values in order. */
  lemma SetParamValues(q: Query, name: string, value: string, other: string)
    ensures Values(SetParam(q, name, value), other) == if other == name then [value] else Values(q, other)
  {
    if Values(q, name) != [] {
      SetFirstValues(q, name, value, other);
    } else {
      ValuesAppend(q, [QueryParam(name, value)], other);
    }
  }

  /** `set(name, value)` when `cond` holds; nothing otherwise. */
  function SetIf(q: Query, cond: bool, name: string, value: string): Query {
    if cond then SetParam(q, name, value) else q
  }

  lemma SetIfValues(q: Query, cond: bool, name: string, value: string, other: string)
    ensures Values(SetIf(q, cond, name, value), other) == if cond && other == name then [value] else Values(q, other)
  {
    SetParamValues(q, name, value, other);
  }

  function ValueOr(x: Option<string>): string {
    x.GetOr("")
  }

  function CountOr(x: Option<int>): string {
    if x.Some? then IntToString(x.value) else ""
  }

  /**
   * The values each name has after `buildUrlFromBase`: a string parameter
   * is written only when truthy, a count whenever it is defined (0
   * included), and every other name is left as it was.
   */
  function ExpectedValues(q: Query, p: BookingParameters, name: string): seq<string> {
    if name == "arrive" && Truthy(p.checkInDate) then [ValueOr(p.checkInDate)]
    else if name == "depart" && Truthy(p.checkOutDate) then [ValueOr(p.checkOutDate)]
    else if name == "promo" && Truthy(p.promoCode) then [ValueOr(p.promoCode)]
    else if name == "adult" && p.adults.Some? then [CountOr(p.adults)]
    else if name == "child" && p.children.Some? then [CountOr(p.children)]
    else if name == "rooms" && p.rooms.Some? then [CountOr(p.rooms)]
    else if name == "currency" && Truthy(p.currency) then [ValueOr(p.currency)]
    else if name == "locale" && Truthy(p.locale) then [ValueOr(p.locale)]
    else Values(q, name)
  }

  /** The date and promotion updates of `buildUrlFromBase`. */
  function DateParams(q: Query, p: BookingParameters): Query {
    var q1 := SetIf(q, Truthy(p.checkInDate), "arrive", ValueOr(p.checkInDate));
    var q2 := SetIf(q1, Truthy(p.checkOutDate), "depart", ValueOr(p.checkOutDate));
    SetIf(q2, Truthy(p.promoCode), "promo", ValueOr(p.promoCode))
  }

  /** The guest and room count updates of `buildUrlFromBase`. */
  function CountParams(q: Query, p: BookingParameters): Query {
    var q4 := SetIf(q, p.adults.Some?, "adult", CountOr(p.adults));
    var q5 := SetIf(q4, p.children.Some?, "child", CountOr(p.children));
    SetIf(q5, p.rooms.Some?, "rooms", CountOr(p.rooms))
  }

  /** The currency and locale updates of `buildUrlFromBase`. */
  function LocaleParams(q: Query, p: BookingParameters): Query {
    var q7 := SetIf(q, Truthy(p.currency), "currency", ValueOr(p.currency));
    SetIf(q7, Truthy(p.locale), "locale", ValueOr(p.locale))
  }

  /** The query after the updates of `buildUrlFromBase`, in the order the source makes them. */
  function UpdatedQuery(q: Query, p: BookingParameters): Query {
    LocaleParams(CountParams(DateParams(q, p), p), p)
  }

  lemma DateParamsValues(q: Query, p: BookingParameters, name: string)
    ensures Values(DateParams(q, p), name) ==
      if name == "arrive" && Truthy(p.checkInDate) then [ValueOr(p.checkInDate)]
      else if name == "depart" && Truthy(p.checkOutDate) then [ValueOr(p.checkOutDate)]
      else if name == "promo" && Truthy(p.promoCode) then [ValueOr(p.promoCode)]
      else Values(q, name)
  {
    var q1 := SetIf(q, Truthy(p.checkInDate), "arrive", ValueOr(p.checkInDate));
    var q2 := SetIf(q1, Truthy(p.checkOutDate), "depart", ValueOr(p.checkOutDate));
    SetIfValues(q, Truthy(p.checkInDate), "arrive", ValueOr(p.checkInDate), name);
    SetIfValues(q1, Truthy(p.checkOutDate), "depart", ValueOr(p.checkOutDate), name);
    SetIfValues(q2, Truthy(p.promoCode), "promo", ValueOr(p.promoCode), name);
  }

  lemma CountParamsValues(q: Query, p: BookingParameters, name: string)
    ensures Values(CountParams(q, p), name) ==
      if name == "adult" && p.adults.Some? then [CountOr(p.adults)]
      else if name == "child" && p.children.Some? then [CountOr(p.children)]
      else if name == "rooms" && p.rooms.Some? then [CountOr(p.rooms)]
      else Values(q, name)
  {
    var q4 := SetIf(q, p.adults.Some?, "adult", CountOr(p.adults));
    var q5 := SetIf(q4, p.children.Some?, "child", CountOr(p.children));
    SetIfValues(q, p.adults.Some?, "adult", CountOr(p.adults), name);
    SetIfValues(q4, p.children.Some?, "child", CountOr(p.children), name);
    SetIfValues(q5, p.rooms.Some?, "rooms", CountOr(p.rooms), name);
  }

  lemma LocaleParamsValues(q: Query, p: BookingParameters, name: string)
    ensures Values(LocaleParams(q, p), name) ==
      if name == "currency" && Truthy(p.currency) then [ValueOr(p.currency)]
      else if name == "locale" && Truthy(p.locale) then [ValueOr(p.locale)]
      else Values(q, name)
  {
    var q7 := SetIf(q, Truthy(p.currency), "currency", ValueOr(p.currency));
    SetIfValues(q, Truthy(p.currency), "currency", ValueOr(p.currency), name);
    SetIfValues(q7, Truthy(p.locale), "locale", ValueOr(p.locale), name);
  }

  /** Each name's values after `buildUrlFromBase` are those described by ExpectedValues. */
  lemma UpdatedQueryValues(q: Query, p: BookingParameters, name: string)
    ensures Values(UpdatedQuery(q, p), name) == ExpectedValues(q, p, name)
  {
    var d := DateParams(q, p);
    var c := CountParams(d, p);
    DateParamsValues(q, p, name);
    CountParamsValues(d, p, name);
    LocaleParamsValues(c, p, name);
  }

  // ---------------------------------------------------------------------
  // The URL's query, kept in step with `searchParams`
  // ---------------------------------------------------------------------

  /** One pair, form-urlencoded as `name=value`. */
  function FormPair(param: QueryParam): string {
    FormEncode(param.name) + "=" + FormEncode(param.value)
  }

  function FormPairs(q: Query): seq<string> {
    seq(|q|, i requires 0 <= i < |q| => FormPair(q[i]))
  }

  /** The application/x-www-form-urlencoded serialisation of the list: the encoded pairs joined by `&`. */
  function FormSerialize(q: Query): string {
    Join(FormPairs(q), "&")
  }

  /** No encoded pair holds a `&`, so splitting the serialisation at `&` gives the pairs back. */
  lemma FormSerializeSplits(q: Query)
    requires q != []
    ensures Split(FormSerialize(q), "&") == FormPairs(q)
  {
    var pairs := FormPairs(q);
    forall i | 0 <= i < |pairs|
      ensures Clean(pairs[i], "&") && !Contains(pairs[i], "&")
    {
      PairWithoutAmpersand(q[i]);
      NoCharClean(pairs[i], '&');
    }
    SplitJoin(pairs, "&");
  }

  lemma PairWithoutAmpersand(param: QueryParam)
    ensures forall k :: 0 <= k < |FormPair(param)| ==> FormPair(param)[k] != '&'
  {
    var name, value := FormEncode(param.name), FormEncode(param.value);
    ConcatAvoids(name, "=", '&');
    ConcatAvoids(name + "=", value, '&');
  }

  lemma ConcatAvoids(a: string, b: string, c: char)
    requires forall k :: 0 <= k < |a| ==> a[k] != c
    requires forall k :: 0 <= k < |b| ==> b[k] != c
    ensures forall k :: 0 <= k < |a + b| ==> (a + b)[k] != c
  {
  }

  /**
   * The update steps of `URLSearchParams`: the URL's query becomes the
   * serialised list, or absent when that is empty, which only the empty
   * list gives.
   */
  function SerializedQuery(q: Query): (r: Option<string>)
    ensures r.None? <==> q == []
    ensures r.Some? ==> r.value == FormSerialize(q)
  {
    var t := FormSerialize(q);
    assert q != [] ==> t != "" by {
      if q != [] {
        assert |FormPairs(q)| >= 1 && FormPairs(q)[0] == FormPair(q[0]);
        assert |t| >= |FormPair(q[0])| > 0;
      }
    }
    if t == "" then None else Some(t)
  }

  /** The query text is the serialisation of the list, as it is after any `set`. */
  predicate InSync(u: Url) {
    u.query == Some(FormSerialize(u.searchParams))
  }

  /** `url.searchParams.set(name, value)`: the list is updated and the query rewritten from it. */
  function SetUrlParam(u: Url, name: string, value: string): Url {
    var q := SetParam(u.searchParams, name, value);
    u.(query := SerializedQuery(q), searchParams := q)
  }

  function SetUrlIf(u: Url, cond: bool, name: string, value: string): Url {
    if cond then SetUrlParam(u, name, value) else u
  }

  /** Whether `buildUrlFromBase` calls `set` at least once. */
  predicate AnySet(p: BookingParameters) {
    Truthy(p.checkInDate) || Truthy(p.checkOutDate) || Truthy(p.promoCode)
    || p.adults.Some? || p.children.Some? || p.rooms.Some?
    || Truthy(p.currency) || Truthy(p.locale)
  }

  /** The date and promotion updates on the parsed URL. */
  function DateUrl(u: Url, p: BookingParameters): Url {
    var u1 := SetUrlIf(u, Truthy(p.checkInDate), "arrive", ValueOr(p.checkInDate));
    var u2 := SetUrlIf(u1, Truthy(p.checkOutDate), "depart", ValueOr(p.checkOutDate));
    SetUrlIf(u2, Truthy(p.promoCode), "promo", ValueOr(p.promoCode))
  }

  /** The guest and room count updates on the parsed URL. */
  function CountUrl(u: Url, p: BookingParameters): Url {
    var u4 := SetUrlIf(u, p.adults.Some?, "adult", CountOr(p.adults));
    var u5 := SetUrlIf(u4, p.children.Some?, "child", CountOr(p.children));
    SetUrlIf(u5, p.rooms.Some?, "rooms", CountOr(p.rooms))
  }

  /** The currency and locale updates on the parsed URL. */
  function LocaleUrl(u: Url, p: BookingParameters): Url {
    var u7 := SetUrlIf(u, Truthy(p.currency), "currency", ValueOr(p.currency));
    SetUrlIf(u7, Truthy(p.locale), "locale", ValueOr(p.locale))
  }

  /** The parsed URL after the updates of `buildUrlFromBase`, in the order the source makes them. */
  function UpdatedUrl(u: Url, p: BookingParameters): Url {
    LocaleUrl(CountUrl(DateUrl(u, p), p), p)
  }

  /** One guarded `set` keeps the URL outside the query and leaves the query in step once it has run. */
  lemma SetUrlIfShape(u: Url, cond: bool, name: string, value: string)
    ensures var r := SetUrlIf(u, cond, name, value);
      r.searchParams == SetIf(u.searchParams, cond, name, value)
      && r.beforeQuery == u.beforeQuery && r.fragment == u.fragment
      && (cond || InSync(u) ==> InSync(r))
      && (!cond ==> r == u)
  {
    SetParamValues(u.searchParams, name, value, name);
  }

  /** Three guarded `set`s in a row, as each group of updates makes them. */
  lemma ThreeSetsShape(u: Url, c1: bool, n1: string, v1: string, c2: bool, n2: string, v2: string,
                       c3: bool, n3: string, v3: string)
    ensures var r := SetUrlIf(SetUrlIf(SetUrlIf(u, c1, n1, v1), c2, n2, v2), c3, n3, v3);
      r.searchParams == SetIf(SetIf(SetIf(u.searchParams, c1, n1, v1), c2, n2, v2), c3, n3, v3)
      && r.beforeQuery == u.beforeQuery && r.fragment == u.fragment
      && (c1 || c2 || c3 || InSync(u) ==> InSync(r))
      && (!c1 && !c2 && !c3 ==> r == u)
  {
    var r1 := SetUrlIf(u, c1, n1, v1);
    var r2 := SetUrlIf(r1, c2, n2, v2);
    SetUrlIfShape(u, c1, n1, v1);
    SetUrlIfShape(r1, c2, n2, v2);
    SetUrlIfShape(r2, c3, n3, v3);
  }

  /** The date updates change only the query, and write it once one of them runs. */
  lemma DateUrlShape(u: Url, p: BookingParameters)
    ensures var r := DateUrl(u, p);
      r.searchParams == DateParams(u.searchParams, p)
      && r.beforeQuery == u.beforeQuery && r.fragment == u.fragment
      && (Truthy(p.checkInDate) || Truthy(p.checkOutDate) || Truthy(p.promoCode) || InSync(u) ==> InSync(r))
      && (!Truthy(p.checkInDate) && !Truthy(p.checkOutDate) && !Truthy(p.promoCode) ==> r == u)
  {
    ThreeSetsShape(u, Truthy(p.checkInDate), "arrive", ValueOr(p.checkInDate),
      Truthy(p.checkOutDate), "depart", ValueOr(p.checkOutDate), Truthy(p.promoCode), "promo", ValueOr(p.promoCode));
  }

  /** The count updates change only the query, and write it once one of them runs. */
  lemma CountUrlShape(u: Url, p: BookingParameters)
    ensures var r := CountUrl(u, p);
      r.searchParams == CountParams(u.searchParams, p)
      && r.beforeQuery == u.beforeQuery && r.fragment == u.fragment
      && (p.adults.Some? || p.children.Some? || p.rooms.Some? || InSync(u) ==> InSync(r))
      && (p.adults.None? && p.children.None? && p.rooms.None? ==> r == u)
  {
    ThreeSetsShape(u, p.adults.Some?, "adult", CountOr(p.adults),
      p.children.Some?, "child", CountOr(p.children), p.rooms.Some?, "rooms", CountOr(p.rooms));
  }

  /** The currency and locale updates change only the query, and write it once one of them runs. */
  lemma LocaleUrlShape(u: Url, p: BookingParameters)
    ensures var r := LocaleUrl(u, p);
      r.searchParams == LocaleParams(u.searchParams, p)
      && r.beforeQuery == u.beforeQuery && r.fragment == u.fragment
      && (Truthy(p.currency) || Truthy(p.locale) || InSync(u) ==> InSync(r))
      && (!Truthy(p.currency) && !Truthy(p.locale) ==> r == u)
  {
    var u7 := SetUrlIf(u, Truthy(p.currency), "currency", ValueOr(p.currency));
    SetUrlIfShape(u, Truthy(p.currency), "currency", ValueOr(p.currency));
    SetUrlIfShape(u7, Truthy(p.locale), "locale", ValueOr(p.locale));
  }

  /**
   * The updates change only the query: the list becomes UpdatedQuery, and
   * the query text is its serialisation as soon as one `set` has run;
   * without one the URL is untouched.
   */
  lemma UpdatedUrlShape(u: Url, p: BookingParameters)
    ensures UpdatedUrl(u, p).searchParams == UpdatedQuery(u.searchParams, p)
    ensures UpdatedUrl(u, p).beforeQuery == u.beforeQuery && UpdatedUrl(u, p).fragment == u.fragment
    ensures AnySet(p) ==> InSync(UpdatedUrl(u, p))
    ensures !AnySet(p) ==> UpdatedUrl(u, p) == u
  {
    var d := DateUrl(u, p);
    var c := CountUrl(d, p);
    DateUrlShape(u, p);
    CountUrlShape(d, p);
    LocaleUrlShape(c, p);
  }

  /**
   * The URL `buildUrlFromBase` returns; `parse` stands for the `URL`
   * constructor (`None` when it throws). Without a `set` the href keeps
   * the query text as parsed; after one, the query is the form-urlencoded
   * serialisation of the updated list.
   */
  function UrlFromBase(baseUrl: string, p: BookingParameters, parse: string -> Option<Url>): (r: string)
    ensures parse(baseUrl).None? ==> r == baseUrl
    ensures parse(baseUrl).Some? && !AnySet(p) ==> r == Href(parse(baseUrl).value)
    ensures parse(baseUrl).Some? && AnySet(p) ==>
      var u := parse(baseUrl).value;
      r == Href(u.(query := Some(FormSerialize(UpdatedQuery(u.searchParams, p)))))
  {
    match parse(baseUrl)
    case None => baseUrl
    case Some(url) =>
      UpdatedUrlShape(url, p);
      Href(UpdatedUrl(url, p))
  }

  /**
   * Once a `set` has run, the rewritten query is never empty and splits at
   * `&` into the encoded pairs of the updated list, in order.
   */
  lemma UpdatedQueryPairs(q: Query, p: BookingParameters)
    requires AnySet(p)
    ensures UpdatedQuery(q, p) != []
    ensures Split(FormSerialize(UpdatedQuery(q, p)), "&") == FormPairs(UpdatedQuery(q, p))
  {
    var name :=
      if Truthy(p.checkInDate) then "arrive" else if Truthy(p.checkOutDate) then "depart"
      else if Truthy(p.promoCode) then "promo" else if p.adults.Some? then "adult"
      else if p.children.Some? then "child" else if p.rooms.Some? then "rooms"
      else if Truthy(p.currency) then "currency" else "locale";
    UpdatedQueryValues(q, p, name);
    assert Values(UpdatedQuery(q, p), name) != [];
    FormSerializeSplits(UpdatedQuery(q, p));
  }

  /**
   * `if (value) url.searchParams.set(name, value)`, one guarded update; what
   * it does to the list and the query is SetIfValues and SetUrlIfShape.
   */
  method SetWhen(u: Url, cond: bool, name: string, value: string) returns (r: Url)
    ensures r == SetUrlIf(u, cond, name, value)
  {
    r := u;
    if cond {
      var searchParams := SetParam(r.searchParams, name, value);
      r := r.(query := SerializedQuery(searchParams), searchParams := searchParams);
    }
  }

  /** `buildUrlFromBase`, setting the parameters on the parsed URL one after another. */
  method BuildUrlFromBase(baseUrl: string, bookingParams: Option<BookingParameters>,
                          parse: string -> Option<Url>) returns (r: string)
    ensures r == UrlFromBase(baseUrl, bookingParams.GetOr(NoParameters), parse)
  {
    var parsed := parse(baseUrl);
    if parsed.None? {
      return baseUrl;
    }
    var url := parsed.value;
    var p := bookingParams.GetOr(NoParameters);
    url := SetWhen(url, Truthy(p.checkInDate), "arrive", ValueOr(p.checkInDate));
    url := SetWhen(url, Truthy(p.checkOutDate), "depart", ValueOr(p.checkOutDate));
    url := SetWhen(url, Truthy(p.promoCode), "promo", ValueOr(p.promoCode));
    assert url == DateUrl(parsed.value, p);
    ghost var dated := url;
    url := SetWhen(url, p.adults.Some?, "adult", CountOr(p.adults));
    url := SetWhen(url, p.children.Some?, "child", CountOr(p.children));
    url := SetWhen(url, p.rooms.Some?, "rooms", CountOr(p.rooms));
    assert url == CountUrl(dated, p);
    ghost var counted := url;
    url := SetWhen(url, Truthy(p.currency), "currency", ValueOr(p.currency));
    url := SetWhen(url, Truthy(p.locale), "locale", ValueOr(p.locale));
    assert url == LocaleUrl(counted, p);
    r := Href(url);
  }

  // ---------------------------------------------------------------------
  // Templates
  // ---------------------------------------------------------------------

  /** The index of the first `c` in `s`, if there is one. */
  function IndexOf(s: string, c: char): (r: Option<nat>)
    ensures r.Some? ==> r.value < |s| && s[r.value] == c
    ensures r.Some? ==> forall m :: 0 <= m < r.value ==> s[m] != c
    ensures r.None? ==> forall m :: 0 <= m < |s| ==> s[m] != c
  {
    if s == [] then None
    else if s[0] == c then Some(0)
    else match IndexOf(s[1..], c)
      case None => None
      case Some(k) => Some(k + 1)
  }

  /**
   * The length of the match of the placeholder pattern `\{[^}]+\}` at the
   * start of `s`: a `{` whose next `}` is not the character right after it.
   */
  function PlaceholderAt(s: string): (r: Option<nat>)
    ensures r.Some? ==> 3 <= r.value <= |s| && s[0] == '{' && s[r.value - 1] == '}'
    ensures r.Some? ==> forall m :: 0 < m < r.value - 1 ==> s[m] != '}'
  {
    if |s| == 0 || s[0] != '{' then None
    else match IndexOf(s[1..], '}')
      case None => None
      case Some(k) =>
        assert forall m :: 0 < m < k + 1 ==> s[m] == s[1..][m - 1];
        if k == 0 then None else Some(k + 2)
  }

  /** The placeholder pattern matches nowhere in `s`. */
  predicate NoPlaceholder(s: string) {
    forall i :: 0 <= i < |s| ==> PlaceholderAt(s[i..]).None?
  }

  /** `url.replace(/\{[^}]+\}/g, '')`: the leftmost placeholders are erased, scanning left to right. */
  function EraseBraces(s: string): string
    decreases |s|
  {
    if s == [] then ""
    else match PlaceholderAt(s)
      case Some(n) => EraseBraces(s[n..])
      case None => [s[0]] + EraseBraces(s[1..])
  }

  /** Erasing never introduces a character. */
  lemma {:induction false} EraseKeepsAbsent(s: string, c: char)
    requires forall k :: 0 <= k < |s| ==> s[k] != c
    ensures forall k :: 0 <= k < |EraseBraces(s)| ==> EraseBraces(s)[k] != c
    decreases |s|
  {
    if s != [] {
      match PlaceholderAt(s)
      case Some(n) =>
        assert forall k :: 0 <= k < |s[n..]| ==> s[n..][k] == s[n + k];
        EraseKeepsAbsent(s[n..], c);
      case None =>
        assert forall k :: 0 <= k < |s[1..]| ==> s[1..][k] == s[k + 1];
        EraseKeepsAbsent(s[1..], c);
    }
  }

  /** The pattern cannot match at the start of `[c] + rest` in the three ways the scan leaves a character. */
  lemma ConsNoPlaceholder(c: char, rest: string)
    requires NoPlaceholder(rest)
    requires c != '{' || (|rest| > 0 && rest[0] == '}') || forall b :: 0 <= b < |rest| ==> rest[b] != '}'
    ensures NoPlaceholder([c] + rest)
  {
    var r := [c] + rest;
    assert r[1..] == rest;
    forall a | 0 <= a < |r| ensures PlaceholderAt(r[a..]).None? {
      if a > 0 {
        assert r[a..] == rest[a - 1..];
      } else if c == '{' && |rest| > 0 && rest[0] == '}' {
        assert IndexOf(rest, '}') == Some(0);
      } else if c == '{' {
        assert IndexOf(rest, '}').None?;
      }
    }
  }

  /** After erasing, no placeholder with a non-empty body is left. */
  lemma {:induction false} EraseBracesNoPlaceholder(s: string)
    ensures NoPlaceholder(EraseBraces(s))
    decreases |s|
  {
    if s != [] {
      match PlaceholderAt(s)
      case Some(n) =>
        EraseBracesNoPlaceholder(s[n..]);
      case None =>
        var rest := EraseBraces(s[1..]);
        EraseBracesNoPlaceholder(s[1..]);
        if s[0] == '{' {
          if |s| > 1 && s[1] == '}' {
            assert PlaceholderAt(s[1..]) == None;
            assert rest == [s[1]] + EraseBraces(s[2..]) by {
              assert s[1..][1..] == s[2..];
            }
          } else {
            assert IndexOf(s[1..], '}').None?;
            EraseKeepsAbsent(s[1..], '}');
          }
        }
        ConsNoPlaceholder(s[0], rest);
    }
  }

  /** Text without a `{` is left as it is. */
  lemma {:induction false} ErasePlain(s: string)
    requires forall k :: 0 <= k < |s| ==> s[k] != '{'
    ensures EraseBraces(s) == s
    decreases |s|
  {
    if s != [] {
      assert forall k :: 0 <= k < |s[1..]| ==> s[1..][k] == s[k + 1];
      ErasePlain(s[1..]);
    }
  }

  /** A character the pattern does not match at is kept, and the scan moves on by one. */
  lemma EraseKeep(s: string)
    requires s != [] && PlaceholderAt(s).None?
    ensures EraseBraces(s) == [s[0]] + EraseBraces(s[1..])
  {
  }

  /** An empty pair of braces is not a placeholder and survives. */
  lemma EraseKeepsEmptyBraces(t: string)
    requires |t| >= 2 && t[0] == '{' && t[1] == '}'
    ensures EraseBraces(t) == t[..2] + EraseBraces(t[2..])
  {
    var u := t[1..];
    assert EraseBraces(u) == [u[0]] + EraseBraces(t[2..]) by {
      assert u[1..] == t[2..];
      EraseKeep(u);
    }
    assert EraseBraces(t) == [t[0]] + EraseBraces(u) by {
      assert IndexOf(u, '}') == Some(0);
      EraseKeep(t);
    }
    PairThenRest(t[0], u[0], EraseBraces(t[2..]));
    assert t[..2] == [t[0], u[0]];
  }

  lemma PairThenRest<T>(a: T, b: T, x: seq<T>)
    ensures [a] + ([b] + x) == [a, b] + x
  {
  }

  /**
   * The four substitutions of `buildUrlFromTemplate`: dates are inserted as
   * they are, room type and promo code URI-encoded, each only when truthy.
   */
  function Interpolate(template: string, p: BookingParameters): string {
    var u1 := if Truthy(p.checkInDate) then ReplaceAll(template, "{checkInDate}", p.checkInDate.value) else template;
    var u2 := if Truthy(p.checkOutDate) then ReplaceAll(u1, "{checkOutDate}", p.checkOutDate.value) else u1;
    var u3 := if Truthy(p.roomType) then ReplaceAll(u2, "{roomType}", EncodeUriComponent(p.roomType.value)) else u2;
    if Truthy(p.promoCode) then ReplaceAll(u3, "{promoCode}", EncodeUriComponent(p.promoCode.value)) else u3
  }

  /** The URL `buildUrlFromTemplate` returns. */
  function UrlFromTemplate(template: string, p: BookingParameters): (r: string)
    ensures NoPlaceholder(r)
  {
    EraseBracesNoPlaceholder(Interpolate(template, p));
    EraseBraces(Interpolate(template, p))
  }

  /** Without truthy parameters the template is only cleared of its placeholders. */
  lemma InterpolateNothing(template: string, p: BookingParameters)
    requires !Truthy(p.checkInDate) && !Truthy(p.checkOutDate) && !Truthy(p.roomType) && !Truthy(p.promoCode)
    ensures UrlFromTemplate(template, p) == EraseBraces(template)
  {
  }

  /** A template without braces and without parameters comes back unchanged. */
  lemma PlainTemplate(template: string)
    requires forall k :: 0 <= k < |template| ==> template[k] != '{'
    ensures UrlFromTemplate(template, NoParameters) == template
  {
    ErasePlain(template);
  }

  /**
   * A truthy check-in date replaces every `{checkInDate}` of the template:
   * written as the pieces between the placeholders, the first step joins the
   * same pieces with the date.
   */
  lemma CheckInFillsEveryPlaceholder(pieces: seq<string>, p: BookingParameters)
    requires Truthy(p.checkInDate) && NoDollar(p.checkInDate.value) && |pieces| >= 1
    requires forall i :: 0 <= i < |pieces| - 1 ==> Clean(pieces[i], "{checkInDate}")
    requires !Contains(pieces[|pieces| - 1], "{checkInDate}")
    ensures ReplaceAll(Join(pieces, "{checkInDate}"), "{checkInDate}", p.checkInDate.value)
      == Join(pieces, p.checkInDate.value)
  {
    SplitJoin(pieces, "{checkInDate}");
  }

  /**
   * The dates go to `replace` unencoded, so a `$` pattern in them is
   * expanded: a check-in date of `$&` puts each `{checkInDate}` back, and the
   * final erasure removes it as if no date had been given.
   */
  lemma MatchReferenceDate(template: string, p: BookingParameters)
    requires p.checkInDate == Some("$&")
    ensures UrlFromTemplate(template, p) == UrlFromTemplate(template, p.(checkInDate := None))
  {
    ReplaceMatchReference(template, "{checkInDate}");
  }

  /**
   * An encoded room type or promo code holds no brace, so the erasure cannot
   * consume it, and no `$`, so `replace` inserts it as it is.
   */
  lemma EncodedValueHasNoBrace(value: string)
    ensures forall k :: 0 <= k < |EncodeUriComponent(value)| ==>
      EncodeUriComponent(value)[k] != '{' && EncodeUriComponent(value)[k] != '}'
    ensures NoDollar(EncodeUriComponent(value))
  {
  }

  /** The room type lands in every `{roomType}` as its encoding. */
  lemma RoomTypeInsertedEncoded(url: string, roomType: string)
    ensures ReplaceAll(url, "{roomType}", EncodeUriComponent(roomType))
      == Join(Split(url, "{roomType}"), EncodeUriComponent(roomType))
  {
    EncodedValueHasNoBrace(roomType);
  }

  /** `buildUrlFromTemplate`: `url` is rewritten step by step, then cleared of placeholders. */
  method BuildUrlFromTemplate(template: string, bookingParams: Option<BookingParameters>) returns (url: string)
    ensures url == UrlFromTemplate(template, bookingParams.GetOr(NoParameters))
    ensures NoPlaceholder(url)
  {
    var p := bookingParams.GetOr(NoParameters);
    url := template;
    if Truthy(p.checkInDate) {
      url := ReplaceAll(url, "{checkInDate}", p.checkInDate.value);
    }
    if Truthy(p.checkOutDate) {
      url := ReplaceAll(url, "{checkOutDate}", p.checkOutDate.value);
    }
    if Truthy(p.roomType) {
      url := ReplaceAll(url, "{roomType}", EncodeUriComponent(p.roomType.value));
    }
    if Truthy(p.promoCode) {
      url := ReplaceAll(url, "{promoCode}", EncodeUriComponent(p.promoCode.value));
    }
    assert url == Interpolate(template, p);
    url := EraseBraces(url);
  }

  // ---------------------------------------------------------------------
  // Precedence and validation
  // ---------------------------------------------------------------------

  /** No URL source at all: none of the three is truthy. */
  predicate NoUrlSource(config: BookingUrlConfig) {
    !Truthy(config.url) && !Truthy(config.urlTemplate) && !HasBaseUrl(config)
  }

  /**
   * `buildBookingUrl`: the hotel configuration's base URL wins, then the
   * template, then the plain URL; with none of them the result is `null`.
   */
  function BookingUrlFor(config: BookingUrlConfig, parse: string -> Option<Url>): (r: Option<string>)
    ensures HasBaseUrl(config) ==>
      r == Some(UrlFromBase(config.hotelConfig.value.baseUrl, Parameters(config), parse))
    ensures !HasBaseUrl(config) && Truthy(config.urlTemplate) ==>
      r == Some(UrlFromTemplate(config.urlTemplate.value, Parameters(config)))
    ensures !HasBaseUrl(config) && !Truthy(config.urlTemplate) && Truthy(config.url) ==> r == config.url
    ensures r.None? <==> NoUrlSource(config)
  {
    if HasBaseUrl(config) then Some(UrlFromBase(config.hotelConfig.value.baseUrl, Parameters(config), parse))
    else if Truthy(config.urlTemplate) then Some(UrlFromTemplate(config.urlTemplate.value, Parameters(config)))
    else if Truthy(config.url) then config.url
    else None
  }

  /** `buildBookingUrl` as the source runs it, through the two builders. */
  method BuildBookingUrl(config: BookingUrlConfig, parse: string -> Option<Url>)
    returns (r: Option<string>)
    ensures r == BookingUrlFor(config, parse)
  {
    if HasBaseUrl(config) {
      var u := BuildUrlFromBase(config.hotelConfig.value.baseUrl, config.bookingParameters, parse);
      return Some(u);
    }
    if Truthy(config.urlTemplate) {
      var u := BuildUrlFromTemplate(config.urlTemplate.value, config.bookingParameters);
      return Some(u);
    }
    if Truthy(config.url) {
      return config.url;
    }
    return None;
  }

  /** `validateBookingUrlConfig`. */
  function ValidateBookingUrlConfig(config: BookingUrlConfig): (valid: bool)
    ensures !valid <==> NoUrlSource(config) || (config.hotelConfig.Some? && config.hotelConfig.value.baseUrl == "")
  {
    if NoUrlSource(config) then false
    else if config.hotelConfig.Some? && config.hotelConfig.value.baseUrl == "" then false
    else true
  }

  /** A valid configuration always yields a URL. */
  lemma ValidConfigYieldsUrl(config: BookingUrlConfig, parse: string -> Option<Url>)
    requires ValidateBookingUrlConfig(config)
    ensures BookingUrlFor(config, parse).Some?
  {
  }

  /**
   * Validation is stricter than construction: a hotel configuration without
   * a base URL is rejected, yet a template or plain URL beside it still
   * yields a link.
   */
  lemma InvalidConfigMayStillYieldUrl(config: BookingUrlConfig, parse: string -> Option<Url>)
    requires config.hotelConfig.Some? && config.hotelConfig.value.baseUrl == ""
    requires Truthy(config.urlTemplate) || Truthy(config.url)
    ensures !ValidateBookingUrlConfig(config)
    ensures BookingUrlFor(config, parse).Some?
  {
  }

  /** `formatDateForUrl`: an empty or missing date is `null`; `toIsoDate` stands for the `Date` path. */
  function FormatDateForUrl(dateString: Option<string>, toIsoDate: string -> Option<string>): (r: Option<string>)
    ensures !Truthy(dateString) ==> r == None
    ensures Truthy(dateString) ==> r == toIsoDate(dateString.value)
  {
    if !Truthy(dateString) then None else toIsoDate(dateString.value)
  }
}
