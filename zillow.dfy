/** examples/web/zillow/zillow.py: the argument checks, the search filter
    state, the ten-column row a property record is formatted into, the
    sample rows used when a request fails, and how the result table is
    assembled. The HTTP requests through the proxy and the page scraping
    are not modelled; what they return is a parameter. */
module Zillow {
  import opened Wrappers
  import opened Strings
  import opened PyValues

  // ---------------------------------------------------------------- values

  /** Python truthiness of the argument kinds the function receives. */
  predicate Truthy(v: PyValue) {
    match v
    case VNone => false
    case VInt(i) => i != 0
    case VFloat(f) => f != 0.0
    case VStr(s) => s != ""
    case VBool(b) => b
    case VList(items) => items != []
    case VTuple(items) => items != []
    case VDict(entries) => entries != []
    case _ => true
  }

  /** `isinstance(v, int)`: a `bool` is an `int` too. */
  predicate IsInt(v: PyValue) { v.VInt? || v.VBool? }

  function IntValue(v: PyValue): int
    requires IsInt(v)
  {
    if v.VInt? then v.i else if v.b then 1 else 0
  }

  // ------------------------------------------------------------ validation

  const LocationMessage: string := "Search location must be a non-empty string"
  const NoTargetMessage: string := "Either search_location, property_id, property_url, or map coordinates must be provided"
  const PropertyTypeMessage: string := "Property type must be one of: 'all', 'house', 'apartment', 'condo', or 'townhome'"
  const SearchTypeMessage: string := "Search type must be one of: 'for_sale', 'for_rent', or 'sold'"
  const LimitMessage: string := "Limit must be an integer between 1 and 50"

  const PropertyTypes: seq<string> := ["all", "house", "apartment", "condo", "townhome"]
  const SearchTypes: seq<string> := ["for_sale", "for_rent", "sold"]

  /** The arguments of `zillow` the model follows. */
  datatype Query = Query(
    location: PyValue, propertyType: PyValue,
    minPrice: Option<int>, maxPrice: Option<int>, minBeds: Option<int>, maxBeds: Option<int>,
    minBaths: Option<int>, maxBaths: Option<int>, limit: PyValue,
    propertyId: PyValue, propertyUrl: PyValue, searchType: PyValue, coordinates: seq<PyValue>)

  predicate AllTruthy(vs: seq<PyValue>) { forall k :: 0 <= k < |vs| ==> Truthy(vs[k]) }

  /** The `ValueError` message of the first check that fails, if any. */
  function Validate(q: Query): (r: Option<string>)
    ensures r.None? <==> q.location.VStr? && q.location.s != ""
                         && q.propertyType.VStr? && q.propertyType.s in PropertyTypes
                         && q.searchType.VStr? && q.searchType.s in SearchTypes
                         && IsInt(q.limit) && 1 <= IntValue(q.limit) <= 50
    ensures !(q.location.VStr? && q.location.s != "") ==> r == Some(LocationMessage)
    ensures q.location.VStr? && q.location.s != "" && !(q.propertyType.VStr? && q.propertyType.s in PropertyTypes)
            ==> r == Some(PropertyTypeMessage)
    ensures q.location.VStr? && q.location.s != "" && q.propertyType.VStr? && q.propertyType.s in PropertyTypes
            && !(q.searchType.VStr? && q.searchType.s in SearchTypes)
            ==> r == Some(SearchTypeMessage)
    ensures q.location.VStr? && q.location.s != "" && q.propertyType.VStr? && q.propertyType.s in PropertyTypes
            && q.searchType.VStr? && q.searchType.s in SearchTypes && !(IsInt(q.limit) && 1 <= IntValue(q.limit) <= 50)
            ==> r == Some(LimitMessage)
  {
    if !Truthy(q.location) || !q.location.VStr? then Some(LocationMessage)
    else if q.propertyId.VNone? && q.propertyUrl.VNone? && !Truthy(q.location) && !AllTruthy(q.coordinates) then
      Some(NoTargetMessage)
    else if !(q.propertyType.VStr? && q.propertyType.s in PropertyTypes) then Some(PropertyTypeMessage)
    else if !(q.searchType.VStr? && q.searchType.s in SearchTypes) then Some(SearchTypeMessage)
    else if !IsInt(q.limit) || IntValue(q.limit) < 1 || IntValue(q.limit) > 50 then Some(LimitMessage)
    else None
  }

  /** The second check can never fire: passing the first one means the
      location is a non-empty string. */
  lemma NoTargetCheckUnreachable(q: Query)
    ensures Validate(q) != Some(NoTargetMessage)
  {
  }

  /** `limit=True` is accepted, as `True` is the integer 1. */
  lemma TrueIsAValidLimit(q: Query)
    requires q.location == VStr("Austin, TX") && q.propertyType == VStr("all") && q.searchType == VStr("sold")
    requires q.limit == VBool(true)
    ensures Validate(q).None?
  {
    assert "all" in PropertyTypes;
    assert "sold" in SearchTypes;
  }

  // ---------------------------------------------------------- filter state

  /** A value of the filter state: `{"value": ...}` or a min/max map. */
  datatype FilterEntry = Flag(flag: bool) | Choice(choice: string) | Bounds(bounds: map<string, int>)

  /** The keys the filter state can hold. */
  datatype FilterKey = SortSelection | IsAllHomes | IsHouse | IsApartment | IsCondo | IsTownhouse | Price | Beds | Baths

  /** The JSON name of each key. */
  function KeyName(k: FilterKey): string {
    match k
    case SortSelection => "sortSelection"
    case IsAllHomes => "isAllHomes"
    case IsHouse => "isHouse"
    case IsApartment => "isApartment"
    case IsCondo => "isCondo"
    case IsTownhouse => "isTownhouse"
    case Price => "price"
    case Beds => "beds"
    case Baths => "baths"
  }

  lemma KeyNamesDistinct(j: FilterKey, k: FilterKey)
    requires j != k
    ensures KeyName(j) != KeyName(k)
  {
    assert |KeyName(j)| >= 4 && |KeyName(k)| >= 4;
    assert |KeyName(j)| != |KeyName(k)| || KeyName(j)[2] != KeyName(k)[2];
  }

  predicate IsTypeFlag(k: FilterKey) { k.IsHouse? || k.IsApartment? || k.IsCondo? || k.IsTownhouse? }

  predicate IsSpecificType(t: string) { t in {"house", "apartment", "condo", "townhome"} }

  /** `property_type_map`. */
  function TypeFlag(t: string): (r: FilterKey)
    requires IsSpecificType(t)
    ensures IsTypeFlag(r)
  {
    if t == "house" then IsHouse
    else if t == "apartment" then IsApartment
    else if t == "condo" then IsCondo
    else IsTownhouse
  }

  lemma TypeFlagInjective(s: string, t: string)
    requires IsSpecificType(s) && IsSpecificType(t) && TypeFlag(s) == TypeFlag(t)
    ensures s == t
  {
  }

  /** `x is not None and x > 0`. */
  predicate Positive(x: Option<int>) { x.Some? && x.value > 0 }

  /** The min/max map a pair of bounds contributes. */
  function BoundsOf(lo: Option<int>, hi: Option<int>): (r: map<string, int>)
    ensures "min" in r <==> Positive(lo)
    ensures "max" in r <==> Positive(hi)
    ensures Positive(lo) ==> r["min"] == lo.value
    ensures Positive(hi) ==> r["max"] == hi.value
    ensures r.Keys <= {"min", "max"}
  {
    var withMin := if Positive(lo) then map["min" := lo.value] else map[];
    if Positive(hi) then withMin["max" := hi.value] else withMin
  }

  /** `filter_state.get(key, {})` for a bounds entry. */
  function BoundsAt(fs: map<FilterKey, FilterEntry>, key: FilterKey): map<string, int> {
    if key in fs && fs[key].Bounds? then fs[key].bounds else map[]
  }

  predicate EntryFor(fs: map<FilterKey, FilterEntry>, key: FilterKey, lo: Option<int>, hi: Option<int>) {
    && (key in fs <==> Positive(lo) || Positive(hi))
    && (key in fs ==> fs[key] == Bounds(BoundsOf(lo, hi)))
  }

  /** The two `if` blocks that set the `min` and `max` of one entry. */
  method AddBounds(fs: map<FilterKey, FilterEntry>, key: FilterKey, lo: Option<int>, hi: Option<int>)
    returns (r: map<FilterKey, FilterEntry>)
    requires key !in fs
    ensures r == if Positive(lo) || Positive(hi) then fs[key := Bounds(BoundsOf(lo, hi))] else fs
  {
    r := fs;
    if lo.Some? && lo.value > 0 {
      r := r[key := Bounds(BoundsAt(r, key)["min" := lo.value])];
    }
    if hi.Some? && hi.value > 0 {
      r := r[key := Bounds(BoundsAt(r, key)["max" := hi.value])];
    }
  }

  /** `build_filter_state`, key by key as the code updates it. */
  method BuildFilterState(propertyType: string, minPrice: Option<int>, maxPrice: Option<int>,
                          minBeds: Option<int>, maxBeds: Option<int>, minBaths: Option<int>, maxBaths: Option<int>)
    returns (fs: map<FilterKey, FilterEntry>)
    requires propertyType == "all" || IsSpecificType(propertyType)
    ensures SortSelection in fs && fs[SortSelection] == Choice("globalRelevanceEx")
    ensures IsAllHomes in fs && fs[IsAllHomes] == Flag(true)
    ensures propertyType == "all" ==> forall k :: k in fs ==> !IsTypeFlag(k)
    ensures propertyType != "all" ==> TypeFlag(propertyType) in fs && fs[TypeFlag(propertyType)] == Flag(true)
    ensures propertyType != "all" ==> forall k :: k in fs && IsTypeFlag(k) ==> k == TypeFlag(propertyType)
    ensures EntryFor(fs, Price, minPrice, maxPrice)
    ensures EntryFor(fs, Beds, minBeds, maxBeds)
    ensures EntryFor(fs, Baths, minBaths, maxBaths)
  {
    fs := map[SortSelection := Choice("globalRelevanceEx"), IsAllHomes := Flag(true)];
    if propertyType != "all" {
      fs := fs[TypeFlag(propertyType) := Flag(true)];
    }
    fs := AddBounds(fs, Price, minPrice, maxPrice);
    fs := AddBounds(fs, Beds, minBeds, maxBeds);
    fs := AddBounds(fs, Baths, minBaths, maxBaths);
  }

  // ------------------------------------------------------- sample listings

  /** The search parameters `get_sample_properties` receives. */
  datatype SampleQuery = SampleQuery(
    location: string, propertyType: string,
    minPrice: Option<int>, maxPrice: Option<int>, minBeds: Option<int>, maxBeds: Option<int>,
    minBaths: Option<int>, maxBaths: Option<int>, limit: int)

  /** `x or default` for an optional integer bound. */
  function OrDefault(x: Option<int>, default: int): (r: int)
    ensures x.None? || x.value == 0 ==> r == default
    ensures x.Some? && x.value != 0 ==> r == x.value
  {
    if x.None? || x.value == 0 then default else x.value
  }

  function Min(a: int, b: int): int { if b < a then b else a }
  function Max(a: int, b: int): int { if b > a then b else a }

  const Streets: seq<string> := ["Main St", "Oak Ave", "Maple Ln", "Cedar Dr", "Pine St",
                                 "Willow Way", "Elm St", "Washington Ave", "Broadway", "Park Pl"]

  /** `str.capitalize` on ASCII text. */
  function Capitalize(s: string): (r: string)
    ensures |r| == |s|
    ensures s != [] ==> r[0] == UpperChar(s[0]) && r[1..] == Lower(s[1..])
  {
    if s == [] then [] else [UpperChar(s[0])] + Lower(s[1..])
  }

  function SampleTypes(propertyType: string): (r: seq<string>)
    ensures |r| >= 1
  {
    if propertyType == "all" then ["House", "Condo", "Apartment", "Townhome"] else [Capitalize(propertyType)]
  }

  function SampleCount(limit: int): (n: nat)
    ensures n <= 20 && (limit >= 0 ==> n == Min(limit, 20))
  {
    if limit < 0 then 0 else Min(limit, 20)
  }

  function SamplePrice(q: SampleQuery, i: nat): int {
    var lo, hi := OrDefault(q.minPrice, 200000), OrDefault(q.maxPrice, 2000000);
    lo + i * ((hi - lo) / 10) + i * 25000
  }

  function SampleBeds(q: SampleQuery, i: nat): int {
    Min(OrDefault(q.maxBeds, 5), Max(OrDefault(q.minBeds, 1), 2 + i % 4))
  }

  /** Twice the number of bathrooms: `1 + i % 3 + 0.5 * (i % 2)` clamped by
      the bounds, counted in halves so that it stays an integer. */
  function SampleBathHalves(q: SampleQuery, i: nat): (h: int)
    ensures h <= 2 * OrDefault(q.maxBaths, 4)
    ensures OrDefault(q.minBaths, 1) <= OrDefault(q.maxBaths, 4) ==> 2 * OrDefault(q.minBaths, 1) <= h
    ensures q.minBaths.None? && q.maxBaths.None? ==> 2 <= h <= 7
  {
    Min(2 * OrDefault(q.maxBaths, 4), Max(2 * OrDefault(q.minBaths, 1), 2 + 2 * (i % 3) + i % 2))
  }

  /** The bathroom count as the sample row prints it: a whole number
      without a point, a half with one decimal. */
  function BathsText(halves: int): (r: string)
    ensures halves % 2 == 0 <==> '.' !in r
    ensures halves % 2 == 1 ==> EndsWith(r, ".5") && '.' !in r[..|r| - 2]
  {
    if halves % 2 == 0 then
      var t := IntToString(halves / 2);
      IntToStringNoPoint(halves / 2);
      t
    else
      var w := if halves < 0 then "-" + NatToString(-halves / 2) else NatToString(halves / 2);
      assert '.' !in NatToString(if halves < 0 then -halves / 2 else halves / 2) by {
        NatToStringNoPoint(if halves < 0 then -halves / 2 else halves / 2);
      }
      assert '.' !in w;
      var r := w + ".5";
      assert r[..|r| - 2] == w;
      assert r[|r| - 2] == '.';
      r
  }

  lemma NatToStringNoPoint(n: nat)
    ensures '.' !in NatToString(n)
  {
    var s := NatToString(n);
    forall k | 0 <= k < |s| ensures s[k] != '.' {
      assert '0' <= s[k] <= '9';
    }
  }

  lemma IntToStringNoPoint(i: int)
    ensures '.' !in IntToString(i)
  {
    if i < 0 {
      NatToStringNoPoint(-i);
      assert IntToString(i) == "-" + NatToString(-i);
    } else {
      NatToStringNoPoint(i);
    }
  }

  /** Different bathroom counts print differently. */
  lemma BathsTextInjective(a: int, b: int)
    requires BathsText(a) == BathsText(b)
    ensures a == b
  {
    var r := BathsText(a);
    if a % 2 == 0 {
      assert b % 2 == 0;
      IntToStringInjective(a / 2, b / 2);
    } else {
      assert b % 2 == 1;
      var wa := if a < 0 then "-" + NatToString(-a / 2) else NatToString(a / 2);
      var wb := if b < 0 then "-" + NatToString(-b / 2) else NatToString(b / 2);
      assert wa + ".5" == r == wb + ".5";
      assert wa == r[..|r| - 2] == wb;
      assert a >= 0 ==> '0' <= NatToString(a / 2)[0] <= '9';
      assert b >= 0 ==> '0' <= NatToString(b / 2)[0] <= '9';
      assert (wa[0] == '-') == (a < 0) && (wb[0] == '-') == (b < 0);
      if a < 0 {
        assert wa[1..] == NatToString(-a / 2) && wb[1..] == NatToString(-b / 2);
        NatToStringInjective(-a / 2, -b / 2);
      } else {
        NatToStringInjective(a / 2, b / 2);
      }
    }
  }

  /** `f"{n / 100:.2f}"` for a whole number of hundredths. */
  function Hundredths(n: nat): (r: string)
    ensures |r| >= 4 && r[|r| - 3] == '.'
    ensures r[|r| - 2..] == [DigitChar((n % 100) / 10), DigitChar(n % 10)]
  {
    var whole := NatToString(n / 100);
    var r := whole + "." + [DigitChar((n % 100) / 10), DigitChar(n % 10)];
    assert |r| == |whole| + 3;
    r
  }

  function SampleSqft(q: SampleQuery, i: nat): int { 1000 + SampleBeds(q, i) * 250 + i * 100 }
  function SampleYear(i: nat): int { 2023 - i * 3 - i % 10 }
  function SampleDays(i: nat): int { 1 + i * 3 + i % 7 }

  function SampleAddress(q: SampleQuery, i: nat): string {
    NatToString((i + 1) * 100) + " " + Streets[i % |Streets|] + ", " + q.location
  }

  function SampleType(q: SampleQuery, i: nat): (r: string)
    ensures r in SampleTypes(q.propertyType)
  {
    var types := SampleTypes(q.propertyType);
    types[i % |types|]
  }

  function SampleUrl(q: SampleQuery, i: nat): string {
    "https://www.zillow.com/homes/" + NatToString(i) + "-sample-" + ReplaceChar(q.location, ' ', '-')
  }

  /** The ten columns of a result row, in order. */
  datatype Columns<T> = Columns(
    address: T, price: T, beds: T, baths: T, area: T,
    propertyType: T, url: T, yearBuilt: T, lotSize: T, daysOnMarket: T)

  function Cells<T>(c: Columns<T>): (r: seq<T>)
    ensures |r| == 10 && r[0] == c.address && r[1] == c.price && r[6] == c.url && r[9] == c.daysOnMarket
  {
    [c.address, c.price, c.beds, c.baths, c.area, c.propertyType, c.url, c.yearBuilt, c.lotSize, c.daysOnMarket]
  }

  /** A sample listing: ten display strings. */
  type Listing = Columns<string>

  /** Sample listing `i`. */
  function SampleListing(q: SampleQuery, i: nat): (r: Listing)
    ensures r.price == "$" + FormatThousands(SamplePrice(q, i))
    ensures r.beds == IntToString(SampleBeds(q, i))
    ensures r.propertyType in SampleTypes(q.propertyType)
    ensures r.yearBuilt == IntToString(SampleYear(i))
    ensures r.daysOnMarket == IntToString(SampleDays(i))
  {
    Columns(
      SampleAddress(q, i),
      "$" + FormatThousands(SamplePrice(q, i)),
      IntToString(SampleBeds(q, i)),
      BathsText(SampleBathHalves(q, i)),
      FormatThousands(SampleSqft(q, i)) + " sqft",
      SampleType(q, i),
      SampleUrl(q, i),
      IntToString(SampleYear(i)),
      Hundredths(10 + 5 * i) + " acres",
      IntToString(SampleDays(i)))
  }

  /** `[f(0), ..., f(n - 1)]`. */
  function Tabulate<T>(f: nat -> T, n: nat): (r: seq<T>)
    ensures |r| == n
  {
    if n == 0 then [] else Tabulate(f, n - 1) + [f(n - 1)]
  }

  lemma {:induction false} TabulateAt<T>(f: nat -> T, n: nat, i: nat)
    requires i < n
    ensures Tabulate(f, n)[i] == f(i)
  {
    if i < n - 1 {
      TabulateAt(f, n - 1, i);
    }
  }

  /** The `for i in range(min(limit, 20))` loop of `get_sample_properties`. */
  method GetSampleProperties(q: SampleQuery) returns (properties: seq<Listing>)
    ensures |properties| == SampleCount(q.limit)
    ensures forall i :: 0 <= i < |properties| ==> properties[i] == SampleListing(q, i)
  {
    var sample := (k: nat) => SampleListing(q, k);
    properties := [];
    var count := if q.limit < 0 then 0 else if q.limit < 20 then q.limit else 20;
    var i := 0;
    while i < count
      invariant 0 <= i <= count
      invariant properties == Tabulate(sample, i)
    {
      properties := properties + [sample(i)];
      i := i + 1;
    }
    forall k | 0 <= k < count
      ensures properties[k] == SampleListing(q, k)
    {
      TabulateAt(sample, count, k);
    }
  }

  /** With bounds in order, the sample bedroom count lies between them. */
  lemma SampleBedsWithinBounds(q: SampleQuery, i: nat)
    requires OrDefault(q.minBeds, 1) <= OrDefault(q.maxBeds, 5)
    ensures OrDefault(q.minBeds, 1) <= SampleBeds(q, i) <= OrDefault(q.maxBeds, 5)
  {
  }

  /** With the defaults the bedrooms cycle 2, 3, 4, 5. */
  lemma DefaultBedsCycle(q: SampleQuery, i: nat)
    requires q.minBeds.None? && q.maxBeds.None?
    ensures SampleBeds(q, i) == 2 + i % 4
  {
  }

  /** With bounds in order, each sample is dearer than the one before. */
  lemma SamplePricesIncrease(q: SampleQuery, i: nat, j: nat)
    requires OrDefault(q.minPrice, 200000) <= OrDefault(q.maxPrice, 2000000)
    requires i < j
    ensures SamplePrice(q, i) < SamplePrice(q, j)
  {
    var step := (OrDefault(q.maxPrice, 2000000) - OrDefault(q.minPrice, 200000)) / 10;
    assert step >= 0;
    assert i * step <= j * step by {
      assert (j - i) * step >= 0;
    }
  }

  /** Years built stay at most 2023 and days on market at least 1. */
  lemma SampleYearAndDaysRange(i: nat)
    ensures SampleYear(i) <= 2023 && SampleDays(i) >= 1
  {
  }

  /** Without separators, the price cell of a non-negative price is its
      decimal digits. */
  lemma SamplePriceDigits(q: SampleQuery, i: nat)
    requires SamplePrice(q, i) >= 0
    ensures RemoveChar(SampleListing(q, i).price[1..], ',') == NatToString(SamplePrice(q, i))
  {
    assert SampleListing(q, i).price[1..] == GroupThousands(SamplePrice(q, i));
    GroupThousandsDigits(SamplePrice(q, i));
  }

  // ------------------------------------------------------ record formatting

  /** `d.get(key)` on a dictionary decoded from JSON (its keys are unique). */
  function Lookup(entries: seq<(PyValue, PyValue)>, key: string): (r: Option<PyValue>)
    ensures r.None? <==> forall k :: 0 <= k < |entries| ==> entries[k].0 != VStr(key)
  {
    if entries == [] then None
    else if entries[0].0 == VStr(key) then Some(entries[0].1)
    else Lookup(entries[1..], key)
  }

  predicate HasKey(d: PyValue, key: string) { d.VDict? && Lookup(d.entries, key).Some? }

  /** `d.get(key, default)`. */
  function Get(d: PyValue, key: string, default: PyValue): (r: PyValue)
    requires d.VDict?
    ensures !HasKey(d, key) ==> r == default
  {
    match Lookup(d.entries, key)
    case Some(v) => v
    case None => default
  }

  /** One formatted property: its ten values, or an exception escaping. */
  datatype Formatted = Row(row: Columns<PyValue>) | Fails

  const NA: PyValue := VStr("N/A")

  const Placeholder: Columns<PyValue> :=
    Columns(VStr("Address not available"), NA, NA, NA, NA, NA, NA, NA, NA, NA)

  /** `key in container` for the container kinds JSON decoding produces;
      `None` where Python raises a TypeError. */
  function Contains(container: PyValue, key: string): Option<bool> {
    match container
    case VDict(_) => Some(HasKey(container, key))
    case VStr(s) => Some(Strings.Contains(s, key))
    case VList(items) => Some(VStr(key) in items)
    case VTuple(items) => Some(VStr(key) in items)
    case _ => None
  }

  /** The listing URL of a search result. */
  function SearchResultUrl(d: PyValue, render: PyValue -> string): (r: Option<PyValue>)
    requires d.VDict?
    ensures !HasKey(d, "detailUrl") && !HasKey(d, "zpid") ==> r == Some(NA)
    ensures r.None? <==> HasKey(d, "detailUrl") && !Get(d, "detailUrl", VStr("")).VStr?
  {
    if HasKey(d, "detailUrl") then
      var path := Get(d, "detailUrl", VStr(""));
      if path.VStr? then Some(VStr("https://www.zillow.com" + path.s)) else None
    else if HasKey(d, "zpid") then
      Some(VStr("https://www.zillow.com/homedetails/" + Str(Get(d, "zpid", VNone), render) + "_zpid/"))
    else Some(NA)
  }

  /** `str(v)`, and the text of an f-string field. */
  function Str(v: PyValue, render: PyValue -> string): string {
    if v.VStr? then v.s else render(v)
  }

  /** The search-results branch of `format_property_data`. */
  function FormatSearchResult(d: PyValue, render: PyValue -> string): (r: Formatted)
    requires d.VDict?
    ensures r.Row? ==> r.row.address == Get(d, "address", NA)
    ensures r.Row? ==> SearchResultUrl(d, render) == Some(r.row.url)
    ensures r.Fails? <==> HasKey(d, "detailUrl") && !Get(d, "detailUrl", VStr("")).VStr?
  {
    match SearchResultUrl(d, render)
    case None => Fails
    case Some(url) =>
      Row(Columns(
           Get(d, "address", NA),
           Get(d, "price", NA),
           Get(d, "beds", Get(d, "bedrooms", NA)),
           Get(d, "baths", Get(d, "bathrooms", NA)),
           Get(d, "area", Get(d, "livingArea", NA)),
           Get(d, "statusType", Get(d, "homeType", NA)),
           url,
           Get(d, "yearBuilt", NA),
           Get(d, "lotSize", Get(d, "lotAreaValue", NA)),
           Get(d, "daysOnZillow", Get(d, "daysOnMarket", NA))))
  }

  /** `f"${price:,}"` for an `int` or `float` price; `formatFloat` is
      Python's `format(x, ",")` for a float. */
  function PriceText(price: PyValue, formatFloat: real -> string): (r: PyValue)
    ensures price.VInt? ==> r == VStr("$" + FormatThousands(price.i))
    ensures !(price.VInt? || price.VBool? || price.VFloat?) ==> r == price
  {
    match price
    case VInt(i) => VStr("$" + FormatThousands(i))
    case VBool(b) => VStr(if b then "$1" else "$0")
    case VFloat(f) => VStr("$" + formatFloat(f))
    case _ => price
  }

  /** `f"{prop[key]} {prop.get(unitKey, unit)}"` when `key` is present. */
  function Measure(prop: PyValue, key: string, unitKey: string, unit: string, render: PyValue -> string): (r: PyValue)
    requires prop.VDict?
    ensures !HasKey(prop, key) ==> r == NA
    ensures HasKey(prop, key) ==> r.VStr? && StartsWith(r.s, Str(Get(prop, key, VNone), render) + " ")
    ensures HasKey(prop, key) && !HasKey(prop, unitKey) ==> r.VStr? && EndsWith(r.s, " " + unit)
    ensures HasKey(prop, key) ==>
      r == VStr(Str(Get(prop, key, VNone), render) + " " + Str(Get(prop, unitKey, VStr(unit)), render))
  {
    if HasKey(prop, key) then
      var value := Str(Get(prop, key, VNone), render);
      var units := Str(Get(prop, unitKey, VStr(unit)), render);
      var t := value + " " + units;
      assert t[..|value + " "|] == value + " ";
      assert t[|t| - |" " + units|..] == " " + units;
      VStr(t)
    else NA
  }

  /** The text `f", {city}, {state}"` appended to the street address. */
  function CitySuffix(addr: PyValue, render: PyValue -> string): string
    requires addr.VDict?
  {
    ", " + Str(Get(addr, "city", VNone), render) + ", " + Str(Get(addr, "state", VStr("")), render)
  }

  /** The street address line of the details branch: `.get` on an address
      that is not a dict raises, and `address += suffix` concatenates a
      string, extends a list by the suffix's characters and raises for
      anything else. */
  function DetailsAddress(prop: PyValue, render: PyValue -> string): (r: Option<PyValue>)
    requires prop.VDict?
    ensures !HasKey(prop, "address") ==> r == Some(NA)
    ensures HasKey(prop, "address") && !Get(prop, "address", VNone).VDict? ==> r.None?
    ensures var addr := Get(prop, "address", VDict([]));
      addr.VDict? ==>
        var street := Get(addr, "streetAddress", NA);
        && (!HasKey(addr, "city") ==> r == Some(street))
        && (HasKey(addr, "city") && street.VStr? ==> r == Some(VStr(street.s + CitySuffix(addr, render))))
        && (HasKey(addr, "city") && street.VList? ==> r == Some(VList(street.items + Chars(CitySuffix(addr, render)))))
        && (HasKey(addr, "city") && !street.VStr? && !street.VList? ==> r.None?)
  {
    var addr := Get(prop, "address", VDict([]));
    if !addr.VDict? then None
    else
      var street := Get(addr, "streetAddress", NA);
      if !HasKey(addr, "city") then Some(street)
      else
        match street
        case VStr(s) => Some(VStr(s + CitySuffix(addr, render)))
        case VList(items) => Some(VList(items + Chars(CitySuffix(addr, render))))
        case _ => None
  }

  /** The property-details branch of `format_property_data`. */
  function FormatDetails(prop: PyValue, render: PyValue -> string, formatFloat: real -> string): (r: Formatted)
    requires prop.VDict?
    ensures r.Row? ==> r.row.url == VStr("https://www.zillow.com/homedetails/" + Str(Get(prop, "zpid", VStr("")), render) + "_zpid/")
    ensures r.Fails? <==> DetailsAddress(prop, render).None?
    ensures r.Row? ==> r.row.address == DetailsAddress(prop, render).value
    ensures r.Row? ==> r.row.area == Measure(prop, "livingAreaValue", "livingAreaUnits", "sqft", render)
                       && r.row.lotSize == Measure(prop, "lotAreaValue", "lotAreaUnits", "acres", render)
  {
    match DetailsAddress(prop, render)
    case None => Fails
    case Some(address) =>
      Row(Columns(
           address,
           PriceText(Get(prop, "price", Get(prop, "priceForHDP", NA)), formatFloat),
           Get(prop, "bedrooms", Get(prop, "beds", NA)),
           Get(prop, "bathrooms", Get(prop, "baths", NA)),
           Measure(prop, "livingAreaValue", "livingAreaUnits", "sqft", render),
           Get(prop, "homeType", NA),
           VStr("https://www.zillow.com/homedetails/" + Str(Get(prop, "zpid", VStr("")), render) + "_zpid/"),
           Get(prop, "yearBuilt", NA),
           Measure(prop, "lotAreaValue", "lotAreaUnits", "acres", render),
           Get(prop, "daysOnZillow", Get(prop, "timeOnZillow", NA))))
  }

  /** The second branch of `format_property_data`, entered when the record
      has `data` but no `address`: `"property" in data`, then
      `data["property"]` and its details. */
  function FormatDataRecord(data: PyValue, render: PyValue -> string, formatFloat: real -> string): (r: Formatted)
    ensures Contains(data, "property").None? ==> r == Fails
    ensures Contains(data, "property") == Some(false) ==> r == Row(Placeholder)
    ensures Contains(data, "property") == Some(true) && !data.VDict? ==> r == Fails
    ensures HasKey(data, "property") && !Get(data, "property", VNone).VDict? ==> r == Fails
    ensures HasKey(data, "property") && Get(data, "property", VNone).VDict? ==>
      r == FormatDetails(Get(data, "property", VNone), render, formatFloat)
  {
    if data.VDict? then
      if !HasKey(data, "property") then Row(Placeholder)
      else
        var prop := Get(data, "property", VNone);
        if prop.VDict? then FormatDetails(prop, render, formatFloat) else Fails
    else if Contains(data, "property") == Some(false) then Row(Placeholder)
    else Fails
  }

  /** `format_property_data`. */
  function FormatPropertyData(d: PyValue, render: PyValue -> string, formatFloat: real -> string): (r: Formatted)
    ensures !d.VDict? ==> r == Row(Placeholder)
    ensures HasKey(d, "address") ==> r == FormatSearchResult(d, render)
    ensures d.VDict? && !HasKey(d, "address") && !HasKey(d, "data") ==> r == Row(Placeholder)
    ensures d.VDict? && !HasKey(d, "address") && HasKey(d, "data") ==>
      r == FormatDataRecord(Get(d, "data", VNone), render, formatFloat)
  {
    if d.VDict? && HasKey(d, "address") then FormatSearchResult(d, render)
    else if d.VDict? && HasKey(d, "data") then FormatDataRecord(Get(d, "data", VNone), render, formatFloat)
    else Row(Placeholder)
  }

  /** A record with neither shape is reported as the placeholder row. */
  lemma UnknownShapeIsPlaceholder(d: PyValue, render: PyValue -> string, formatFloat: real -> string)
    requires d.VDict? && !HasKey(d, "address")
    requires HasKey(d, "data") ==> Contains(Get(d, "data", VNone), "property") == Some(false)
    ensures FormatPropertyData(d, render, formatFloat) == Row(Placeholder)
  {
  }

  /** A search result without URL fields gets "N/A" as its URL. */
  lemma SearchResultWithoutUrl(d: PyValue, render: PyValue -> string, formatFloat: real -> string)
    requires HasKey(d, "address") && !HasKey(d, "detailUrl") && !HasKey(d, "zpid")
    ensures FormatPropertyData(d, render, formatFloat).Row?
    ensures FormatPropertyData(d, render, formatFloat).row.url == NA
  {
    assert SearchResultUrl(d, render) == Some(NA);
  }

  // ------------------------------------------------------- result assembly

  const Header: Columns<PyValue> :=
    Columns(VStr("Address"), VStr("Price"), VStr("Bedrooms"), VStr("Bathrooms"), VStr("Square Footage"),
            VStr("Property Type"), VStr("Zillow URL"), VStr("Year Built"), VStr("Lot Size"), VStr("Days on Market"))

  const NoProperties: Columns<PyValue> :=
    Columns(VStr("No properties found matching your criteria"), VStr(""), VStr(""), VStr(""), VStr(""),
            VStr(""), VStr(""), VStr(""), VStr(""), VStr(""))

  /** What a record lookup by id or URL did: raised, or returned a value. */
  datatype Fetch = Raises | Returns(value: PyValue)

  /** What `search_properties` did: raised, or returned formatted rows. */
  datatype SearchOutcome = SearchRaises | SearchReturns(rows: seq<Columns<PyValue>>)

  /** The rows of a single looked-up record; `None` when an exception
      escapes. */
  function RecordRows(f: Fetch, render: PyValue -> string, formatFloat: real -> string): (r: Option<seq<Columns<PyValue>>>)
    ensures f.Raises? ==> r.None?
    ensures f.Returns? && !Truthy(f.value) ==> r == Some([])
    ensures r.Some? ==> |r.value| <= 1
  {
    match f
    case Raises => None
    case Returns(data) =>
      if !Truthy(data) then Some([])
      else
        match FormatPropertyData(data, render, formatFloat)
        case Fails => None
        case Row(row) => Some([row])
  }

  /** The `properties` the `try` block collects: by id, else by URL, else
      by search; `None` when it raises. */
  function Collect(q: Query, byId: Fetch, byUrl: Fetch, search: SearchOutcome,
                   render: PyValue -> string, formatFloat: real -> string): (r: Option<seq<Columns<PyValue>>>)
    ensures Truthy(q.propertyId) ==> r == RecordRows(byId, render, formatFloat)
    ensures !Truthy(q.propertyId) && Truthy(q.propertyUrl) ==> r == RecordRows(byUrl, render, formatFloat)
    ensures !Truthy(q.propertyId) && !Truthy(q.propertyUrl) ==>
      r == if search.SearchRaises? then None else Some(search.rows)
  {
    if Truthy(q.propertyId) then RecordRows(byId, render, formatFloat)
    else if Truthy(q.propertyUrl) then RecordRows(byUrl, render, formatFloat)
    else if search.SearchRaises? then None
    else Some(search.rows)
  }

  /** How many of `n` rows a positive `limit` lets through. */
  function Kept(limit: int, n: nat): (k: nat)
    ensures k <= n
    ensures limit >= 1 && n >= 1 ==> k >= 1
  {
    if limit <= 0 then 0 else Min(limit, n)
  }

  /** The `for i, prop_data in enumerate(properties)` loop with its `break`. */
  method AppendLimited(result: seq<Columns<PyValue>>, properties: seq<Columns<PyValue>>, limit: int)
    returns (r: seq<Columns<PyValue>>)
    ensures r == result + properties[..Kept(limit, |properties|)]
  {
    r := result;
    var i := 0;
    while i < |properties|
      invariant 0 <= i <= Kept(limit, |properties|)
      invariant r == result + properties[..i]
    {
      if i >= limit {
        break;
      }
      r := r + [properties[i]];
      i := i + 1;
      assert properties[..i] == properties[..i - 1] + [properties[i - 1]];
    }
    assert i == Kept(limit, |properties|);
  }

  function AsValues(l: Listing): Columns<PyValue> {
    Columns(VStr(l.address), VStr(l.price), VStr(l.beds), VStr(l.baths), VStr(l.area),
            VStr(l.propertyType), VStr(l.url), VStr(l.yearBuilt), VStr(l.lotSize), VStr(l.daysOnMarket))
  }

  /** The arguments `get_sample_properties` is called with. */
  function SampleQueryOf(q: Query): SampleQuery
    requires q.location.VStr? && q.propertyType.VStr? && IsInt(q.limit)
  {
    SampleQuery(q.location.s, q.propertyType.s, q.minPrice, q.maxPrice, q.minBeds, q.maxBeds,
                q.minBaths, q.maxBaths, IntValue(q.limit))
  }

  /** `result.extend(properties)` with the sample rows. */
  method AppendSamples(result: seq<Columns<PyValue>>, samples: seq<Listing>) returns (r: seq<Columns<PyValue>>)
    ensures |r| == |result| + |samples|
    ensures r[..|result|] == result
    ensures forall k :: 0 <= k < |samples| ==> r[|result| + k] == AsValues(samples[k])
  {
    r := result;
    for i := 0 to |samples|
      invariant |r| == |result| + i && r[..|result|] == result
      invariant forall k :: 0 <= k < i ==> r[|result| + k] == AsValues(samples[k])
    {
      r := r + [AsValues(samples[i])];
    }
  }

  /** `zillow`: the checks, then the header and either the collected rows
      (at most `limit`, or the "no properties" row) or, when collecting
      raises, the sample rows. */
  method ZillowSearch(q: Query, byId: Fetch, byUrl: Fetch, search: SearchOutcome,
                render: PyValue -> string, formatFloat: real -> string)
    returns (r: PyResult<seq<Columns<PyValue>>>)
    ensures Validate(q).Some? ==> r == Raised(ValueError(Validate(q).value))
    ensures Validate(q).None? ==> r.Ok? && |r.value| >= 2 && r.value[0] == Header
    ensures Validate(q).None? && Collect(q, byId, byUrl, search, render, formatFloat).None? ==>
      |r.value| == 1 + SampleCount(IntValue(q.limit))
      && forall k :: 1 <= k < |r.value| ==> r.value[k] == AsValues(SampleListing(SampleQueryOf(q), k - 1))
    ensures Validate(q).None? && Collect(q, byId, byUrl, search, render, formatFloat) == Some([]) ==>
      r.value == [Header, NoProperties]
    ensures Validate(q).None? && Collect(q, byId, byUrl, search, render, formatFloat).Some? ==>
      var ps := Collect(q, byId, byUrl, search, render, formatFloat).value;
      ps != [] ==> r.value == [Header] + ps[..Kept(IntValue(q.limit), |ps|)]
  {
    var invalid := Validate(q);
    if invalid.Some? {
      return Raised(ValueError(invalid.value));
    }
    var rows := AssembleRows(Collect(q, byId, byUrl, search, render, formatFloat), SampleQueryOf(q));
    return Ok(rows);
  }

  /** The table after the checks pass: the header, then the collected rows
      or the sample rows. */
  method AssembleRows(collected: Option<seq<Columns<PyValue>>>, sq: SampleQuery) returns (rows: seq<Columns<PyValue>>)
    requires sq.limit >= 1
    ensures |rows| >= 2 && rows[0] == Header
    ensures collected.None? ==>
      |rows| == 1 + SampleCount(sq.limit) && forall k :: 1 <= k < |rows| ==> rows[k] == AsValues(SampleListing(sq, k - 1))
    ensures collected == Some([]) ==> rows == [Header, NoProperties]
    ensures collected.Some? && collected.value != [] ==> rows == [Header] + collected.value[..Kept(sq.limit, |collected.value|)]
  {
    var result := [Header];
    if collected.None? {
      var samples := GetSampleProperties(sq);
      rows := AppendSamples(result, samples);
      forall k | 1 <= k < |rows| ensures rows[k] == AsValues(SampleListing(sq, k - 1)) {
        assert rows[1 + (k - 1)] == AsValues(samples[k - 1]);
      }
    } else {
      rows := AppendLimited(result, collected.value, sq.limit);
      if |rows| == 1 {
        rows := rows + [NoProperties];
      }
    }
  }
}
