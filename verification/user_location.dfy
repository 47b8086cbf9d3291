/**
 * The visitor's location (`src/services/userLocation.tsx`): the provider fills it from the
 * browser's position or, failing that, from an IP lookup, naming the place by reverse
 * geocoding; and the table of country coordinates the supplier distances are measured from.
 *
 * Network answers are parameters: `None` is a request or a JSON parse that failed, `Some`
 * the decoded body. Coordinates the provider only copies are kept as the values it was
 * given; the table's coordinates are in ten-thousandths of a degree.
 */
module UserLocation {
  import opened Wrappers
  import opened Text
  import opened JsValue
  import opened Seqs

  // ---------------------------------------------------------------------------
  // Country coordinates
  // ---------------------------------------------------------------------------

  /** One entry of `COUNTRY_COORDS`. */
  datatype Place = Place(lat: int, lng: int, name: string)

  datatype Country = Country(code: string, place: Place)

  /** `Array.prototype.find` by position: the first entry satisfying `p`. */
  function FindIndex(table: seq<Country>, p: Country -> bool): (r: Option<nat>)
    ensures r.None? <==> forall i :: 0 <= i < |table| ==> !p(table[i])
    ensures r.Some? ==> r.value < |table| && p(table[r.value])
    ensures r.Some? ==> forall j :: 0 <= j < r.value ==> !p(table[j])
  {
    if table == [] then None
    else if p(table[0]) then Some(0)
    else
      match FindIndex(table[1..], p)
      case None => None
      case Some(i) => Some(i + 1)
  }

  /** `table[key]`: the entry stored under a code (the codes of an object are distinct). */
  function ByCode(table: seq<Country>, key: string): (r: Option<nat>)
    ensures r.None? <==> forall i :: 0 <= i < |table| ==> table[i].code != key
    ensures r.Some? ==> r.value < |table| && table[r.value].code == key
  {
    FindIndex(table, (c: Country) => c.code == key)
  }

  /** The first entry whose name, lower-cased, is `lowered`. */
  function ByName(table: seq<Country>, lowered: string): (r: Option<nat>)
    ensures r.None? <==> forall i :: 0 <= i < |table| ==> ToLower(table[i].place.name) != lowered
    ensures r.Some? ==> r.value < |table| && ToLower(table[r.value].place.name) == lowered
    ensures r.Some? ==> forall j :: 0 <= j < r.value ==> ToLower(table[j].place.name) != lowered
  {
    FindIndex(table, (c: Country) => ToLower(c.place.name) == lowered)
  }

  /**
   * `getCountryCoords` over a table: `null` for a missing or blank input; the entry of a two-letter code,
   * in either case; else the first entry whose name matches, ignoring case; else `null`.
   */
  function CoordsIn(table: seq<Country>, country: Option<string>): (r: Option<Place>)
    ensures country.None? || AllSpace(country.value) ==> r.None?
    ensures r.Some? ==> exists i :: 0 <= i < |table| && table[i].place == r.value
    ensures country.Some? && !AllSpace(country.value) ==>
      var key := ToUpper(Trim(country.value));
      && (|key| == 2 && ByCode(table, key).Some? ==> r == Some(table[ByCode(table, key).value].place))
      && (!(|key| == 2 && ByCode(table, key).Some?) && ByName(table, ToLower(Trim(country.value))).None? ==> r.None?)
      && (!(|key| == 2 && ByCode(table, key).Some?) && ByName(table, ToLower(Trim(country.value))).Some? ==>
            r == Some(table[ByName(table, ToLower(Trim(country.value))).value].place))
  {
    if country.None? then None
    else
      var s := country.value;
      TrimEmptyIffAllSpace(s);
      if s == "" || Trim(s) == "" then None
      else
        var key := ToUpper(Trim(s));
        var code := ByCode(table, key);
        if |key| == 2 && code.Some? then Some(table[code.value].place)
        else
          match ByName(table, ToLower(Trim(s)))
          case None => None
          case Some(i) => Some(table[i].place)
  }

  /** Surrounding blanks make no difference. */
  lemma CoordsIgnoreBlanks(table: seq<Country>, s: string)
    ensures CoordsIn(table, Some(s)) == CoordsIn(table, Some(Trim(s)))
  {
    TrimIdempotent(s);
    TrimEmptyIffAllSpace(s);
    TrimEmptyIffAllSpace(Trim(s));
  }

  /** A code is found whatever its case: the input and its upper-cased form give the same entry. */
  lemma CodesIgnoreCase(table: seq<Country>, s: string)
    requires |ToUpper(Trim(s))| == 2 && ByCode(table, ToUpper(Trim(s))).Some?
    ensures CoordsIn(table, Some(ToUpper(s))) == CoordsIn(table, Some(s))
    ensures CoordsIn(table, Some(s)) == Some(table[ByCode(table, ToUpper(Trim(s))).value].place)
  {
    ToUpperTrim(s);
    ToUpperIdempotent(Trim(s));
    assert ToUpper(Trim(ToUpper(s))) == ToUpper(Trim(s));
    TrimEmptyIffAllSpace(s);
    TrimEmptyIffAllSpace(ToUpper(s));
    assert Trim(s) != "";
    assert Trim(ToUpper(s)) != "";
  }

  /** A trimmed two-character input that is a code gives that code's entry. */
  lemma CodeHit(table: seq<Country>, s: string, i: nat)
    requires s != "" && Trim(s) == s && |ToUpper(s)| == 2 && ByCode(table, ToUpper(s)) == Some(i)
    ensures CoordsIn(table, Some(s)) == Some(table[i].place)
  {
    TrimEmptyIffAllSpace(s);
  }

  /** A trimmed input that is not a two-character code gives the first entry of that name. */
  lemma NameHit(table: seq<Country>, s: string, i: nat)
    requires s != "" && Trim(s) == s && |ToUpper(s)| != 2 && ByName(table, ToLower(s)) == Some(i)
    ensures CoordsIn(table, Some(s)) == Some(table[i].place)
  {
    TrimEmptyIffAllSpace(s);
  }

  // ---------------------------------------------------------------------------
  // Reverse geocoding
  // ---------------------------------------------------------------------------

  /** `a || b || ... || last`. */
  function FirstTruthy(values: seq<Json>, last: Json): (r: Json)
    ensures Truthy(r) || r == last
  {
    if values == [] then last else Or(values[0], FirstTruthy(values[1..], last))
  }

  /** The chain gives its first truthy value. */
  lemma {:induction false} FirstTruthyIsFirst(values: seq<Json>, last: Json, i: nat)
    requires i < |values| && Truthy(values[i])
    requires forall j :: 0 <= j < i ==> !Truthy(values[j])
    ensures FirstTruthy(values, last) == values[i]
  {
    if i > 0 {
      assert values[1..][i - 1] == values[i];
      FirstTruthyIsFirst(values[1..], last, i - 1);
    }
  }

  /** With no truthy value, the chain gives `last`. */
  lemma {:induction false} FirstTruthyNone(values: seq<Json>, last: Json)
    requires forall j :: 0 <= j < |values| ==> !Truthy(values[j])
    ensures FirstTruthy(values, last) == last
  {
    if values != [] {
      FirstTruthyNone(values[1..], last);
    }
  }

  /** What `reverseGeocode` resolves to. */
  datatype Geo = Geo(city: Json, region: Json, country: Json, countryCode: string, address: string)

  /** `data?.address?.country_code || ''`, the value whose `toUpperCase` is called. */
  function CodeValue(data: Json): Json {
    Or(Field(Field(data, "address"), "country_code"), Str(""))
  }

  /**
   * `reverseGeocode` on the decoded Nominatim answer. `None` is the `TypeError` thrown when
   * the country code is a truthy value that is not a string.
   */
  function ReverseGeocode(data: Json): (r: Option<Geo>)
    ensures r.None? <==> !CodeValue(data).Str?
    ensures r.Some? ==> r.value.countryCode == ToUpper(CodeValue(data).s)
    ensures r.Some? ==> ToUpper(r.value.countryCode) == r.value.countryCode
    ensures r.Some? ==> var addr := Or(Field(data, "address"), Obj([]));
      && OrElse(r.value.country, Field(addr, "country"), Str(""))
      && (Truthy(Field(addr, "state")) ==> r.value.region == Field(addr, "state"))
      && (!Truthy(Field(addr, "state")) ==> OrElse(r.value.region, Field(addr, "county"), Str("")))
  {
    var addr := Or(Field(data, "address"), Obj([]));
    var city := FirstTruthy(CityNames(addr), Str(""));
    var region := Or(Or(Field(addr, "state"), Field(addr, "county")), Str(""));
    var country := Or(Field(addr, "country"), Str(""));
    var code := CodeValue(data);
    var road := FirstTruthy([Field(addr, "road"), Field(addr, "pedestrian")], Str(""));
    var neighbourhood := FirstTruthy([Field(addr, "neighbourhood"), Field(addr, "suburb")], Str(""));
    if !code.Str? then None
    else
      ToUpperIdempotent(code.s);
      Some(Geo(city, region, country, ToUpper(code.s), JoinTruthy([road, neighbourhood, city, country], ", ")))
  }

  /** The names a geocoded address may give its place, most precise first. */
  function CityNames(addr: Json): (r: seq<Json>)
    ensures |r| == 4
  {
    [Field(addr, "city"), Field(addr, "town"), Field(addr, "village"), Field(addr, "hamlet")]
  }

  /** The city is the first truthy of `city`, `town`, `village` and `hamlet`, else `''`. */
  lemma GeocodedCity(data: Json, i: nat)
    requires ReverseGeocode(data).Some?
    ensures var names := CityNames(Or(Field(data, "address"), Obj([])));
      i < |names| && Truthy(names[i]) && (forall j :: 0 <= j < i ==> !Truthy(names[j])) ==>
        ReverseGeocode(data).value.city == names[i]
    ensures var names := CityNames(Or(Field(data, "address"), Obj([])));
      (forall j :: 0 <= j < |names| ==> !Truthy(names[j])) ==> ReverseGeocode(data).value.city == Str("")
  {
    var names := CityNames(Or(Field(data, "address"), Obj([])));
    if i < |names| && Truthy(names[i]) && (forall j :: 0 <= j < i ==> !Truthy(names[j])) {
      FirstTruthyIsFirst(names, Str(""), i);
    }
    if forall j :: 0 <= j < |names| ==> !Truthy(names[j]) {
      FirstTruthyNone(names, Str(""));
    }
  }

  /**
   * The address names the road, the neighbourhood, the city and the country, dropping
   * missing ones; when the geocoder gives them as strings, it is the non-empty ones joined
   * by `, `.
   */
  lemma GeocodedAddress(data: Json, road: string, neighbourhood: string)
    requires ReverseGeocode(data).Some?
    requires var addr := Or(Field(data, "address"), Obj([]));
      && FirstTruthy([Field(addr, "road"), Field(addr, "pedestrian")], Str("")) == Str(road)
      && FirstTruthy([Field(addr, "neighbourhood"), Field(addr, "suburb")], Str("")) == Str(neighbourhood)
    ensures var g := ReverseGeocode(data).value;
      g.city.Str? && g.country.Str? ==>
        g.address == Join(Filter([road, neighbourhood, g.city.s, g.country.s], NonEmpty), ", ")
  {
    var g := ReverseGeocode(data).value;
    GeocodedParts(data);
    if g.city.Str? && g.country.Str? {
      JoinStringParts(road, neighbourhood, g.city.s, g.country.s);
    }
  }

  /** The address joins the road, the neighbourhood, the city and the country of the answer. */
  lemma GeocodedParts(data: Json)
    requires ReverseGeocode(data).Some?
    ensures var addr := Or(Field(data, "address"), Obj([])); var g := ReverseGeocode(data).value;
      g.address == JoinTruthy([FirstTruthy([Field(addr, "road"), Field(addr, "pedestrian")], Str("")),
                               FirstTruthy([Field(addr, "neighbourhood"), Field(addr, "suburb")], Str("")),
                               g.city, g.country], ", ")
  {
  }

  /** Four string parts joined as `filter(Boolean).join(', ')` does. */
  lemma JoinStringParts(a: string, b: string, c: string, d: string)
    ensures JoinTruthy([Str(a), Str(b), Str(c), Str(d)], ", ") == Join(Filter([a, b, c, d], NonEmpty), ", ")
  {
    assert Strs([a, b, c, d]) == [Str(a), Str(b), Str(c), Str(d)];
    JoinTruthyStrings([a, b, c, d], ", ");
  }

  /** Without a road or a neighbourhood the address is the city and the country. */
  lemma CityCountryAddress(road: Json, neighbourhood: Json, city: string, country: string)
    requires !Truthy(road) && !Truthy(neighbourhood) && city != "" && country != ""
    ensures JoinTruthy([road, neighbourhood, Str(city), Str(country)], ", ") == city + ", " + country
  {
    JoinTruthySkip(road, [neighbourhood, Str(city), Str(country)], ", ");
    assert [road, neighbourhood, Str(city), Str(country)] == [road] + [neighbourhood, Str(city), Str(country)];
    JoinTruthySkip(neighbourhood, [Str(city), Str(country)], ", ");
    assert [neighbourhood, Str(city), Str(country)] == [neighbourhood] + [Str(city), Str(country)];
    JoinTruthyTwo(city, country, ", ");
  }

  // ---------------------------------------------------------------------------
  // The provider
  // ---------------------------------------------------------------------------

  /** `IUserLocation`. */
  datatype Location = Location(
    country: Json,
    countryCode: string,
    city: Json,
    region: Json,
    latitude: Json,
    longitude: Json,
    address: string,
    loaded: bool)

  /** `defaultLocation`. */
  const DefaultLocation := Location(Str(""), "", Str(""), Str(""), Num(0), Num(0), "", false)

  /** What every failure settles on: the default location, marked as loaded. */
  const FailedLocation := DefaultLocation.(loaded := true)

  /** Every country code the provider stores is upper case. */
  predicate UpperCode(loc: Location) {
    ToUpper(loc.countryCode) == loc.countryCode
  }

  /** The location names the geocoded place: its country, city, region and address. */
  predicate HoldsGeo(loc: Location, g: Geo) {
    loc.country == g.country && loc.city == g.city && loc.region == g.region && loc.address == g.address
  }

  /** `(code || '').toUpperCase()` on the ipapi code, when that does not throw. */
  function IpCode(data: Json): Json {
    Or(Field(data, "country_code"), Str(""))
  }

  /**
   * The browser gave a position: the geocoded place with those coordinates, or only the
   * coordinates when reverse geocoding fails.
   */
  function FromPosition(latitude: Json, longitude: Json, answer: Option<Json>): (r: Location)
    ensures r.loaded && UpperCode(r)
    ensures r.latitude == latitude && r.longitude == longitude
    ensures answer.None? || ReverseGeocode(answer.value).None? ==>
      r == FailedLocation.(latitude := latitude, longitude := longitude)
    ensures answer.Some? && ReverseGeocode(answer.value).Some? ==>
      HoldsGeo(r, ReverseGeocode(answer.value).value) && r.countryCode == ReverseGeocode(answer.value).value.countryCode
  {
    var geo := if answer.None? then None else ReverseGeocode(answer.value);
    match geo
    case None => DefaultLocation.(latitude := latitude, longitude := longitude, loaded := true)
    case Some(g) => Location(g.country, g.countryCode, g.city, g.region, latitude, longitude, g.address, true)
  }

  /**
   * `fetchIpFallback`: `ip` is the ipapi answer and `answer` the Nominatim answer for its
   * coordinates. The geocoded place is used when it resolves; otherwise the ipapi fields;
   * every failure, including a `toUpperCase` that throws on the way, gives the default.
   */
  function FromIp(ip: Option<Json>, answer: Option<Json>): (r: Location)
    ensures r.loaded && UpperCode(r)
    ensures ip.None? ==> r == FailedLocation
    ensures ip.Some? && !(Truthy(ip.value) && Truthy(Field(ip.value, "latitude")) && Truthy(Field(ip.value, "longitude"))) ==>
      r == FailedLocation
    ensures r != FailedLocation ==> r.latitude == Field(ip.value, "latitude") && r.longitude == Field(ip.value, "longitude")
    ensures (&& ip.Some? && Truthy(ip.value) && Truthy(Field(ip.value, "latitude")) && Truthy(Field(ip.value, "longitude"))
             && answer.Some? && ReverseGeocode(answer.value).Some?) ==>
      var g := ReverseGeocode(answer.value).value;
      && (g.countryCode != "" ==> HoldsGeo(r, g) && r.countryCode == g.countryCode)
      && (g.countryCode == "" && IpCode(ip.value).Str? ==> HoldsGeo(r, g) && r.countryCode == ToUpper(IpCode(ip.value).s))
      && (g.countryCode == "" && !IpCode(ip.value).Str? ==> r == FailedLocation)
  {
    if ip.None? then FailedLocation
    else
      var data := ip.value;
      var lat, lng := Field(data, "latitude"), Field(data, "longitude");
      if !(Truthy(data) && Truthy(lat) && Truthy(lng)) then FailedLocation
      else
        var ipCode := IpCode(data);
        var geo := if answer.None? then None else ReverseGeocode(answer.value);
        if geo.Some? && (geo.value.countryCode != "" || ipCode.Str?) then
          var g := geo.value;
          var code := if g.countryCode != "" then g.countryCode else ToUpper(ipCode.s);
          ToUpperIdempotent(if ipCode.Str? then ipCode.s else "");
          Location(g.country, code, g.city, g.region, lat, lng, g.address, true)
        else if ipCode.Str? then
          var city := Or(Field(data, "city"), Str(""));
          var country := Or(Field(data, "country_name"), Str(""));
          ToUpperIdempotent(ipCode.s);
          Location(country, ToUpper(ipCode.s), city, Or(Field(data, "region"), Str("")), lat, lng,
                   JoinTruthy([city, country], ", "), true)
        else FailedLocation
  }

  /**
   * When reverse geocoding fails, ipapi's city, country and region are used, each `''` when
   * falsy; the address joins the city and the country, dropping an empty one; the code is
   * ipapi's, upper-cased.
   */
  lemma IpFieldsWhenGeocodingFails(data: Json, answer: Option<Json>)
    requires Truthy(data) && Truthy(Field(data, "latitude")) && Truthy(Field(data, "longitude"))
    requires answer.None? || ReverseGeocode(answer.value).None?
    requires IpCode(data).Str?
    ensures var r := FromIp(Some(data), answer);
      && OrElse(r.city, Field(data, "city"), Str("")) && OrElse(r.country, Field(data, "country_name"), Str(""))
      && OrElse(r.region, Field(data, "region"), Str(""))
      && r.address == JoinTruthy([r.city, r.country], ", ")
      && r.countryCode == ToUpper(IpCode(data).s)
    ensures var r := FromIp(Some(data), answer);
      && (r.city.Str? && r.city.s != "" && r.country.Str? && r.country.s != "" ==> r.address == r.city.s + ", " + r.country.s)
      && (r.city.Str? && !Truthy(r.country) ==> r.address == r.city.s)
      && (!Truthy(r.city) && r.country.Str? ==> r.address == r.country.s)
  {
    var r := FromIp(Some(data), answer);
    AddressOfPair(r.city, r.country);
  }

  /** The two-part address: both parts when both are non-empty, else the one that is. */
  lemma AddressOfPair(city: Json, country: Json)
    ensures city.Str? && city.s != "" && country.Str? && country.s != "" ==> JoinTruthy([city, country], ", ") == city.s + ", " + country.s
    ensures city.Str? && !Truthy(country) ==> JoinTruthy([city, country], ", ") == city.s
    ensures !Truthy(city) && country.Str? ==> JoinTruthy([city, country], ", ") == country.s
  {
    if city.Str? && city.s != "" && country.Str? && country.s != "" {
      JoinTruthyTwo(city.s, country.s, ", ");
    }
    if city.Str? && !Truthy(country) {
      assert Filter([city, country], Truthy) == Filter([city], Truthy) by {
        assert [city, country][1..] == [country];
      }
    }
    if !Truthy(city) && country.Str? {
      JoinTruthySkip(city, [country], ", ");
      assert [city] + [country] == [city, country];
    }
  }

  /**
   * A code that is a truthy non-string makes `toUpperCase` throw, and when geocoding gave
   * no code either, the whole fallback settles on the default.
   */
  lemma IpCodeThrows(data: Json, answer: Option<Json>)
    requires Truthy(data) && Truthy(Field(data, "latitude")) && Truthy(Field(data, "longitude"))
    requires Truthy(Field(data, "country_code")) && !Field(data, "country_code").Str?
    requires answer.None? || ReverseGeocode(answer.value).None? || ReverseGeocode(answer.value).value.countryCode == ""
    ensures FromIp(Some(data), answer) == FailedLocation
  {
  }

  /** `UserLocationProvider`'s state: the location it shares, updated by the callbacks. */
  class LocationProvider {
    var location: Location

    ghost predicate Valid()
      reads this
    {
      UpperCode(location)
    }

    constructor()
      ensures location == DefaultLocation && Valid()
    {
      location := DefaultLocation;
    }

    /** The position callback, after reverse geocoding resolved (`Some`) or failed (`None`). */
    method OnPosition(latitude: Json, longitude: Json, answer: Option<Json>)
      modifies this
      ensures location == FromPosition(latitude, longitude, answer) && Valid()
    {
      location := FromPosition(latitude, longitude, answer);
    }

    /** The error callback, or no geolocation at all: `fetchIpFallback`. */
    method OnIpFallback(ip: Option<Json>, answer: Option<Json>)
      modifies this
      ensures location == FromIp(ip, answer) && Valid()
    {
      location := FromIp(ip, answer);
    }
  }
}
