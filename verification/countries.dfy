/** `COUNTRY_COORDS` and `getCountryCoords` (`src/services/userLocation.tsx`). */
module Countries {
  import opened Wrappers
  import opened Text
  import opened UserLocation

  /** `COUNTRY_COORDS`, in the order its keys were written. */
  const CountryTable: seq<Country> := [
    Country("TG", Place(61375, 12123, "Togo")),
    Country("GH", Place(56037, -1870, "Ghana")),
    Country("NG", Place(65244, 33792, "Nigeria")),
    Country("BJ", Place(63703, 23912, "B\U{e9}nin")),
    Country("CI", Place(53600, -40083, "C\U{f4}te d'Ivoire")),
    Country("SN", Place(146928, -174467, "S\U{e9}n\U{e9}gal")),
    Country("DE", Place(501109, 86821, "Allemagne")),
    Country("FR", Place(488566, 23522, "France")),
    Country("CN", Place(312304, 1214737, "Chine")),
    Country("US", Place(407128, -740060, "\U{c9}tats-Unis")),
    Country("JP", Place(356762, 1396503, "Japon")),
    Country("GB", Place(515074, -1278, "Royaume-Uni"))
  ]

  /** `getCountryCoords`. */
  function CountryCoords(country: Option<string>): (r: Option<Place>)
    ensures country.None? || AllSpace(country.value) ==> r.None?
    ensures r.Some? ==> exists i :: 0 <= i < |CountryTable| && CountryTable[i].place == r.value
  {
    CoordsIn(CountryTable, country)
  }

  /** The codes of the table are distinct, as the keys of an object are. */
  lemma CodesDistinct()
    ensures forall i, j :: 0 <= i < j < |CountryTable| ==> CountryTable[i].code != CountryTable[j].code
  {
  }

  /** Any input that trims and upper-cases to `TG`, such as `'tg'` or `' TG '`, gives Togo. */
  lemma TogoByCode(s: string)
    requires ToUpper(Trim(s)) == "TG"
    ensures CountryCoords(Some(s)) == Some(Place(61375, 12123, "Togo"))
  {
    assert ByCode(CountryTable, "TG") == Some(0);
    TrimEmptyIffAllSpace(s);
    assert Trim(s) != "";
  }

  /** Any input that trims and lower-cases to `ghana` gives Ghana, whatever its case. */
  lemma GhanaByName(s: string)
    requires ToLower(Trim(s)) == "ghana"
    ensures CountryCoords(Some(s)) == Some(Place(56037, -1870, "Ghana"))
  {
    var t := Trim(s);
    assert |t| == 5;
    ToUpperNotShorter(t);
    TrimEmptyIffAllSpace(s);
    assert !AllSpace(s) && |ToUpper(t)| != 2;
    GhanaRow();
  }

  /** `ghana` names the second entry, Ghana, and not the first. */
  lemma GhanaRow()
    ensures ByName(CountryTable, "ghana") == Some(1)
    ensures CountryTable[1].place == Place(56037, -1870, "Ghana")
  {
    assert |ToLower(CountryTable[0].place.name)| == 4;
    GhanaLowered();
  }

  /** The table's name `Ghana`, lower-cased. */
  lemma GhanaLowered()
    ensures ToLower(CountryTable[1].place.name) == "ghana"
  {
    var name := CountryTable[1].place.name;
    assert name == "Ghana";
    var lowered := ToLower(name);
    assert lowered[0] == 'g' && lowered[1] == 'h' && lowered[2] == 'a' && lowered[3] == 'n' && lowered[4] == 'a';
  }
}
