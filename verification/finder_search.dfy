/**
 * How the parts-search page reads back what the two finder blocks send it: each
 * submission selects the search mode it was made from, and the page recovers its fields.
 */
module FinderSearch {
  import opened Text
  import opened JsValue
  import opened Router
  import VinDecoder
  import VehicleApi
  import Finder
  import FinderMoto
  import opened VehicleSearch

  /**
   * A VIN submission selects the VIN search, and the page decodes the same VIN the user
   * typed: trimming before the page normalises it changes nothing.
   */
  lemma VinSubmissionSearchesByVin(input: string)
    requires VinSearch(input).Some?
    ensures var q := VinSearch(input).value.query;
      && VinRequested(q)
      && Lookup(q, "vin") == Str(Trim(input))
      && VinDecoder.DecodeVin(Lookup(q, "vin").s) == VinDecoder.DecodeVin(input)
  {
    var q := VinSearch(input).value.query;
    LookupDistinct(q, 0);
    TrimIdempotent(input);
    ToUpperTrim(input);
    TrimIdempotent(ToUpper(input));
    assert VinDecoder.Normalise(Trim(input)) == VinDecoder.Normalise(input);
  }

  /** A query without `vin` and `moto_brand` selects the vehicle search. */
  lemma NeitherVinNorMoto(q: seq<Prop>)
    requires "vin" !in Keys(q) && "moto_brand" !in Keys(q)
    ensures !VinRequested(q) && !MotoRequested(q)
  {
  }

  /** A string value reads back as itself; the empty string is what an absent key reads as. */
  lemma QueryOrString(q: seq<Prop>, k: string, s: string)
    requires Lookup(q, k) == Str(s) || (s == "" && Lookup(q, k) == Undefined)
    ensures QueryOr(q, k) == Str(s)
  {
  }

  /**
   * A vehicle submission selects the vehicle search (it carries neither `vin` nor
   * `moto_brand`), and the page reads back the id, year, make, model and engine it sent.
   */
  lemma VehicleSubmissionSearchesByVehicle(id: string, year: string, v: VehicleApi.Vehicle)
    ensures var q := Finder.VehicleQuery(id, year, v);
      && !VinRequested(q) && !MotoRequested(q)
      && QueryOr(q, "vehicle_id") == Str(id) && QueryOr(q, "year") == Str(year)
      && QueryOr(q, "make") == Or(v.make, Str("")) && QueryOr(q, "model") == Or(v.model, Str(""))
      && QueryOr(q, "engine") == Or(v.engine, Str(""))
  {
    var q := Finder.VehicleQuery(id, year, v);
    Finder.VehicleQueryFields(id, year, v);
    assert "vin" !in Keys(q) && "moto_brand" !in Keys(q) by {
      Finder.VehicleQueryKeys(id, year, v);
    }
    NeitherVinNorMoto(q);
    QueryOrString(q, "vehicle_id", id);
    QueryOrString(q, "year", year);
  }

  /**
   * A motorcycle submission selects the motorcycle search exactly when a brand was chosen;
   * the page then reads back all four choices, an unset one as the empty string.
   */
  lemma MotoSubmissionSearchesByMoto(brand: string, model: string, year: string, partType: string)
    ensures var q := FinderMoto.MotoQuery(brand, model, year, partType);
      && !VinRequested(q)
      && (MotoRequested(q) <==> brand != "")
      && QueryOr(q, "moto_brand") == Str(brand) && QueryOr(q, "moto_model") == Str(model)
      && QueryOr(q, "moto_year") == Str(year) && QueryOr(q, "moto_part_type") == Str(partType)
  {
    var q := FinderMoto.MotoQuery(brand, model, year, partType);
    FinderMoto.MotoQueryFields(brand, model, year, partType);
    assert "vin" !in Keys(q) by {
      assert "vin" !in FinderMoto.MotoKeys;
    }
    QueryOrString(q, "moto_brand", brand);
    QueryOrString(q, "moto_model", model);
    QueryOrString(q, "moto_year", year);
    QueryOrString(q, "moto_part_type", partType);
  }
}
