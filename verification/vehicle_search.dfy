/**
 * The parts-search page (`src/pages/vehicle-search.tsx`): the server reads the query string
 * to choose a search mode (by VIN, by motorcycle, by vehicle) and builds the page props;
 * the page turns those props into its title, subtitle and breadcrumb.
 */
module VehicleSearch {
  import opened Wrappers
  import opened Text
  import opened Seqs
  import opened JsValue
  import VinDecoder
  import Url

  datatype SearchMode = ByVin | ByVehicle | ByMoto

  /**
   * `Props`. Each optional field is `Undefined` when the server did not set it; a query
   * value may be a string or, for a repeated parameter, an array.
   */
  datatype SearchProps = SearchProps(
    mode: SearchMode,
    vin: Json,
    decoded: Option<VinDecoder.DecodedVin>,
    vehicleId: Json,
    vehicleMake: Json,
    vehicleModel: Json,
    vehicleYear: Json,
    vehicleEngine: Json,
    motoBrand: Json,
    motoModel: Json,
    motoYear: Json,
    motoPartType: Json)

  /** The props before any field is set. */
  const NoProps := SearchProps(ByVehicle, Undefined, None, Undefined, Undefined, Undefined,
    Undefined, Undefined, Undefined, Undefined, Undefined, Undefined)

  /** `typeof query.vin === 'string' && query.vin.trim()`. */
  predicate VinRequested(query: seq<Prop>) {
    Lookup(query, "vin").Str? && Trim(Lookup(query, "vin").s) != ""
  }

  /** `typeof query.moto_brand === 'string'`; an empty brand still selects the motorcycle search. */
  predicate MotoRequested(query: seq<Prop>) {
    Lookup(query, "moto_brand").Str?
  }

  /** A mode's fields are set only in that mode. */
  predicate OnlyModeFields(p: SearchProps) {
    && (p.mode != ByVin ==> p.vin == Undefined && p.decoded.None?)
    && (p.mode != ByMoto ==>
         p.motoBrand == Undefined && p.motoModel == Undefined && p.motoYear == Undefined && p.motoPartType == Undefined)
    && (p.mode != ByVehicle ==>
         && p.vehicleId == Undefined && p.vehicleMake == Undefined && p.vehicleModel == Undefined
         && p.vehicleYear == Undefined && p.vehicleEngine == Undefined)
  }

  /** `(query[k] as string) || ''`. */
  function QueryOr(query: seq<Prop>, k: string): (r: Json)
    ensures Truthy(Lookup(query, k)) ==> r == Lookup(query, k)
    ensures !Truthy(Lookup(query, k)) ==> r == Str("")
  {
    Or(Lookup(query, k), Str(""))
  }

  /**
   * `getServerSideProps`: the props the page receives, and the filters the shop is started
   * with. `parsed` stands for the filters the shop helpers parse out of `req.url`; `None`
   * means the shop is not started because `req.url` is not a string.
   */
  method ServerSideProps(query: seq<Prop>, reqUrl: Json, parsed: seq<Prop>)
    returns (props: SearchProps, filters: Option<seq<Prop>>)
    ensures props.mode == ByVin <==> VinRequested(query)
    ensures props.mode == ByMoto <==> !VinRequested(query) && MotoRequested(query)
    ensures OnlyModeFields(props)
    ensures props.mode == ByVin ==>
      && props.vin == Lookup(query, "vin")
      && props.decoded == Some(VinDecoder.DecodeVin(Lookup(query, "vin").s))
    ensures props.mode == ByMoto ==>
      && props.motoBrand == QueryOr(query, "moto_brand") && props.motoModel == QueryOr(query, "moto_model")
      && props.motoYear == QueryOr(query, "moto_year") && props.motoPartType == QueryOr(query, "moto_part_type")
    ensures props.mode == ByVehicle ==>
      && props.vehicleId == QueryOr(query, "vehicle_id") && props.vehicleMake == QueryOr(query, "make")
      && props.vehicleModel == QueryOr(query, "model") && props.vehicleYear == QueryOr(query, "year")
      && props.vehicleEngine == QueryOr(query, "engine")
    ensures filters.Some? <==> reqUrl.Str?
    ensures filters.Some? && !Truthy(props.vehicleId) ==> filters.value == parsed
    ensures filters.Some? && Truthy(props.vehicleId) ==>
      && props.mode == ByVehicle
      && Lookup(filters.value, "vehicle") == Lookup(query, "vehicle_id")
      && forall k :: k != "vehicle" ==> Lookup(filters.value, k) == Lookup(parsed, k)
  {
    var mode := ByVehicle;
    props := NoProps;
    var vin := Lookup(query, "vin");
    if vin.Str? && Trim(vin.s) != "" {
      mode := ByVin;
      var decoded := VinDecoder.DecodeVin(vin.s);
      props := props.(vin := vin, decoded := Some(decoded));
    } else if Lookup(query, "moto_brand").Str? {
      mode := ByMoto;
      props := props.(motoBrand := QueryOr(query, "moto_brand"));
      props := props.(motoModel := QueryOr(query, "moto_model"));
      props := props.(motoYear := QueryOr(query, "moto_year"));
      props := props.(motoPartType := QueryOr(query, "moto_part_type"));
    } else {
      mode := ByVehicle;
      props := props.(vehicleId := QueryOr(query, "vehicle_id"));
      props := props.(vehicleMake := QueryOr(query, "make"));
      props := props.(vehicleModel := QueryOr(query, "model"));
      props := props.(vehicleYear := QueryOr(query, "year"));
      props := props.(vehicleEngine := QueryOr(query, "engine"));
    }
    props := props.(mode := mode);

    filters := None;
    if reqUrl.Str? {
      var f := parsed;
      if Truthy(props.vehicleId) {
        f := Put(f, "vehicle", props.vehicleId);
        LookupPutSame(parsed, "vehicle", props.vehicleId);
        forall k | k != "vehicle"
          ensures Lookup(f, k) == Lookup(parsed, k)
        {
          LookupPutOther(parsed, "vehicle", props.vehicleId, k);
        }
      }
      filters := Some(f);
    }
  }

  // ---------------------------------------------------------------------------
  // Title and breadcrumb
  // ---------------------------------------------------------------------------

  /** `ILink`. */
  datatype Crumb = Crumb(title: string, url: string)

  datatype PageInfo = PageInfo(title: string, subtitle: string, breadcrumb: seq<Crumb>)

  /** `[a, b, c].filter(Boolean)` followed by `join(' ')`, or `fallback` when nothing is left. */
  function PartsTitle(parts: seq<Json>, fallback: string): (r: string)
    ensures Filter(parts, Truthy) == [] ==> r == fallback
    ensures |Filter(parts, Truthy)| == 1 ==> r == ElementString(Filter(parts, Truthy)[0])
  {
    if Filter(parts, Truthy) != [] then JoinTruthy(parts, " ") else fallback
  }

  /**
   * The title of any list of strings: the non-empty ones joined by single spaces, or the
   * fallback when all are empty.
   */
  lemma PartsTitleOfStrings(names: seq<string>, fallback: string)
    ensures PartsTitle(Strs(names), fallback) ==
      if forall x :: x in names ==> x == "" then fallback
      else Join(Filter(names, NonEmpty), " ")
  {
    JoinTruthyStrings(names, " ");
    KeptNoneIffAllEmpty(names);
    TruthyStrings(names);
  }

  /** A title of three parts: the non-empty ones joined by single spaces, else the fallback. */
  lemma PartsTitleThree(a: string, b: string, c: string, fallback: string)
    ensures PartsTitle([Str(a), Str(b), Str(c)], fallback) ==
      if a == "" && b == "" && c == "" then fallback
      else Join(Filter([a, b, c], NonEmpty), " ")
  {
    var names := [a, b, c];
    assert Strs(names) == [Str(a), Str(b), Str(c)];
    assert a in names && b in names && c in names;
    assert (forall x :: x in names ==> x == "") <==> a == "" && b == "" && c == "";
    PartsTitleOfStrings(names, fallback);
  }

  /** Three non-empty strings are joined with single spaces. */
  lemma PartsTitleAll(a: string, b: string, c: string, fallback: string)
    requires a != "" && b != "" && c != ""
    ensures PartsTitle([Str(a), Str(b), Str(c)], fallback) == a + " " + b + " " + c
  {
    var parts := [Str(a), Str(b), Str(c)];
    KeepAllTruthy(parts);
    assert seq(3, i requires 0 <= i < 3 => ElementString(parts[i])) == [a, b, c];
    JoinThree(a, b, c);
  }

  /** Three truthy values all pass the filter. */
  lemma KeepAllTruthy(parts: seq<Json>)
    requires |parts| == 3 && Truthy(parts[0]) && Truthy(parts[1]) && Truthy(parts[2])
    ensures Filter(parts, Truthy) == parts
  {
    assert Filter(parts[2..], Truthy) == parts[2..] by {
      assert parts[2..][1..] == [];
    }
    assert Filter(parts[1..], Truthy) == parts[1..] by {
      assert parts[1..][1..] == parts[2..];
    }
  }

  /** Three strings joined by spaces. */
  lemma JoinThree(a: string, b: string, c: string)
    ensures Join([a, b, c], " ") == a + " " + b + " " + c
  {
    var names := [a, b, c];
    assert Join(names[1..], " ") == b + " " + c by {
      assert names[1..][1..] == [c];
    }
  }

  /** Empty strings are skipped, not joined as blanks. */
  lemma PartsTitleSkipsEmpty(a: string, c: string, fallback: string)
    requires a != "" && c != ""
    ensures PartsTitle([Str(a), Str(""), Str(c)], fallback) == a + " " + c
  {
    var parts := [Str(a), Str(""), Str(c)];
    assert Filter(parts[2..], Truthy) == [Str(c)] by {
      assert parts[2..][1..] == [];
    }
    assert Filter(parts[1..], Truthy) == [Str(c)] by {
      assert parts[1..][1..] == parts[2..];
    }
    assert Filter(parts, Truthy) == [Str(a), Str(c)];
    var names := [a, c];
    assert Join(names[1..], " ") == c;
  }

  /** Only empty strings leave the fallback title. */
  lemma PartsTitleNone(fallback: string)
    ensures PartsTitle([Str(""), Str(""), Str("")], fallback) == fallback
  {
    var parts := [Str(""), Str(""), Str("")];
    assert Filter(parts[2..], Truthy) == [] by {
      assert parts[2..][1..] == [];
    }
    assert Filter(parts[1..], Truthy) == [] by {
      assert parts[1..][1..] == parts[2..];
    }
  }

  /** The VIN branch of the page: VIN mode with a decoded VIN. */
  predicate ShowsVin(p: SearchProps) {
    p.mode == ByVin && p.decoded.Some?
  }

  /** `pageInfo`. */
  method BuildPageInfo(p: SearchProps) returns (info: PageInfo)
    ensures |info.breadcrumb| == 3 && info.breadcrumb[0] == Crumb("Accueil", Url.StaticPath(Url.Home))
    ensures ShowsVin(p) && p.decoded.value.valid ==>
      && info.title == p.decoded.value.manufacturer + " " + p.decoded.value.year
      && info.subtitle == "VIN: " + p.decoded.value.vin
    ensures ShowsVin(p) && !p.decoded.value.valid ==>
      && info.title == "VIN invalide"
      && info.subtitle == "Le num\U{e9}ro \"" + JsString(p.vin) + "\" n'est pas un VIN valide"
    ensures ShowsVin(p) ==>
      && info.breadcrumb[1] == Crumb("Recherche par VIN", "/")
      && info.breadcrumb[2].url == "/"
      && (p.decoded.value.manufacturer != "" ==> info.breadcrumb[2].title == p.decoded.value.manufacturer)
      && (p.decoded.value.manufacturer == "" ==> info.breadcrumb[2].title == JsString(Or(p.vin, Str(""))))
    ensures !ShowsVin(p) ==> info.breadcrumb[2] == Crumb(info.title, "/")
    ensures !ShowsVin(p) && p.mode == ByMoto ==>
      && info.title == PartsTitle([p.motoBrand, p.motoModel, p.motoYear], "Moto")
      && info.subtitle == (if Truthy(p.motoPartType) then JsString(p.motoPartType) else "Toutes pi\U{e8}ces moto")
      && info.breadcrumb[1] == Crumb("Moto", Url.StaticPath(Url.MotoHome))
    ensures !ShowsVin(p) && p.mode != ByMoto ==>
      && info.title == PartsTitle([p.vehicleYear, p.vehicleMake, p.vehicleModel], "V\U{e9}hicule")
      && info.subtitle == (if Truthy(p.vehicleEngine) then JsString(p.vehicleEngine) else "Toutes pi\U{e8}ces")
      && info.breadcrumb[1] == Crumb("Recherche v\U{e9}hicule", "/")
  {
    var title := "Recherche de pi\U{e8}ces";
    var subtitle := "";
    var breadcrumb := [Crumb("Accueil", Url.StaticPath(Url.Home))];
    if p.mode == ByVin && p.decoded.Some? {
      var decoded := p.decoded.value;
      if decoded.valid {
        title := decoded.manufacturer + " " + decoded.year;
        subtitle := "VIN: " + decoded.vin;
      } else {
        title := "VIN invalide";
        subtitle := "Le num\U{e9}ro \"" + JsString(p.vin) + "\" n'est pas un VIN valide";
      }
      breadcrumb := breadcrumb + [Crumb("Recherche par VIN", "/")];
      breadcrumb := breadcrumb + [Crumb(JsString(Or(Or(Str(decoded.manufacturer), p.vin), Str(""))), "/")];
    } else if p.mode == ByMoto {
      title := PartsTitle([p.motoBrand, p.motoModel, p.motoYear], "Moto");
      subtitle := JsString(Or(p.motoPartType, Str("Toutes pi\U{e8}ces moto")));
      breadcrumb := breadcrumb + [Crumb("Moto", Url.StaticPath(Url.MotoHome))];
      breadcrumb := breadcrumb + [Crumb(title, "/")];
    } else {
      title := PartsTitle([p.vehicleYear, p.vehicleMake, p.vehicleModel], "V\U{e9}hicule");
      subtitle := JsString(Or(p.vehicleEngine, Str("Toutes pi\U{e8}ces")));
      breadcrumb := breadcrumb + [Crumb("Recherche v\U{e9}hicule", "/")];
      breadcrumb := breadcrumb + [Crumb(title, "/")];
    }
    info := PageInfo(title, subtitle, breadcrumb);
  }
}
