/**
 * The vehicle catalogue client (`src/api/real-api/real-vehicle.api.ts`): the response-shape
 * guards around each call and `mapVehicle`, which turns a decoded car record into an
 * `IVehicle`. The requests themselves go through the authenticated client; here each
 * operation is a function of the decoded response it receives.
 */
module VehicleApi {
  import opened Wrappers
  import opened Text
  import opened JsValue

  /** `IVehicle`; each field holds whatever value the record carried, as `mapVehicle` copies it. */
  datatype Vehicle = Vehicle(id: Json, year: Json, make: Json, model: Json, engine: Json)

  /** The record `mapVehicle` returns for a missing or non-object input. */
  const EmptyVehicle := Vehicle(Num(0), Num(0), Str(""), Str(""), Str(""))

  /** `mapVehicle`. */
  function MapVehicle(v: Json): (r: Vehicle)
    ensures !Truthy(v) || !TypeofObject(v) ==> r == EmptyVehicle
    ensures Truthy(r.id) || r.id == Num(0)
    ensures Truthy(r.year) || r.year == Num(0)
    ensures Truthy(r.make) || r.make == Str("")
    ensures Truthy(r.model) || r.model == Str("")
    ensures Truthy(r.engine) || r.engine == Str("")
  {
    if !Truthy(v) || !TypeofObject(v) then EmptyVehicle
    else
      Vehicle(
        Or(Field(v, "id"), Num(0)),
        Or(Field(v, "year"), Num(0)),
        Or(Field(v, "make"), Str("")),
        Or(Field(v, "model"), Str("")),
        Or(Or(Field(v, "engine"), Field(v, "trim")), Str("")))
  }

  /**
   * A record's own truthy fields are copied, and each falsy one takes its default: `0` for
   * `id` and `year`, `''` for the rest; `engine` first falls back to `trim`.
   */
  lemma MapVehicleFields(props: seq<Prop>)
    ensures var r := MapVehicle(Obj(props));
      && OrElse(r.id, Lookup(props, "id"), Num(0))
      && OrElse(r.year, Lookup(props, "year"), Num(0))
      && OrElse(r.make, Lookup(props, "make"), Str(""))
      && OrElse(r.model, Lookup(props, "model"), Str(""))
      && (Truthy(Lookup(props, "engine")) ==> r.engine == Lookup(props, "engine"))
      && (!Truthy(Lookup(props, "engine")) ==> OrElse(r.engine, Lookup(props, "trim"), Str("")))
  {
  }

  /** `Array.isArray(res) ? res : []`, the guard of `getYears`, `getMakes` and `getModels`. */
  function ArrayOrEmpty(res: Json): (r: seq<Json>)
    ensures res.Arr? ==> r == res.items
    ensures !res.Arr? ==> r == []
  {
    if res.Arr? then res.items else []
  }

  /** The path `getMakes` requests: `?year=` is added only for a truthy year. */
  function MakesPath(year: Json): (r: string)
    ensures !Truthy(year) ==> r == "/cars/makes"
    ensures Truthy(year) ==> r == "/cars/makes?year=" + JsString(year)
  {
    "/cars/makes" + (if Truthy(year) then "?year=" + JsString(year) else "")
  }

  /**
   * The path `getModels` requests; `encode` stands for `encodeURIComponent`. The `year`
   * argument takes no part in it.
   */
  function ModelsPath(year: int, make: string, encode: string -> string): (r: string)
    ensures |r| >= 13 && r[..13] == "/cars/models/" && r[13..] == encode(make)
  {
    "/cars/models/" + encode(make)
  }

  /** `getModels` requests the same path whatever year it is given. */
  lemma ModelsPathIgnoresYear(y1: int, y2: int, make: string, encode: string -> string)
    ensures ModelsPath(y1, make, encode) == ModelsPath(y2, make, encode)
  {
  }

  /**
   * `Array.isArray(res) ? res : (res.data || [])` followed by `.map`: `None` is the TypeError
   * of reading `data` on `null`/`undefined`, or of calling `map` on a non-array.
   */
  function ItemsOf(res: Json): (r: Option<seq<Json>>)
    ensures res.Arr? ==> r == Some(res.items)
    ensures Nullish(res) ==> r.None?
    ensures res.Obj? && !Truthy(Lookup(res.props, "data")) ==> r == Some([])
    ensures res.Obj? && Lookup(res.props, "data").Arr? ==> r == Some(Lookup(res.props, "data").items)
    ensures res.Obj? && Truthy(Lookup(res.props, "data")) && !Lookup(res.props, "data").Arr? ==> r.None?
    ensures !Nullish(res) && !res.Arr? && !res.Obj? ==> r == Some([])
  {
    if res.Arr? then Some(res.items)
    else match Get(res, "data")
      case None => None
      case Some(d) =>
        var items := Or(d, Arr([]));
        if items.Arr? then Some(items.items) else None
  }

  /** `getVehicles`: every item of the response goes through `mapVehicle`. */
  function GetVehicles(res: Json): (r: Option<seq<Vehicle>>)
    ensures r.Some? <==> ItemsOf(res).Some?
    ensures r.Some? ==> (|r.value| == |ItemsOf(res).value|
      && forall i :: 0 <= i < |r.value| ==> r.value[i] == MapVehicle(ItemsOf(res).value[i]))
  {
    match ItemsOf(res)
    case None => None
    case Some(items) => Some(seq(|items|, i requires 0 <= i < |items| => MapVehicle(items[i])))
  }

  /** One garage entry: `mapVehicle(g.car || g)`; reading `car` on a nullish entry throws. */
  function UserVehicle(g: Json): (r: Option<Vehicle>)
    ensures r.None? <==> Nullish(g)
    ensures r.Some? && Truthy(Field(g, "car")) ==> r.value == MapVehicle(Field(g, "car"))
    ensures r.Some? && !Truthy(Field(g, "car")) ==> r.value == MapVehicle(g)
  {
    match Get(g, "car")
    case None => None
    case Some(car) => Some(MapVehicle(Or(car, g)))
  }

  /** `getUserVehicles`: the whole call throws when the items do or when one entry is nullish. */
  function GetUserVehicles(res: Json): (r: Option<seq<Vehicle>>)
    ensures r.Some? <==> ItemsOf(res).Some? && forall i :: 0 <= i < |ItemsOf(res).value| ==> !Nullish(ItemsOf(res).value[i])
    ensures r.Some? ==> (|r.value| == |ItemsOf(res).value|
      && forall i :: 0 <= i < |r.value| ==> Some(r.value[i]) == UserVehicle(ItemsOf(res).value[i]))
  {
    match ItemsOf(res)
    case None => None
    case Some(items) =>
      if forall i :: 0 <= i < |items| ==> !Nullish(items[i]) then
        Some(seq(|items|, i requires 0 <= i < |items| => UserVehicle(items[i]).value))
      else None
  }
}
