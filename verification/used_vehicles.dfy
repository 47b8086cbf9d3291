/**
 * The used-vehicle listing (`src/pages/used-vehicles/index.tsx`): the filter state the page
 * keeps, the filter-then-sort pipeline over the listing, the multi-select toggles, the count
 * of active filters, and the two search forms that navigate to the vehicle search.
 */
module UsedVehicles {
  import opened Wrappers
  import opened Text
  import opened JsValue
  import opened Seqs
  import opened Router
  import opened VehicleApi
  import Finder

  /** `IUsedVehicle`, as far as the page reads it; `kind` is the `type` field ('car' or 'moto'). */
  datatype UsedVehicle = UsedVehicle(
    id: int, kind: string, price: int, year: int, mileage: int,
    color: string, brand: string, bodyStyle: string, transmission: string,
    fuelType: string, condition: string)

  /** The six multi-select filters. */
  datatype Facet = Color | Brand | BodyStyle | Transmission | FuelType | Condition

  /** The attribute a multi-select filter tests. */
  function Attr(v: UsedVehicle, f: Facet): string {
    match f
    case Color => v.color
    case Brand => v.brand
    case BodyStyle => v.bodyStyle
    case Transmission => v.transmission
    case FuelType => v.fuelType
    case Condition => v.condition
  }

  /** The vehicle with one multi-select attribute replaced. */
  function WithAttr(v: UsedVehicle, f: Facet, x: string): (w: UsedVehicle)
    ensures Attr(w, f) == x
    ensures forall g :: g != f ==> Attr(w, g) == Attr(v, g)
    ensures w.kind == v.kind && w.price == v.price
  {
    match f
    case Color => v.(color := x)
    case Brand => v.(brand := x)
    case BodyStyle => v.(bodyStyle := x)
    case Transmission => v.(transmission := x)
    case FuelType => v.(fuelType := x)
    case Condition => v.(condition := x)
  }

  /** The page's filter state, one field per `useState` hook. */
  datatype FilterState = FilterState(
    vehicleType: string, priceMin: string, priceMax: string,
    colors: seq<string>, brands: seq<string>, bodyStyles: seq<string>,
    transmissions: seq<string>, fuelTypes: seq<string>, conditions: seq<string>,
    sortBy: string)

  function Selection(st: FilterState, f: Facet): seq<string> {
    match f
    case Color => st.colors
    case Brand => st.brands
    case BodyStyle => st.bodyStyles
    case Transmission => st.transmissions
    case FuelType => st.fuelTypes
    case Condition => st.conditions
  }

  /** What `resetFilters` restores, which is also the initial state. */
  const Defaults := FilterState("all", "", "", [], [], [], [], [], [], "newest")

  // ---------------------------------------------------------------------------
  // The filter pipeline
  // ---------------------------------------------------------------------------

  /** The multi-select filter applied at stage `k` (3 to 8) of the pipeline. */
  function FacetAt(k: nat): Facet
    requires 3 <= k < 9
  {
    if k == 3 then Color else if k == 4 then Brand else if k == 5 then BodyStyle
    else if k == 6 then Transmission else if k == 7 then FuelType else Condition
  }

  /**
   * Whether stage `k` of the pipeline lets `v` through: 0 the type, 1 the minimum price,
   * 2 the maximum price, 3 to 8 the multi-select filters. A stage that is switched off
   * (type 'all', a price that does not parse, an empty selection) lets everything through.
   */
  predicate Stage(st: FilterState, k: nat, v: UsedVehicle)
    requires k < 9
  {
    if k == 0 then st.vehicleType == "all" || v.kind == st.vehicleType
    else if k == 1 then ParseFloat(st.priceMin).None? || v.price >= ParseFloat(st.priceMin).value
    else if k == 2 then ParseFloat(st.priceMax).None? || v.price <= ParseFloat(st.priceMax).value
    else |Selection(st, FacetAt(k))| == 0 || Attr(v, FacetAt(k)) in Selection(st, FacetAt(k))
  }

  /** `v` passes the first `n` stages. */
  predicate PassesFirst(st: FilterState, n: nat, v: UsedVehicle)
    requires n <= 9
  {
    forall k :: 0 <= k < n ==> Stage(st, k, v)
  }

  /** `v` passes every filter: the reference the pipeline is proved against. */
  predicate Matches(st: FilterState, v: UsedVehicle) {
    PassesFirst(st, 9, v)
  }

  /** The vehicles of `data` that pass the first `n` stages, in order. */
  function Survivors(data: seq<UsedVehicle>, st: FilterState, n: nat): seq<UsedVehicle>
    requires n <= 9
  {
    Filter(data, v => PassesFirst(st, n, v))
  }

  /**
   * One stage of the pipeline: filtering the survivors of the first `n` stages by the
   * stage's test, or leaving them alone when the stage is switched off, gives the survivors
   * of the first `n + 1` stages.
   */
  lemma FilterStage(data: seq<UsedVehicle>, list: seq<UsedVehicle>, st: FilterState, n: nat,
                    on: bool, q: UsedVehicle -> bool)
    requires n < 9
    requires list == Survivors(data, st, n)
    requires on ==> forall v :: q(v) == Stage(st, n, v)
    requires !on ==> forall v :: Stage(st, n, v)
    ensures (if on then Filter(list, q) else list) == Survivors(data, st, n + 1)
  {
    var p := (v: UsedVehicle) => PassesFirst(st, n, v);
    var p' := (v: UsedVehicle) => PassesFirst(st, n + 1, v);
    forall v ensures p'(v) == (p(v) && Stage(st, n, v)) {
      PassesFirstNext(st, n, v);
    }
    if on {
      FilterThen(data, p, q, p');
    } else {
      FilterCongruent(data, p, p');
    }
  }

  lemma PassesFirstNext(st: FilterState, n: nat, v: UsedVehicle)
    requires n < 9
    ensures PassesFirst(st, n + 1, v) == (PassesFirst(st, n, v) && Stage(st, n, v))
  {
  }

  /** The key the listing is sorted on, ascending; an unknown `sortBy` sorts like 'newest'. */
  function SortKey(sortBy: string, v: UsedVehicle): int {
    if sortBy == "price-asc" then v.price
    else if sortBy == "price-desc" then -v.price
    else if sortBy == "year-desc" then -v.year
    else if sortBy == "mileage-asc" then v.mileage
    else -v.id
  }

  predicate SortedBy(s: seq<UsedVehicle>, sortBy: string) {
    forall i, j :: 0 <= i < j < |s| ==> SortKey(sortBy, s[i]) <= SortKey(sortBy, s[j])
  }

  /** `s[..n]` is sorted. */
  predicate SortedUpTo(s: seq<UsedVehicle>, sortBy: string, n: nat)
    requires n <= |s|
  {
    forall p, q :: 0 <= p < q < n ==> SortKey(sortBy, s[p]) <= SortKey(sortBy, s[q])
  }

  /**
   * While the element at `j` moves left, `s[..i+1]` without it is sorted and it is smaller
   * than everything to its right.
   */
  predicate Inserting(s: seq<UsedVehicle>, sortBy: string, i: nat, j: nat)
    requires j <= i < |s|
  {
    && (forall p, q :: 0 <= p < q <= i && p != j && q != j ==> SortKey(sortBy, s[p]) <= SortKey(sortBy, s[q]))
    && (forall q :: j < q <= i ==> SortKey(sortBy, s[j]) < SortKey(sortBy, s[q]))
  }

  /** Swapping the moving element with a larger left neighbour keeps the insertion going. */
  lemma InsertionSwap(s: seq<UsedVehicle>, t: seq<UsedVehicle>, sortBy: string, i: nat, j: nat)
    requires 0 < j <= i < |s| && Inserting(s, sortBy, i, j)
    requires SortKey(sortBy, s[j - 1]) > SortKey(sortBy, s[j])
    requires t == s[j - 1 := s[j]][j := s[j - 1]]
    ensures Inserting(t, sortBy, i, j - 1)
    ensures multiset(t) == multiset(s)
  {
  }

  /** The insertion stops at the front or behind a key no larger: `s[..i+1]` is sorted. */
  lemma InsertionDone(s: seq<UsedVehicle>, sortBy: string, i: nat, j: nat)
    requires j <= i < |s| && Inserting(s, sortBy, i, j)
    requires j == 0 || SortKey(sortBy, s[j - 1]) <= SortKey(sortBy, s[j])
    ensures SortedUpTo(s, sortBy, i + 1)
  {
  }

  /** `list.sort(compare)` for the comparator `sortBy` selects: an insertion sort in place. */
  method SortListing(a: array<UsedVehicle>, sortBy: string)
    modifies a
    ensures SortedBy(a[..], sortBy)
    ensures multiset(a[..]) == multiset(old(a[..]))
  {
    for i := 0 to a.Length
      invariant SortedUpTo(a[..], sortBy, i)
      invariant multiset(a[..]) == multiset(old(a[..]))
    {
      var j := i;
      while j > 0 && SortKey(sortBy, a[j - 1]) > SortKey(sortBy, a[j])
        invariant 0 <= j <= i
        invariant Inserting(a[..], sortBy, i, j)
        invariant multiset(a[..]) == multiset(old(a[..]))
      {
        ghost var s := a[..];
        a[j - 1], a[j] := a[j], a[j - 1];
        InsertionSwap(s, a[..], sortBy, i, j);
        j := j - 1;
      }
      InsertionDone(a[..], sortBy, i, j);
    }
  }

  /**
   * `filteredVehicles`: the listing narrowed stage by stage, then sorted. The result holds
   * exactly the vehicles that pass every filter, as many times as the listing holds them,
   * ordered by the chosen key.
   */
  method FilteredVehicles(data: seq<UsedVehicle>, st: FilterState) returns (r: seq<UsedVehicle>)
    ensures multiset(r) == multiset(Filter(data, v => Matches(st, v)))
    ensures multiset(r) <= multiset(data)
    ensures forall v :: v in r <==> v in data && Matches(st, v)
    ensures st.vehicleType != "all" ==> forall i :: 0 <= i < |r| ==> r[i].kind == st.vehicleType
    ensures ParseFloat(st.priceMin).Some? ==> forall i :: 0 <= i < |r| ==> r[i].price >= ParseFloat(st.priceMin).value
    ensures ParseFloat(st.priceMax).Some? ==> forall i :: 0 <= i < |r| ==> r[i].price <= ParseFloat(st.priceMax).value
    ensures SortedBy(r, st.sortBy)
  {
    var list := NarrowListing(data, st);
    FilterSubMultiset(data, v => Matches(st, v));
    var a := new UsedVehicle[|list|](i requires 0 <= i < |list| => list[i]);
    assert a[..] == list;
    SortListing(a, st.sortBy);
    r := a[..];
    forall v ensures v in r <==> v in list {
      assert v in r <==> v in multiset(r);
      assert v in list <==> v in multiset(list);
    }
    forall i | 0 <= i < |r|
      ensures Stage(st, 0, r[i]) && Stage(st, 1, r[i]) && Stage(st, 2, r[i])
    {
      assert r[i] in list;
      assert Matches(st, r[i]);
    }
  }

  /** The filters of `filteredVehicles`, in the page's order; each one that is switched on narrows the list. */
  method NarrowListing(data: seq<UsedVehicle>, st: FilterState) returns (list: seq<UsedVehicle>)
    ensures list == Filter(data, v => Matches(st, v))
  {
    list := data;
    SurvivorsOfNoStage(data, st);
    list := TypeStage(data, list, st);
    list := MinPriceStage(data, list, st);
    list := MaxPriceStage(data, list, st);
    list := SelectStage(data, list, st, 3, st.colors, (v: UsedVehicle) => v.color);
    list := SelectStage(data, list, st, 4, st.brands, (v: UsedVehicle) => v.brand);
    list := SelectStage(data, list, st, 5, st.bodyStyles, (v: UsedVehicle) => v.bodyStyle);
    list := SelectStage(data, list, st, 6, st.transmissions, (v: UsedVehicle) => v.transmission);
    list := SelectStage(data, list, st, 7, st.fuelTypes, (v: UsedVehicle) => v.fuelType);
    list := SelectStage(data, list, st, 8, st.conditions, (v: UsedVehicle) => v.condition);
    SurvivorsOfAllStages(data, st);
  }

  /** Before any stage every vehicle survives. */
  lemma SurvivorsOfNoStage(data: seq<UsedVehicle>, st: FilterState)
    ensures Survivors(data, st, 0) == data
  {
    FilterCongruent(data, v => PassesFirst(st, 0, v), v => true);
    FilterAll(data, v => true);
  }

  /** After the last stage the survivors are the matching vehicles. */
  lemma SurvivorsOfAllStages(data: seq<UsedVehicle>, st: FilterState)
    ensures Survivors(data, st, 9) == Filter(data, v => Matches(st, v))
  {
    FilterCongruent(data, v => PassesFirst(st, 9, v), v => Matches(st, v));
  }

  /** `if (vehicleTypeFilter !== 'all') list = list.filter((v) => v.type === vehicleTypeFilter)`. */
  method TypeStage(data: seq<UsedVehicle>, list: seq<UsedVehicle>, st: FilterState) returns (r: seq<UsedVehicle>)
    requires list == Survivors(data, st, 0)
    ensures r == Survivors(data, st, 1)
  {
    var typeIs := (v: UsedVehicle) => v.kind == st.vehicleType;
    FilterStage(data, list, st, 0, st.vehicleType != "all", typeIs);
    r := list;
    if st.vehicleType != "all" {
      r := Filter(list, typeIs);
    }
  }

  /** `const pMin = parseFloat(priceMin); if (!isNaN(pMin)) list = list.filter((v) => v.price >= pMin)`. */
  method MinPriceStage(data: seq<UsedVehicle>, list: seq<UsedVehicle>, st: FilterState) returns (r: seq<UsedVehicle>)
    requires list == Survivors(data, st, 1)
    ensures r == Survivors(data, st, 2)
  {
    var pMin := ParseFloat(st.priceMin);
    var atLeast := (v: UsedVehicle) => pMin.Some? && v.price >= pMin.value;
    FilterStage(data, list, st, 1, pMin.Some?, atLeast);
    r := list;
    if pMin.Some? {
      r := Filter(list, atLeast);
    }
  }

  /** `const pMax = parseFloat(priceMax); if (!isNaN(pMax)) list = list.filter((v) => v.price <= pMax)`. */
  method MaxPriceStage(data: seq<UsedVehicle>, list: seq<UsedVehicle>, st: FilterState) returns (r: seq<UsedVehicle>)
    requires list == Survivors(data, st, 2)
    ensures r == Survivors(data, st, 3)
  {
    var pMax := ParseFloat(st.priceMax);
    var atMost := (v: UsedVehicle) => pMax.Some? && v.price <= pMax.value;
    FilterStage(data, list, st, 2, pMax.Some?, atMost);
    r := list;
    if pMax.Some? {
      r := Filter(list, atMost);
    }
  }

  /**
   * `if (selected.length > 0) list = list.filter((v) => selected.includes(v.attr))` for the
   * multi-select filter of stage `n`.
   */
  method SelectStage(data: seq<UsedVehicle>, list: seq<UsedVehicle>, st: FilterState, n: nat,
                     selected: seq<string>, attr: UsedVehicle -> string)
    returns (r: seq<UsedVehicle>)
    requires 3 <= n < 9
    requires selected == Selection(st, FacetAt(n))
    requires forall v :: attr(v) == Attr(v, FacetAt(n))
    requires list == Survivors(data, st, n)
    ensures r == Survivors(data, st, n + 1)
  {
    var includes := (v: UsedVehicle) => attr(v) in selected;
    FilterStage(data, list, st, n, |selected| > 0, includes);
    r := list;
    if |selected| > 0 {
      r := Filter(list, includes);
    }
  }

  /** A minimum price that does not parse as a number filters nothing. */
  lemma UnparsedMinIgnored(st: FilterState, v: UsedVehicle)
    requires ParseFloat(st.priceMin).None?
    ensures Matches(st, v) <==> Matches(st.(priceMin := ""), v)
  {
    var cleared := st.(priceMin := "");
    assert Stage(st, 1, v) && Stage(cleared, 1, v);
    forall k | 0 <= k < 9
      ensures Stage(st, k, v) == Stage(cleared, k, v)
    {
    }
  }

  /** A maximum price that does not parse as a number filters nothing. */
  lemma UnparsedMaxIgnored(st: FilterState, v: UsedVehicle)
    requires ParseFloat(st.priceMax).None?
    ensures Matches(st, v) <==> Matches(st.(priceMax := ""), v)
  {
    var cleared := st.(priceMax := "");
    assert Stage(st, 2, v) && Stage(cleared, 2, v);
    forall k | 0 <= k < 9
      ensures Stage(st, k, v) == Stage(cleared, k, v)
    {
    }
  }

  /** A non-empty selection restricts its attribute to the selected values. */
  lemma SelectionRestricts(st: FilterState, f: Facet, v: UsedVehicle)
    requires Matches(st, v) && |Selection(st, f)| > 0
    ensures Attr(v, f) in Selection(st, f)
  {
    var k := match f
      case Color => 3 case Brand => 4 case BodyStyle => 5
      case Transmission => 6 case FuelType => 7 case Condition => 8;
    assert Stage(st, k, v);
  }

  /** An empty selection imposes nothing: the attribute it would test may be anything. */
  lemma EmptySelectionFree(st: FilterState, f: Facet, v: UsedVehicle, x: string)
    requires Selection(st, f) == []
    ensures Matches(st, v) <==> Matches(st, WithAttr(v, f, x))
  {
    var w := WithAttr(v, f, x);
    forall k | 0 <= k < 9
      ensures Stage(st, k, v) == Stage(st, k, w)
    {
      if 3 <= k && FacetAt(k) != f {
        assert Attr(w, FacetAt(k)) == Attr(v, FacetAt(k));
      }
    }
  }

  /** An unrecognised sort key orders the listing like 'newest': by id, descending. */
  lemma UnknownSortIsNewest(s: seq<UsedVehicle>, sortBy: string)
    requires sortBy !in {"price-asc", "price-desc", "year-desc", "mileage-asc"}
    requires SortedBy(s, sortBy)
    ensures SortedBy(s, "newest")
    ensures forall i, j :: 0 <= i < j < |s| ==> s[i].id >= s[j].id
  {
  }

  // ---------------------------------------------------------------------------
  // Toggles and the filter count
  // ---------------------------------------------------------------------------

  /** The update `toggleArrayFilter` applies to a selection. */
  function Toggle(prev: seq<string>, val: string): (r: seq<string>)
    ensures val in prev ==> val !in r && forall x :: x != val ==> (x in r <==> x in prev)
    ensures val !in prev ==> r == prev + [val]
  {
    if val in prev then Filter(prev, v => v != val) else prev + [val]
  }

  /** Toggling an absent value on and off again restores the selection. */
  lemma ToggleTwice(prev: seq<string>, val: string)
    requires val !in prev
    ensures Toggle(Toggle(prev, val), val) == prev
  {
    var ne := (v: string) => v != val;
    assert val in prev + [val];
    FilterAppend(prev, [val], ne);
    FilterAll(prev, ne);
    assert Filter([val], ne) == [];
  }

  /** `activeFilterCount`. */
  function ActiveFilterCount(st: FilterState): (n: nat)
    ensures n == 0 <==> st == Defaults.(sortBy := st.sortBy)
    ensures |Selection(st, Color)| <= n
  {
    (if st.vehicleType != "all" then 1 else 0)
    + (if st.priceMin != "" then 1 else 0)
    + (if st.priceMax != "" then 1 else 0)
    + |st.colors| + |st.brands| + |st.bodyStyles|
    + |st.transmissions| + |st.fuelTypes| + |st.conditions|
  }

  /** A minimum price that is not a number is counted as a filter, yet it filters nothing. */
  lemma UnparsedPriceCounted(st: FilterState, v: UsedVehicle)
    requires st.priceMin != "" && ParseFloat(st.priceMin).None?
    ensures ActiveFilterCount(st) == ActiveFilterCount(st.(priceMin := "")) + 1
    ensures Matches(st, v) <==> Matches(st.(priceMin := ""), v)
  {
    UnparsedMinIgnored(st, v);
  }

  // ---------------------------------------------------------------------------
  // The page
  // ---------------------------------------------------------------------------

  /** The page's state hooks: the search forms and the filters. */
  class UsedVehiclesPage {
    var vehicle: Option<Vehicle>
    var vinInput: string
    var vehicleTypeFilter: string
    var priceMin: string
    var priceMax: string
    var selectedColors: seq<string>
    var selectedBrands: seq<string>
    var selectedBodyStyles: seq<string>
    var selectedTransmissions: seq<string>
    var selectedFuelTypes: seq<string>
    var selectedConditions: seq<string>
    var sortBy: string

    function State(): FilterState
      reads this
    {
      FilterState(vehicleTypeFilter, priceMin, priceMax, selectedColors, selectedBrands,
                  selectedBodyStyles, selectedTransmissions, selectedFuelTypes,
                  selectedConditions, sortBy)
    }

    /** The initial state of every hook. */
    constructor ()
      ensures State() == Defaults && vehicle == None && vinInput == ""
    {
      vehicle := None;
      vinInput := "";
      vehicleTypeFilter := "all";
      priceMin := "";
      priceMax := "";
      selectedColors := [];
      selectedBrands := [];
      selectedBodyStyles := [];
      selectedTransmissions := [];
      selectedFuelTypes := [];
      selectedConditions := [];
      sortBy := "newest";
    }

    /** `toggleArrayFilter(selected, setSelected, val)` on the selection of `f`; nothing else changes. */
    method ToggleArrayFilter(f: Facet, val: string)
      modifies this
      ensures Selection(State(), f) == Toggle(Selection(old(State()), f), val)
      ensures forall g :: g != f ==> Selection(State(), g) == Selection(old(State()), g)
      ensures State().(colors := [], brands := [], bodyStyles := [], transmissions := [], fuelTypes := [], conditions := [])
           == old(State()).(colors := [], brands := [], bodyStyles := [], transmissions := [], fuelTypes := [], conditions := [])
      ensures vehicle == old(vehicle) && vinInput == old(vinInput)
    {
      match f
      case Color => selectedColors := Toggle(selectedColors, val);
      case Brand => selectedBrands := Toggle(selectedBrands, val);
      case BodyStyle => selectedBodyStyles := Toggle(selectedBodyStyles, val);
      case Transmission => selectedTransmissions := Toggle(selectedTransmissions, val);
      case FuelType => selectedFuelTypes := Toggle(selectedFuelTypes, val);
      case Condition => selectedConditions := Toggle(selectedConditions, val);
    }

    /** `resetFilters`: no filter is active afterwards and the sort is 'newest'; the search forms keep their input. */
    method ResetFilters()
      modifies this
      ensures State() == Defaults
      ensures ActiveFilterCount(State()) == 0 && sortBy == "newest"
      ensures vehicle == old(vehicle) && vinInput == old(vinInput)
    {
      vehicleTypeFilter := "all";
      priceMin := "";
      priceMax := "";
      selectedColors := [];
      selectedBrands := [];
      selectedBodyStyles := [];
      selectedTransmissions := [];
      selectedFuelTypes := [];
      selectedConditions := [];
      sortBy := "newest";
    }

    /**
     * `onSubmitVehicle`, the same handler as the finder block's: no navigation without a
     * selected vehicle; a `TypeError` when its id or year is nullish and `toString` throws;
     * otherwise the vehicle search with all six fields.
     */
    method OnSubmitVehicle() returns (s: Finder.Submission)
      ensures vehicle.None? ==> s == Finder.Stay
      ensures vehicle.Some? && (Nullish(vehicle.value.id) || Nullish(vehicle.value.year)) ==> s == Finder.Throws
      ensures vehicle.Some? && !Nullish(vehicle.value.id) && !Nullish(vehicle.value.year) ==>
        s.Go? && s.push.pathname == SearchPath
      ensures s.Go? ==> var q := s.push.query; var v := vehicle.value;
        && DistinctKeys(q) && Keys(q) == Finder.VehicleKeys
        && Lookup(q, "vehicle_id") == Str(JsString(v.id)) && Lookup(q, "year") == Str(JsString(v.year))
        && Lookup(q, "make") == v.make && Lookup(q, "model") == v.model && Lookup(q, "engine") == v.engine
        && Lookup(q, "filter_vehicle") == Lookup(q, "vehicle_id")
    {
      if vehicle.None? {
        return Finder.Stay;
      }
      var v := vehicle.value;
      var id := Finder.ToStringCall(v.id);
      if id.None? {
        return Finder.Throws;
      }
      var year := Finder.ToStringCall(v.year);
      if year.None? {
        return Finder.Throws;
      }
      Finder.VehicleQueryFields(id.value, year.value, v);
      s := Finder.Go(Push(SearchPath, Finder.VehicleQuery(id.value, year.value, v)));
    }

    /** `onSubmitVin`: no navigation for a blank input, else the trimmed input as `vin`. */
    method OnSubmitVin() returns (r: Option<Push>)
      ensures r.None? <==> Trim(vinInput) == ""
      ensures r.Some? ==> r.value == Push("/vehicle-search", [Prop("vin", Str(Trim(vinInput)))])
    {
      var vin := Trim(vinInput);
      if vin == "" {
        return None;
      }
      return Some(Push("/vehicle-search", [Prop("vin", Str(vin))]));
    }
  }
}
