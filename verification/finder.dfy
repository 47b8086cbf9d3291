/**
 * The vehicle finder block (`src/components/blocks/BlockFinder.tsx`): a vehicle selector
 * whose submission opens the parts search for the chosen vehicle, and a VIN tab.
 */
module Finder {
  import opened Wrappers
  import opened Text
  import opened JsValue
  import opened Router
  import opened VehicleApi

  datatype Tab = VehicleTab | VinTab

  /**
   * What a submission does: nothing, a navigation, or a `TypeError` thrown by `toString`
   * on a nullish `id` or `year`.
   */
  datatype Submission = Stay | Go(push: Push) | Throws

  /** `toString()`: `String(j)` for any value but `null` and `undefined`, on which it throws. */
  function ToStringCall(j: Json): (r: Option<string>)
    ensures r.None? <==> Nullish(j)
    ensures r.Some? ==> r.value == JsString(j)
  {
    if j.Undefined? || j.Null? then None else Some(JsString(j))
  }

  /** The keys of a vehicle search, in the order the block writes them. */
  const VehicleKeys: seq<string> := ["vehicle_id", "year", "make", "model", "engine", "filter_vehicle"]

  lemma VehicleKeysDistinct()
    ensures Distinct(VehicleKeys)
  {
  }

  /**
   * The query of a vehicle search: the vehicle's id and year as strings, its make, model
   * and engine as they are, and the id again as the shop's vehicle filter.
   */
  function VehicleQuery(id: string, year: string, v: Vehicle): seq<Prop> {
    Record(VehicleKeys, [Str(id), Str(year), v.make, v.model, v.engine, Str(id)])
  }

  /** The six keys are distinct, so each reads back as what was assigned to it. */
  lemma VehicleQueryFields(id: string, year: string, v: Vehicle)
    ensures var q := VehicleQuery(id, year, v);
      && DistinctKeys(q) && Keys(q) == VehicleKeys
      && Lookup(q, "vehicle_id") == Str(id) && Lookup(q, "year") == Str(year)
      && Lookup(q, "make") == v.make && Lookup(q, "model") == v.model && Lookup(q, "engine") == v.engine
      && Lookup(q, "filter_vehicle") == Lookup(q, "vehicle_id")
  {
    var vals := [Str(id), Str(year), v.make, v.model, v.engine, Str(id)];
    VehicleKeysDistinct();
    LookupRecord(VehicleKeys, vals, 0);
    LookupRecord(VehicleKeys, vals, 1);
    LookupRecord(VehicleKeys, vals, 2);
    LookupRecord(VehicleKeys, vals, 3);
    LookupRecord(VehicleKeys, vals, 4);
    LookupRecord(VehicleKeys, vals, 5);
  }

  /** A vehicle search carries no `vin` and no `moto_brand`. */
  lemma VehicleQueryKeys(id: string, year: string, v: Vehicle)
    ensures "vin" !in Keys(VehicleQuery(id, year, v)) && "moto_brand" !in Keys(VehicleQuery(id, year, v))
  {
    assert Keys(VehicleQuery(id, year, v)) == VehicleKeys;
  }

  /** A vehicle `mapVehicle` built always has an id and a year, so its submission never throws. */
  lemma MappedVehicleConverts(j: Json)
    ensures ToStringCall(MapVehicle(j).id).Some? && ToStringCall(MapVehicle(j).year).Some?
  {
  }

  class Finder {
    var vehicle: Option<Vehicle>
    var activeTab: Tab
    var vinInput: string

    constructor()
      ensures vehicle.None? && activeTab == VehicleTab && vinInput == ""
    {
      vehicle, activeTab, vinInput := None, VehicleTab, "";
    }

    method SelectTab(tab: Tab)
      modifies this
      ensures activeTab == tab && vehicle == old(vehicle) && vinInput == old(vinInput)
    {
      activeTab := tab;
    }

    /** `onVehicleChange`: the selector reports the chosen vehicle, or `null` while incomplete. */
    method SelectVehicle(v: Option<Vehicle>)
      modifies this
      ensures vehicle == v && activeTab == old(activeTab) && vinInput == old(vinInput)
    {
      vehicle := v;
    }

    /** The VIN field stores what is typed, upper-cased. */
    method TypeVin(typed: string)
      modifies this
      ensures vinInput == ToUpper(typed) && vehicle == old(vehicle) && activeTab == old(activeTab)
    {
      vinInput := ToUpper(typed);
    }

    /**
     * `onSubmitVehicle`: nothing without a vehicle; otherwise the search page for it, unless
     * its id or year cannot be converted to a string.
     */
    method SubmitVehicle() returns (s: Submission)
      ensures vehicle.None? ==> s == Stay
      ensures vehicle.Some? && (Nullish(vehicle.value.id) || Nullish(vehicle.value.year)) ==> s == Throws
      ensures vehicle.Some? && !Nullish(vehicle.value.id) && !Nullish(vehicle.value.year) ==>
        s == Go(Push(SearchPath, VehicleQuery(JsString(vehicle.value.id), JsString(vehicle.value.year), vehicle.value)))
    {
      if vehicle.None? {
        return Stay;
      }
      var v := vehicle.value;
      var id := ToStringCall(v.id);
      if id.None? {
        return Throws;
      }
      var year := ToStringCall(v.year);
      if year.None? {
        return Throws;
      }
      s := Go(Push(SearchPath, VehicleQuery(id.value, year.value, v)));
    }

    /** `onSubmitVin`: the search for the trimmed VIN, or nothing for a blank field. */
    method SubmitVin() returns (push: Option<Push>)
      ensures push.None? <==> AllSpace(vinInput)
      ensures push.Some? ==> push.value == Push(SearchPath, [Prop("vin", Str(Trim(vinInput)))])
    {
      push := VinSearch(vinInput);
    }
  }
}
