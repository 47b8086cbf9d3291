/**
 * The motorcycle finder block (`src/components/blocks/BlockFinderMoto.tsx`): brand, model,
 * year and part-type selectors whose submission opens the parts search, and a VIN tab.
 */
module FinderMoto {
  import opened Wrappers
  import opened Text
  import opened JsValue
  import opened Router

  // ---------------------------------------------------------------------------
  // The block's state and its submission
  // ---------------------------------------------------------------------------

  datatype Tab = MotoTab | VinTab

  /** The properties `if (v) query[k] = v` adds to a record without `k`: one for a non-empty `v`, else none. */
  function Assigned(k: string, v: string): seq<Prop> {
    if v != "" then [Prop(k, Str(v))] else []
  }

  /** The record a run of `if (v) query[k] = v` builds from `{}`, for distinct keys. */
  function Present(keys: seq<string>, vals: seq<string>): (r: seq<Prop>)
    requires |keys| == |vals|
    ensures forall k :: k in Keys(r) ==> k in keys
    decreases |keys|
  {
    if keys == [] then []
    else
      var init := Present(keys[..|keys| - 1], vals[..|vals| - 1]);
      var last := Assigned(keys[|keys| - 1], vals[|vals| - 1]);
      assert Keys(init + last) == Keys(init) + Keys(last);
      init + last
  }

  /** Each key of the run reads as its value when that is non-empty, and is absent otherwise. */
  lemma {:induction false} LookupPresent(keys: seq<string>, vals: seq<string>, i: nat)
    requires |keys| == |vals| && Distinct(keys) && i < |keys|
    ensures Lookup(Present(keys, vals), keys[i]) == if vals[i] != "" then Str(vals[i]) else Undefined
    ensures DistinctKeys(Present(keys, vals))
    decreases |keys|
  {
    var n := |keys| - 1;
    var init := Present(keys[..n], vals[..n]);
    var last := Assigned(keys[n], vals[n]);
    LastKeyFresh(keys, vals);
    if i < n {
      LookupPresent(keys[..n], vals[..n], i);
      assert keys[..n][i] == keys[i] && vals[..n][i] == vals[i];
      if keys[i] in Keys(init) {
        LookupAppendFirst(init, last, keys[i]);
      } else {
        LookupAppendSecond(init, last, keys[i]);
      }
    } else {
      LookupAppendSecond(init, last, keys[i]);
    }
    PresentDistinct(keys, vals);
  }

  /** The last key of a run of distinct keys is not among those the earlier steps wrote. */
  lemma LastKeyFresh(keys: seq<string>, vals: seq<string>)
    requires |keys| == |vals| && Distinct(keys) && keys != []
    ensures keys[|keys| - 1] !in Keys(Present(keys[..|keys| - 1], vals[..|keys| - 1]))
  {
    var n := |keys| - 1;
    assert forall m :: 0 <= m < n ==> keys[..n][m] != keys[n];
  }

  /** A run over distinct keys builds a real object: no key twice. */
  lemma {:induction false} PresentDistinct(keys: seq<string>, vals: seq<string>)
    requires |keys| == |vals| && Distinct(keys)
    ensures DistinctKeys(Present(keys, vals))
    decreases |keys|
  {
    if keys != [] {
      var n := |keys| - 1;
      var init: seq<Prop> := Present(keys[..n], vals[..n]);
      var last: seq<Prop> := Assigned(keys[n], vals[n]);
      PresentDistinct(keys[..n], vals[..n]);
      LastKeyFresh(keys, vals);
      forall a, b | 0 <= a < b < |init + last|
        ensures (init + last)[a].key != (init + last)[b].key
      {
        if b >= |init| {
          assert Keys(init)[a] == (init + last)[a].key;
        }
      }
    }
  }

  /** A key of the first record reads from it in the concatenation. */
  lemma {:induction false} LookupAppendFirst(a: seq<Prop>, b: seq<Prop>, k: string)
    requires k in Keys(a)
    ensures Lookup(a + b, k) == Lookup(a, k)
  {
    if a[0].key != k {
      assert (a + b)[1..] == a[1..] + b;
      LookupAppendFirst(a[1..], b, k);
    }
  }

  /** A key missing from the first record reads from the second. */
  lemma {:induction false} LookupAppendSecond(a: seq<Prop>, b: seq<Prop>, k: string)
    requires k !in Keys(a)
    ensures Lookup(a + b, k) == Lookup(b, k)
  {
    if a != [] {
      assert (a + b)[1..] == a[1..] + b;
      assert Keys(a)[0] == a[0].key;
      LookupAppendSecond(a[1..], b, k);
    } else {
      assert a + b == b;
    }
  }

  /** One more assignment of the run: the next key is new, so it is appended. */
  lemma PresentNext(keys: seq<string>, vals: seq<string>, i: nat)
    requires |keys| == |vals| && Distinct(keys) && i < |keys|
    ensures keys[i] !in Keys(Present(keys[..i], vals[..i]))
    ensures Present(keys[..i + 1], vals[..i + 1]) == Present(keys[..i], vals[..i]) + Assigned(keys[i], vals[i])
  {
    assert keys[..i + 1][..i] == keys[..i] && vals[..i + 1][..i] == vals[..i];
  }

  /**
   * `if (v) query[k] = v` as the `i`-th assignment of a run over `keys`: on the record the
   * earlier assignments built, it builds the record of one assignment more.
   */
  method PutIfSet(query: seq<Prop>, k: string, v: string, ghost keys: seq<string>, ghost vals: seq<string>, ghost i: nat)
    returns (r: seq<Prop>)
    requires |keys| == |vals| && Distinct(keys) && i < |keys| && keys[i] == k && vals[i] == v
    requires query == Present(keys[..i], vals[..i])
    ensures r == Present(keys[..i + 1], vals[..i + 1])
  {
    PresentNext(keys, vals, i);
    r := query;
    if v != "" {
      r := Put(query, k, Str(v));
    }
  }

  /** The keys a motorcycle search may carry, in the order the block assigns them. */
  const MotoKeys: seq<string> := ["moto_brand", "moto_model", "moto_year", "moto_part_type", "filter_brand", "filter_part_type"]

  lemma MotoKeysDistinct()
    ensures Distinct(MotoKeys)
  {
  }

  /** The query of a motorcycle search: the four choices, then brand and part type again as shop filters. */
  function MotoQuery(brand: string, model: string, year: string, partType: string): seq<Prop> {
    Present(MotoKeys, [brand, model, year, partType, brand, partType])
  }

  /**
   * A `moto_` key is present only for a chosen field and carries it; `filter_brand` is
   * present exactly when `moto_brand` is and equals it, and so is `filter_part_type` with
   * `moto_part_type`; no other key appears and none twice.
   */
  lemma MotoQueryFields(brand: string, model: string, year: string, partType: string)
    ensures var q := MotoQuery(brand, model, year, partType);
      && DistinctKeys(q)
      && (forall k :: k in Keys(q) ==> k in MotoKeys)
      && Lookup(q, "moto_brand") == (if brand != "" then Str(brand) else Undefined)
      && Lookup(q, "moto_model") == (if model != "" then Str(model) else Undefined)
      && Lookup(q, "moto_year") == (if year != "" then Str(year) else Undefined)
      && Lookup(q, "moto_part_type") == (if partType != "" then Str(partType) else Undefined)
      && Lookup(q, "filter_brand") == Lookup(q, "moto_brand")
      && Lookup(q, "filter_part_type") == Lookup(q, "moto_part_type")
  {
    var vals := [brand, model, year, partType, brand, partType];
    MotoKeysDistinct();
    LookupPresent(MotoKeys, vals, 0);
    LookupPresent(MotoKeys, vals, 1);
    LookupPresent(MotoKeys, vals, 2);
    LookupPresent(MotoKeys, vals, 3);
    LookupPresent(MotoKeys, vals, 4);
    LookupPresent(MotoKeys, vals, 5);
  }

  class FinderMoto {
    var activeTab: Tab
    var brand: string
    var model: string
    var year: string
    var partType: string
    var vinInput: string

    constructor()
      ensures activeTab == MotoTab && brand == "" && model == "" && year == "" && partType == ""
      ensures vinInput == ""
    {
      activeTab := MotoTab;
      brand, model, year, partType, vinInput := "", "", "", "", "";
    }

    method SelectTab(tab: Tab)
      modifies this
      ensures activeTab == tab
      ensures brand == old(brand) && model == old(model) && year == old(year)
      ensures partType == old(partType) && vinInput == old(vinInput)
    {
      activeTab := tab;
    }

    /** The brand selector: a new brand clears the chosen model. */
    method SelectBrand(b: string)
      modifies this
      ensures brand == b && model == ""
      ensures activeTab == old(activeTab) && year == old(year) && partType == old(partType)
      ensures vinInput == old(vinInput)
    {
      brand := b;
      model := "";
    }

    method SelectModel(m: string)
      modifies this
      ensures model == m
      ensures activeTab == old(activeTab) && brand == old(brand) && year == old(year)
      ensures partType == old(partType) && vinInput == old(vinInput)
    {
      model := m;
    }

    method SelectYear(y: string)
      modifies this
      ensures year == y
      ensures activeTab == old(activeTab) && brand == old(brand) && model == old(model)
      ensures partType == old(partType) && vinInput == old(vinInput)
    {
      year := y;
    }

    method SelectPartType(p: string)
      modifies this
      ensures partType == p
      ensures activeTab == old(activeTab) && brand == old(brand) && model == old(model)
      ensures year == old(year) && vinInput == old(vinInput)
    {
      partType := p;
    }

    /** The VIN field stores what is typed, upper-cased. */
    method TypeVin(typed: string)
      modifies this
      ensures vinInput == ToUpper(typed)
      ensures activeTab == old(activeTab) && brand == old(brand) && model == old(model)
      ensures year == old(year) && partType == old(partType)
    {
      vinInput := ToUpper(typed);
    }

    /**
     * `onSubmitMoto`: each chosen field goes into the query under its `moto_` key, and the
     * brand and part type once more as shop filters.
     */
    method SubmitMoto() returns (push: Push)
      ensures push == Push(SearchPath, MotoQuery(brand, model, year, partType))
    {
      ghost var vals := [brand, model, year, partType, brand, partType];
      MotoKeysDistinct();
      var query: seq<Prop> := [];
      query := PutIfSet(query, MotoKeys[0], brand, MotoKeys, vals, 0);
      query := PutIfSet(query, MotoKeys[1], model, MotoKeys, vals, 1);
      query := PutIfSet(query, MotoKeys[2], year, MotoKeys, vals, 2);
      query := PutIfSet(query, MotoKeys[3], partType, MotoKeys, vals, 3);
      query := PutIfSet(query, MotoKeys[4], brand, MotoKeys, vals, 4);
      query := PutIfSet(query, MotoKeys[5], partType, MotoKeys, vals, 5);
      assert MotoKeys[..6] == MotoKeys && vals[..6] == vals;
      push := Push(SearchPath, query);
    }

    /** `onSubmitVin`: the search for the trimmed VIN, or nothing for a blank field. */
    method SubmitVin() returns (push: Option<Push>)
      ensures push.None? <==> AllSpace(vinInput)
      ensures push.Some? ==> push.value == Push(SearchPath, [Prop("vin", Str(Trim(vinInput)))])
    {
      push := VinSearch(vinInput);
    }
  }
}
